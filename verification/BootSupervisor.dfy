// The supervisor itself: the fields the boot queue lives in, and each stretch of
// its methods between two awaits. Whichever of them is next (`Run`), it keeps `Inv`
// and does to the fields what `Next` does to the state, so everything proved of
// runs holds of the fields.

module BootSupervisor {
  import opened Prelude
  import opened BootDoors
  import opened BootQueue

  // Something asked or heard of a server; not an attempt going on.
  predicate IsOfAServer(step: Step) {
    || step.PowerStart? || step.PowerStop? || step.Restore? || step.Delete? || step.Adopt?
    || step.Exit? || step.Becomes?
  }

  predicate MayResume(x: Attempt) { x.stage.Created? || x.stage.Granted? || x.stage.Revoked? }

  class Supervisor {
    var free: nat
    var line: seq<nat>
    var attempts: seq<Attempt>
    var queued: map<string, nat>
    var lock: map<string, nat>
    var phase: map<string, Phase>
    var running: set<string>
    var tickets: nat
    var called: nat

    function View(): State
      reads this
    {
      State(free, line, attempts, queued, lock, phase, running, tickets, called)
    }

    constructor (maxConcurrentBoots: int)
      ensures View() == Start(if maxConcurrentBoots < 1 then 1 else maxConcurrentBoots)
      ensures Inv(View())
    {
      free := if maxConcurrentBoots < 1 then 1 else maxConcurrentBoots;
      line, attempts, queued, lock, phase, running := [], [], map[], map[], map[], {};
      tickets, called := 0, 0;
    }

    method Move(a: nat, x: Attempt)
      requires a < |attempts|
      modifies `attempts
      ensures View() == Put(old(View()), a, x)
    {
      attempts := attempts[a := x];
    }

    // The first waiter, if any, is handed a free slot.
    method WakeNext()
      requires LineStands(View()) && free > 0
      modifies this
      ensures View() == Woken(old(View()))
    {
      if line == [] { return; }
      var x := attempts[line[0]];
      free := free - 1;
      Move(line[0], x.(stage := Granted, acquired := x.acquired + 1));
      if x.ticket.Some? { called := x.ticket.value + 1; }
      line := line[1..];
    }

    method Release(a: nat)
      requires LineStands(View()) && a < |attempts| && !attempts[a].stage.Waiting?
      modifies this
      ensures View() == Released(old(View()), a)
    {
      var x := attempts[a];
      Move(a, x.(stage := Over, released := x.released + 1));
      free := free + 1;
      WakeNext();
    }

    method Unlock(v: string)
      modifies `lock
      ensures View() == Unlocked(old(View()), v)
    {
      lock := lock - {v};
    }

    // `power(uuid, "start")`, once it has the server's lock, up to the checks.
    method BeginStart(v: string) returns (a: nat)
      requires v !in lock && LineStands(View()) && QueueStands(View())
      modifies this
      ensures a == |old(attempts)|
      ensures View() == Next(old(View()), PowerStart(v))
    {
      a := |attempts|;
      attempts := attempts + [Attempt(v, Ending(true), 0, 0, 0, false, None)];
      lock := lock[v := a];
      StartOrLeave(a);
    }

    method StartOrLeave(a: nat)
      requires a < |attempts|
      modifies this
      ensures View() == StartBegun(old(View()), a)
    {
      var v := attempts[a].server;
      if v in running || v in queued {
        Move(a, attempts[a].(stage := Over));
        Unlock(v);
      } else {
        Move(a, attempts[a].(stage := Checking));
      }
    }

    // The checks passed, or refused it: queue it, take a slot and launch, or nothing.
    method CheckedStart(a: nat, ok: bool)
      requires LineStands(View()) && a < |attempts| && attempts[a].stage.Checking?
      modifies this
      ensures View() == StartChecked(old(View()), a, ok)
    {
      var v := attempts[a].server;
      if !ok {
        Move(a, attempts[a].(stage := Over));
        Unlock(v);
        return;
      }
      if Locked(View()) {
        phase := phase[v := InQueue];
        Move(a, attempts[a].(stage := Over));
        Unlock(v);
        queued := queued[v := |attempts|];
        attempts := attempts + [Attempt(v, Created, 0, 0, 0, false, None)];
        return;
      }
      free := free - 1;
      var x := attempts[a];
      Move(a, x.(stage := Launching, acquired := x.acquired + 1, launched := x.launched + 1));
      phase := phase[v := Starting];
    }

    // `_start_queued`, from its beginning or from its wait, up to the lock.
    method ResumeQueued(a: nat)
      requires LineStands(View()) && a < |attempts|
      requires MayResume(attempts[a])
      modifies this
      ensures View() == Resumed(old(View()), a)
    {
      var x := attempts[a];
      if x.stage.Revoked? {
        Release(a);
        return;
      }
      if x.stage.Created? {
        if Locked(View()) {
          Move(a, x.(stage := Waiting, ticket := Some(tickets)));
          line := line + [a];
          tickets := tickets + 1;
          return;
        }
        free := free - 1;
        Move(a, x.(stage := Locking, acquired := x.acquired + 1));
        queued := queued - {x.server};
        return;
      }
      Move(a, x.(stage := Locking));
      queued := queued - {x.server};
      if free > 0 { WakeNext(); }
    }

    method LockQueued(a: nat)
      requires LineStands(View()) && a < |attempts| && attempts[a].stage.Locking? && attempts[a].server !in lock
      modifies this
      ensures View() == GotLock(old(View()), a)
    {
      var v := attempts[a].server;
      if !Is(View(), v, InQueue) || v in running {
        Release(a);
        return;
      }
      lock := lock[v := a];
      Move(a, attempts[a].(stage := Rechecking));
    }

    method CheckedQueued(a: nat, ok: bool)
      requires LineStands(View()) && a < |attempts| && attempts[a].stage.Rechecking?
      modifies this
      ensures View() == Rechecked(old(View()), a, ok)
    {
      var v, x := attempts[a].server, attempts[a];
      if ok {
        Move(a, x.(stage := LaunchingQueued, launched := x.launched + 1));
        phase := phase[v := Starting];
      } else {
        phase := phase[v := Offline];
        Unlock(v);
        Release(a);
      }
    }

    method EndLaunch(a: nat, ok: bool)
      requires LineStands(View()) && a < |attempts| && IsLaunching(attempts[a])
      modifies this
      ensures View() == LaunchEnded(old(View()), a, ok)
    {
      var v := attempts[a].server;
      if ok {
        running := running + {v};
        Move(a, attempts[a].(stage := Holding));
        Unlock(v);
      } else {
        phase := phase[v := Offline];
        Unlock(v);
        Release(a);
      }
    }

    method EndHold(a: nat)
      requires LineStands(View()) && a < |attempts| && attempts[a].stage.Holding?
      modifies this
      ensures View() == Released(old(View()), a)
    {
      Release(a);
    }

    // `queued.pop(...)` and the cancel; also all a deletion does to the queue.
    method CancelQueued(v: string)
      requires v in queued && QueueStands(View())
      modifies this
      ensures View() == Cancelled(old(View()), v)
    {
      var a := queued[v];
      queued := queued - {v};
      var x := attempts[a].(cancelled := true);
      if x.stage.Granted? {
        Move(a, x.(stage := Revoked));
      } else {
        Move(a, x.(stage := Over));
        line := WithoutOne(line, a);
      }
    }

    // `power(uuid, "stop")` or "restart", once it has the lock.
    method BeginStop(v: string, again: bool) returns (a: nat)
      requires v !in lock && QueueStands(View())
      modifies this
      ensures View() == StopBegun(old(View()), v, again)
    {
      var waiting := v in queued;
      if waiting {
        CancelQueued(v);
        phase := phase[v := Offline];
      }
      a := |attempts|;
      attempts := attempts + [Attempt(v, Ending(again), 0, 0, 0, false, None)];
      lock := lock[v := a];
      if !waiting && v in running {
        phase := phase[v := Stopping];
      } else {
        EndStop(a);
      }
    }

    // `_restore`, once it has the lock.
    method BeginRestore(v: string, again: bool)
      requires v !in lock && QueueStands(View())
      modifies this
      ensures View() == RestoreBegun(old(View()), v, again)
    {
      if v in running {
        var _ := BeginStop(v, again);
      } else {
        lock := lock[v := |attempts|];
        attempts := attempts + [Attempt(v, Ending(false), 0, 0, 0, false, None)];
      }
    }

    method EndStop(a: nat)
      requires a < |attempts| && attempts[a].stage.Ending?
      modifies this
      ensures View() == StopEnded(old(View()), a)
    {
      if attempts[a].stage.again {
        StartOrLeave(a);
      } else {
        var v := attempts[a].server;
        Move(a, attempts[a].(stage := Over));
        Unlock(v);
      }
    }

    // `adopt_running`, one server it finds running.
    method BeginAdoption(v: string)
      modifies this
      ensures View() == InPhase(Entered(old(View()), v, Adopting), v, Starting)
    {
      var a := |attempts|;
      attempts := attempts + [Attempt(v, Adopting, 0, 0, 0, false, None)];
      lock := lock[v := a];
      phase := phase[v := Starting];
    }

    // That one is re-attached, or not.
    method EndAdoption(a: nat, ok: bool)
      requires LineStands(View()) && a < |attempts| && attempts[a].stage.Adopting?
      modifies this
      ensures View() == Adopted(old(View()), a, ok)
    {
      var v := attempts[a].server;
      if !ok {
        phase := phase[v := Offline];
        Move(a, attempts[a].(stage := Over));
        Unlock(v);
        return;
      }
      running := running + {v};
      var x := attempts[a];
      if Is(View(), v, Starting) && !Locked(View()) {
        free := free - 1;
        Move(a, x.(stage := Holding, acquired := x.acquired + 1));
      } else {
        Move(a, x.(stage := Over));
      }
      Unlock(v);
    }

    // A power request; one that finds the server's lock held waits outside, and is
    // this step again once it has it.
    method AskStart(v: string)
      requires Inv(View())
      modifies this
      ensures Inv(View()) && View() == Next(old(View()), PowerStart(v))
    {
      PowerStartKeeps(View(), v);
      if v !in lock { var _ := BeginStart(v); }
    }

    method AskStop(v: string, again: bool)
      requires Inv(View())
      modifies this
      ensures Inv(View()) && View() == Next(old(View()), PowerStop(v, again))
    {
      PowerStopKeeps(View(), v, again);
      if v !in lock { var _ := BeginStop(v, again); }
    }

    method AskRestore(v: string, again: bool)
      requires Inv(View())
      modifies this
      ensures Inv(View()) && View() == Next(old(View()), Restore(v, again))
    {
      RestoreKeeps(View(), v, again);
      if v !in lock { BeginRestore(v, again); }
    }

    // The server is deleted.
    method Forget(v: string)
      requires Inv(View())
      modifies this
      ensures Inv(View()) && View() == Next(old(View()), Delete(v))
    {
      DeleteKeeps(View(), v);
      if v in queued { CancelQueued(v); }
    }

    method Find(v: string)
      requires Inv(View())
      modifies this
      ensures Inv(View()) && View() == Next(old(View()), Adopt(v))
    {
      AdoptKeeps(View(), v);
      if v !in lock && v !in running { BeginAdoption(v); }
    }

    // Its container is gone, or something else about it is heard.
    method Hear(v: string, now: Phase, gone: bool)
      requires Inv(View())
      modifies this
      ensures Inv(View()) && View() == Next(old(View()), if gone then Exit(v, now) else Becomes(v, now))
    {
      NewsKeeps(View(), v, now);
      Note(v, now, gone);
    }

    method Note(v: string, now: Phase, gone: bool)
      modifies `phase, `running
      ensures View() == InPhase(old(View()), v, now).(running := old(running) - if gone then {v} else {})
    {
      phase := phase[v := now];
      if gone { running := running - {v}; }
    }

    // An attempt goes on from where it waited.
    method RunAttempt(step: Step)
      requires Inv(View()) && !IsOfAServer(step)
      modifies this
      ensures Inv(View()) && View() == Next(old(View()), step)
    {
      NextKeeps(View(), step);
      match step {
        case StopEnds(a) => if a < |attempts| && attempts[a].stage.Ending? { EndStop(a); }
        case Checks(a, ok) =>
          if a < |attempts| && attempts[a].stage.Checking? {
            CheckedStart(a, ok);
          } else if a < |attempts| && attempts[a].stage.Rechecking? {
            CheckedQueued(a, ok);
          }
        case LaunchEnds(a, ok) => if a < |attempts| && IsLaunching(attempts[a]) { EndLaunch(a, ok); }
        case Resume(a) =>
          if a < |attempts| && MayResume(attempts[a]) { ResumeQueued(a); }
        case GetLock(a) =>
          if a < |attempts| && attempts[a].stage.Locking? && attempts[a].server !in lock { LockQueued(a); }
        case HoldEnds(a) => if a < |attempts| && attempts[a].stage.Holding? { EndHold(a); }
        case AdoptEnds(a, ok) => if a < |attempts| && attempts[a].stage.Adopting? { EndAdoption(a, ok); }
        case _ =>
      }
    }

    // Whatever comes next on the node's loop.
    method Run(step: Step)
      requires Inv(View())
      modifies this
      ensures Inv(View()) && View() == Next(old(View()), step)
    {
      match step {
        case PowerStart(v) => AskStart(v);
        case PowerStop(v, again) => AskStop(v, again);
        case Restore(v, again) => AskRestore(v, again);
        case Delete(v) => Forget(v);
        case Adopt(v) => Find(v);
        case Exit(v, now) => Hear(v, now, true);
        case Becomes(v, now) => Hear(v, now, false);
        case _ => RunAttempt(step);
      }
    }
  }

  // The servers' locks, each with the line of those who wait for it.
  class Locks {
    const boot: Supervisor
    var doors: map<string, seq<Wait>>

    function Value(): Node
      reads this, boot
    {
      Node(boot.View(), doors)
    }

    constructor (boot: Supervisor)
      ensures this.boot == boot && doors == map[]
    {
      this.boot := boot;
      doors := map[];
    }

    method Wait(v: string, what: BootDoors.Wait)
      modifies this
      ensures Value() == Joins(old(Value()), v, what)
    {
      doors := doors[v := Door(Value(), v) + [what]];
    }

    // Somebody asks for a server's lock.
    method Request(v: string, what: BootDoors.Wait)
      requires Inv(boot.View())
      modifies this, boot
      ensures Inv(boot.View()) && Value() == Happens(old(Value()), Ask(v, what))
    {
      if what.ForQueued? { return; }
      if IsOpen(Value(), v) { boot.Run(StepOf(v, what)); } else { Wait(v, what); }
    }

    // The lock is free, and comes to the first in line.
    method Serve(v: string)
      requires Inv(boot.View())
      modifies this, boot
      ensures Inv(boot.View()) && Value() == Happens(old(Value()), Turn(v))
    {
      var line := Door(Value(), v);
      if v in boot.lock || line == [] { return; }
      doors := doors[v := line[1..]];
      boot.Run(StepOf(v, line[0]));
    }

    // `_start_queued`, from its beginning or its wait for a slot, through the lock if it
    // is free.
    method ResumeStart(a: nat)
      requires Inv(boot.View())
      modifies this, boot
      ensures Inv(boot.View()) && Value() == Happens(old(Value()), Go(Resume(a)))
    {
      var before := boot.View();
      boot.Run(Resume(a));
      var after := boot.View();
      if !LeavesQueue(before, after, a) { return; }
      if IsOpen(Value(), after.attempts[a].server) {
        boot.Run(GetLock(a));
      } else {
        Wait(after.attempts[a].server, ForQueued(a));
      }
    }

    // Whatever comes next on the node's loop.
    method Run(e: Event)
      requires Inv(boot.View())
      modifies this, boot
      ensures Inv(boot.View()) && Value() == Happens(old(Value()), e)
    {
      match e {
        case Ask(v, what) => Request(v, what);
        case Turn(v) => Serve(v);
        case Go(step) =>
          if step.Resume? {
            ResumeStart(step.a);
          } else if !NeedsLock(step) && (!step.Adopt? || IsOpen(Value(), step.v)) {
            boot.Run(step);
          }
      }
    }
  }
}
