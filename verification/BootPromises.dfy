// What the boot slots promise over every run, and what they do not: no slot is
// lost, each is given back once, the queue is first come first served, and what a
// stop reaches.

module BootPromises {
  import opened Prelude
  import opened BootQueue

  // --- conservation ---------------------------------------------------------------------

  function Held(xs: seq<Attempt>): nat {
    if xs == [] then 0 else Held(xs[..|xs| - 1]) + (if HoldsSlot(xs[|xs| - 1]) then 1 else 0)
  }

  function Weight(x: Attempt): nat { if HoldsSlot(x) then 1 else 0 }

  lemma {:induction false} HeldPut(xs: seq<Attempt>, a: nat, x: Attempt)
    requires a < |xs|
    ensures Held(xs[a := x]) + Weight(xs[a]) == Held(xs) + Weight(x)
  {
    var init := xs[..|xs| - 1];
    if a < |init| {
      HeldPut(init, a, x);
      assert xs[a := x][..|xs| - 1] == init[a := x];
    } else {
      assert xs[a := x][..|xs| - 1] == init;
    }
  }

  lemma HeldAppend(xs: seq<Attempt>, x: Attempt)
    ensures Held(xs + [x]) == Held(xs) + Weight(x)
  {
    assert (xs + [x])[..|xs|] == xs;
  }

  function Slots(s: State): nat { s.free + Held(s.attempts) }

  // No slot appears or goes; and what was cancelled stays cancelled.
  ghost predicate Conserves(s: State, t: State) {
    && Slots(t) == Slots(s)
    && |s.attempts| <= |t.attempts|
    && forall a :: 0 <= a < |s.attempts| && s.attempts[a].cancelled ==> t.attempts[a].cancelled
  }

  // One attempt moves on, with what it holds.
  lemma MoveConserves(s: State, t: State, a: nat)
    requires a < |s.attempts| == |t.attempts| && t.attempts == s.attempts[a := t.attempts[a]]
    requires t.free + Weight(t.attempts[a]) == s.free + Weight(s.attempts[a])
    requires s.attempts[a].cancelled ==> t.attempts[a].cancelled
    ensures Conserves(s, t)
  {
    HeldPut(s.attempts, a, t.attempts[a]);
  }

  lemma WokenConserves(s: State)
    requires LineStands(s) && s.free > 0
    ensures Conserves(s, Woken(s))
  {
    if s.line != [] { MoveConserves(s, Woken(s), s.line[0]); }
  }

  lemma SlotBackConserves(s: State, t: State, a: nat)
    requires Core(s) && GivesUp(s, t, a)
    ensures LineStands(t) && Conserves(s, Passed(t))
  {
    SlotBackMoves(s, t, a);
    var u := t.(free := t.free + 1);
    MoveConserves(s, u, a);
    WokenConserves(u);
  }

  lemma StartConserves(s: State, a: nat, ok: bool)
    requires a < |s.attempts| && s.attempts[a].stage.Checking?
    ensures Conserves(s, StartChecked(s, a, ok))
  {
    if ok && !Locked(s) {
      MoveConserves(s, StartChecked(s, a, ok), a);
    } else {
      MoveConserves(s, Left(s, a), a);
      HeldAppend(Left(s, a).attempts, Attempt(s.attempts[a].server, Created, 0, 0, 0, false, None));
    }
  }

  lemma LaunchConserves(s: State, a: nat, ok: bool)
    requires Core(s) && a < |s.attempts| && IsLaunching(s.attempts[a])
    ensures Conserves(s, LaunchEnded(s, a, ok))
  {
    if ok {
      MoveConserves(s, LaunchEnded(s, a, ok), a);
    } else {
      SlotBackConserves(s, Unlocked(GaveBack(s, a), s.attempts[a].server), a);
    }
  }

  lemma RecheckConserves(s: State, a: nat, ok: bool)
    requires Core(s) && a < |s.attempts| && s.attempts[a].stage.Rechecking?
    ensures Conserves(s, Rechecked(s, a, ok))
  {
    if ok {
      MoveConserves(s, Rechecked(s, a, ok), a);
    } else {
      SlotBackConserves(s, Unlocked(GaveBack(s, a), s.attempts[a].server), a);
    }
  }

  lemma GrantedConserves(s: State, a: nat)
    requires LineStands(s) && a < |s.attempts| && s.attempts[a].stage.Granted?
    ensures Conserves(s, Resumed(s, a))
  {
    var t := Unqueued(Moved(s, a, Locking), s.attempts[a].server);
    MoveConserves(s, t, a);
    if s.free > 0 { WokenConserves(t); }
  }

  lemma ResumedConserves(s: State, a: nat)
    requires Core(s) && a < |s.attempts|
    ensures Conserves(s, Resumed(s, a))
  {
    var x := s.attempts[a];
    if x.stage.Created? {
      MoveConserves(s, Resumed(s, a), a);
    } else if x.stage.Granted? {
      GrantedConserves(s, a);
    } else if x.stage.Revoked? {
      SlotBackConserves(s, GaveBack(s, a), a);
    }
  }

  lemma GotLockConserves(s: State, a: nat)
    requires Core(s) && a < |s.attempts| && s.attempts[a].stage.Locking?
    ensures Conserves(s, GotLock(s, a))
  {
    if Is(s, s.attempts[a].server, InQueue) && s.attempts[a].server !in s.running {
      MoveConserves(s, GotLock(s, a), a);
    } else {
      SlotBackConserves(s, GaveBack(s, a), a);
    }
  }

  lemma EnterConserves(s: State, v: string, stage: Stage)
    requires stage.Ending? || stage.Adopting?
    ensures Conserves(s, Entered(s, v, stage))
  {
    HeldAppend(s.attempts, Attempt(v, stage, 0, 0, 0, false, None));
  }

  lemma HoldConserves(s: State, a: nat)
    requires Core(s) && a < |s.attempts| && s.attempts[a].stage.Holding?
    ensures Conserves(s, Released(s, a))
  {
    SlotBackConserves(s, GaveBack(s, a), a);
  }

  lemma CancelConserves(s: State, v: string)
    requires Core(s) && v in s.queued
    ensures Conserves(s, Cancelled(s, v))
  {
    MoveConserves(s, Cancelled(s, v), s.queued[v]);
  }

  lemma AdoptedConserves(s: State, a: nat, ok: bool)
    requires a < |s.attempts| && s.attempts[a].stage.Adopting?
    ensures Conserves(s, Adopted(s, a, ok))
  {
    MoveConserves(s, Adopted(s, a, ok), a);
  }

  lemma StopConserves(s: State, v: string, again: bool)
    requires Core(s) && v !in s.lock
    ensures Conserves(s, StopBegun(s, v, again))
  {
    if v in s.queued {
      var t := InPhase(Cancelled(s, v), v, Offline);
      CancelConserves(s, v);
      StopEntersConserves(t, v, again);
      Conserved(s, t, StopBegun(s, v, again));
    } else if v in s.running {
      EnterConserves(s, v, Ending(again));
    } else {
      StopEntersConserves(s, v, again);
    }
  }

  lemma Conserved(s: State, t: State, u: State)
    requires Conserves(s, t) && Conserves(t, u)
    ensures Conserves(s, u)
  {}

  lemma StopEntersConserves(s: State, v: string, again: bool)
    ensures Conserves(s, StopEnded(Entered(s, v, Ending(again)), |s.attempts|))
  {
    var t := Entered(s, v, Ending(again));
    EnterConserves(s, v, Ending(again));
    StopEndConserves(t, |s.attempts|);
    Conserved(s, t, StopEnded(t, |s.attempts|));
  }

  lemma StopEndConserves(s: State, a: nat)
    requires a < |s.attempts| && s.attempts[a].stage.Ending?
    ensures Conserves(s, StopEnded(s, a))
  {
    MoveConserves(s, StopEnded(s, a), a);
  }

  lemma PowerStartConserves(s: State, v: string)
    requires Inv(s)
    ensures Conserves(s, Next(s, PowerStart(v)))
  {
    if v !in s.lock { StopEntersConserves(s, v, true); }
  }

  lemma PowerStopConserves(s: State, v: string, again: bool)
    requires Inv(s)
    ensures Conserves(s, Next(s, PowerStop(v, again)))
  {
    if v !in s.lock { StopConserves(s, v, again); }
  }

  lemma RestoreConserves(s: State, v: string, again: bool)
    requires Inv(s)
    ensures Conserves(s, Next(s, Restore(v, again)))
  {
    if v !in s.lock {
      if v in s.running { StopConserves(s, v, again); } else { EnterConserves(s, v, Ending(false)); }
    }
  }

  lemma StopEndsConserves(s: State, a: nat)
    requires Inv(s)
    ensures Conserves(s, Next(s, StopEnds(a)))
  {
    if a < |s.attempts| && s.attempts[a].stage.Ending? { StopEndConserves(s, a); }
  }

  lemma ChecksConserves(s: State, a: nat, ok: bool)
    requires Inv(s)
    ensures Conserves(s, Next(s, Checks(a, ok)))
  {
    if a < |s.attempts| && s.attempts[a].stage.Checking? {
      StartConserves(s, a, ok);
    } else if a < |s.attempts| && s.attempts[a].stage.Rechecking? {
      RecheckConserves(s, a, ok);
    }
  }

  lemma LaunchEndsConserves(s: State, a: nat, ok: bool)
    requires Inv(s)
    ensures Conserves(s, Next(s, LaunchEnds(a, ok)))
  {
    if a < |s.attempts| && IsLaunching(s.attempts[a]) { LaunchConserves(s, a, ok); }
  }

  lemma ResumeConserves(s: State, a: nat)
    requires Inv(s)
    ensures Conserves(s, Next(s, Resume(a)))
  {
    if a < |s.attempts| { ResumedConserves(s, a); }
  }

  lemma GetLockConserves(s: State, a: nat)
    requires Inv(s)
    ensures Conserves(s, Next(s, GetLock(a)))
  {
    if a < |s.attempts| && s.attempts[a].stage.Locking? { GotLockConserves(s, a); }
  }

  lemma HoldEndsConserves(s: State, a: nat)
    requires Inv(s)
    ensures Conserves(s, Next(s, HoldEnds(a)))
  {
    if a < |s.attempts| && s.attempts[a].stage.Holding? { HoldConserves(s, a); }
  }

  lemma DeleteConserves(s: State, v: string)
    requires Inv(s)
    ensures Conserves(s, Next(s, Delete(v)))
  {
    if v in s.queued { CancelConserves(s, v); }
  }

  lemma AdoptConserves(s: State, v: string)
    requires Inv(s)
    ensures Conserves(s, Next(s, Adopt(v)))
  {
    if v !in s.lock && v !in s.running { EnterConserves(s, v, Adopting); }
  }

  lemma AdoptEndsConserves(s: State, a: nat, ok: bool)
    requires Inv(s)
    ensures Conserves(s, Next(s, AdoptEnds(a, ok)))
  {
    if a < |s.attempts| && s.attempts[a].stage.Adopting? { AdoptedConserves(s, a, ok); }
  }

  lemma NextConserves(s: State, step: Step)
    requires Inv(s)
    ensures Conserves(s, Next(s, step))
  {
    match step {
      case PowerStart(v) => PowerStartConserves(s, v);
      case PowerStop(v, again) => PowerStopConserves(s, v, again);
      case Restore(v, again) => RestoreConserves(s, v, again);
      case StopEnds(a) => StopEndsConserves(s, a);
      case Checks(a, ok) => ChecksConserves(s, a, ok);
      case LaunchEnds(a, ok) => LaunchEndsConserves(s, a, ok);
      case Resume(a) => ResumeConserves(s, a);
      case GetLock(a) => GetLockConserves(s, a);
      case HoldEnds(a) => HoldEndsConserves(s, a);
      case Delete(v) => DeleteConserves(s, v);
      case Adopt(v) => AdoptConserves(s, v);
      case AdoptEnds(a, ok) => AdoptEndsConserves(s, a, ok);
      case Exit(v, phase) =>
      case Becomes(v, phase) =>
    }
  }

  // --- over every run ------------------------------------------------------------------

  // Free slots and held slots always add up to the node's setting.
  lemma {:induction false} NoSlotIsLost(slots: nat, steps: seq<Step>)
    ensures Slots(After(slots, steps)) == slots
  {
    if steps != [] {
      NoSlotIsLost(slots, steps[..|steps| - 1]);
      NextConserves(After(slots, steps[..|steps| - 1]), steps[|steps| - 1]);
    }
  }

  // However starts, stops, failures and timeouts interleave: an attempt that is
  // over has given back exactly what it took, one that is not has given back
  // nothing, nobody takes two, and a launch happens once, with a slot.
  lemma EveryAcquireIsReleasedOnce(slots: nat, steps: seq<Step>, a: nat)
    requires a < |After(slots, steps).attempts|
    ensures var x := After(slots, steps).attempts[a];
      && x.released <= x.acquired <= 1
      && (x.stage.Over? ==> x.released == x.acquired)
      && (!x.stage.Over? ==> x.released == 0)
      && (x.acquired - x.released == 1 <==> HoldsSlot(x))
      && x.launched <= x.acquired
  {
    assert Proper(After(slots, steps).attempts[a]);
  }

  lemma LaunchesHold(xs: seq<Attempt>)
    ensures LaunchCount(xs) <= Held(xs)
  {}

  function LaunchCount(xs: seq<Attempt>): nat {
    if xs == [] then 0 else LaunchCount(xs[..|xs| - 1]) + (if IsLaunching(xs[|xs| - 1]) then 1 else 0)
  }

  // Never more container starts in flight than slots, and never two of one server.
  lemma LaunchesAreBounded(slots: nat, steps: seq<Step>, a: nat, b: nat)
    requires a < b < |After(slots, steps).attempts|
    ensures LaunchCount(After(slots, steps).attempts) <= slots
    ensures var xs := After(slots, steps).attempts;
      IsLaunching(xs[a]) && IsLaunching(xs[b]) ==> xs[a].server != xs[b].server
  {
    NoSlotIsLost(slots, steps);
    LaunchesHold(After(slots, steps).attempts);
    var xs := After(slots, steps).attempts;
    assert IsLaunching(xs[a]) ==> HoldsLock(xs[a]);
    assert IsLaunching(xs[b]) ==> HoldsLock(xs[b]);
  }

  // First come, first served: while somebody waits, nobody who joined the line
  // later has had a slot.
  lemma NobodyOvertakes(slots: nat, steps: seq<Step>, early: nat, late: nat)
    requires early < |After(slots, steps).attempts| && late < |After(slots, steps).attempts|
    requires After(slots, steps).attempts[early].stage.Waiting?
    ensures var x, y := After(slots, steps).attempts[early], After(slots, steps).attempts[late];
      x.ticket.Some? && (y.ticket.Some? && x.ticket.value < y.ticket.value ==> y.acquired == 0)
  {
    assert early in After(slots, steps).line;
  }

  // Nobody waits while a slot is free and nobody is about to hand it on.
  lemma NobodyWaitsForNothing(slots: nat, steps: seq<Step>, a: nat)
    requires a < |After(slots, steps).attempts| && After(slots, steps).attempts[a].stage.Waiting?
    ensures After(slots, steps).free == 0 || Handoff(After(slots, steps))
  {
    assert a in After(slots, steps).line;
  }

  // --- what a stop reaches ----------------------------------------------------------------

  ghost predicate IsCancelled(s: State, a: nat) { a < |s.attempts| && s.attempts[a].cancelled }

  lemma StepKeepsCancelled(s: State, step: Step, a: nat)
    requires Inv(s) && IsCancelled(s, a)
    ensures IsCancelled(Next(s, step), a)
  {
    NextConserves(s, step);
  }

  lemma AfterOneMore(slots: nat, steps: seq<Step>, step: Step)
    ensures After(slots, steps + [step]) == Next(After(slots, steps), step)
  {
    assert (steps + [step])[..|steps|] == steps;
  }

  lemma {:induction false} StaysCancelled(slots: nat, steps: seq<Step>, more: seq<Step>, a: nat)
    requires IsCancelled(After(slots, steps), a)
    ensures IsCancelled(After(slots, steps + more), a)
  {
    if more == [] {
      assert steps + more == steps;
    } else {
      var init, step := more[..|more| - 1], more[|more| - 1];
      assert steps + init + [step] == steps + more;
      StaysCancelled(slots, steps, init, a);
      StaysCancelledOnce(slots, steps + init, step, a);
    }
  }

  lemma StaysCancelledOnce(slots: nat, steps: seq<Step>, step: Step, a: nat)
    requires IsCancelled(After(slots, steps), a)
    ensures IsCancelled(After(slots, steps + [step]), a)
  {
    AfterOneMore(slots, steps, step);
    StepKeepsCancelled(After(slots, steps), step, a);
  }

  // A stop of a queued start is final: whatever happens after it, even with the
  // slot already handed over, that start never launches its server.
  lemma StoppedInTheQueueNeverLaunches(slots: nat, steps: seq<Step>, v: string, again: bool, more: seq<Step>)
    requires v in After(slots, steps).queued && v !in After(slots, steps).lock
    ensures var a := After(slots, steps).queued[v];
      var later := After(slots, steps + [PowerStop(v, again)] + more);
      a < |later.attempts| && later.attempts[a].launched == 0
  {
    var s, a := After(slots, steps), After(slots, steps).queued[v];
    var stop := steps + [PowerStop(v, again)];
    AfterOneMore(slots, steps, PowerStop(v, again));
    StopCancels(s, v, again);
    StaysCancelled(slots, stop, more, a);
    assert Proper(After(slots, stop + more).attempts[a]);
  }

  lemma StopCancels(s: State, v: string, again: bool)
    requires Inv(s) && v in s.queued && v !in s.lock
    ensures IsCancelled(Next(s, PowerStop(v, again)), s.queued[v])
  {
    var t := InPhase(Cancelled(s, v), v, Offline);
    assert t.attempts[s.queued[v]].cancelled;
    StopEntersConserves(t, v, again);
  }
}
