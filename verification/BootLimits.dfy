// What the boot slots do not promise, exactly when, and a run that shows it: a stop
// that comes too late, a server that holds two slots, servers starting beyond the
// slots there are.

module BootLimits {
  import opened Prelude
  import opened BootQueue
  import opened BootPromises

  // --- the stop that comes too late -----------------------------------------------------

  // Of the starts of a server that are queued or on their way out of the queue, a
  // stop reaches exactly those still in the queue.
  lemma StopReachesExactlyTheQueued(s: State, v: string, again: bool, a: nat)
    requires Inv(s) && v !in s.lock && a < |s.attempts| && s.attempts[a].server == v
    requires IsPending(s.attempts[a]) || s.attempts[a].stage.Locking?
    ensures a < |Next(s, PowerStop(v, again)).attempts|
    ensures Next(s, PowerStop(v, again)).attempts[a].cancelled <==> IsPending(s.attempts[a])
  {
    if IsPending(s.attempts[a]) {
      StopCancels(s, v, again);
    } else {
      StopPassesBy(s, v, again, a);
    }
  }

  lemma StopPassesBy(s: State, v: string, again: bool, a: nat)
    requires Inv(s) && v !in s.lock && a < |s.attempts| && s.attempts[a].server == v && s.attempts[a].stage.Locking?
    ensures a < |StopBegun(s, v, again).attempts| && StopBegun(s, v, again).attempts[a] == s.attempts[a]
    ensures !s.attempts[a].cancelled
  {
    assert Proper(s.attempts[a]);
    if v in s.queued {
      CancelPassesBy(s, v, a);
      StopOfQueuedPassesBy(s, v, again, a);
    } else {
      EndPassesBy(Entered(s, v, Ending(again)), |s.attempts|, a);
    }
  }

  lemma CancelPassesBy(s: State, v: string, a: nat)
    requires QueueStands(s) && v in s.queued && a < |s.attempts| && s.attempts[a].stage.Locking?
    ensures |Cancelled(s, v).attempts| == |s.attempts| && Cancelled(s, v).attempts[a] == s.attempts[a]
  {}

  lemma EndPassesBy(s: State, b: nat, a: nat)
    requires a < |s.attempts| && b < |s.attempts| && a != b && s.attempts[b].stage.Ending?
    ensures |StopEnded(s, b).attempts| == |s.attempts| && StopEnded(s, b).attempts[a] == s.attempts[a]
  {}

  lemma StopOfQueuedPassesBy(s: State, v: string, again: bool, a: nat)
    requires v in s.queued && s.queued[v] < |s.attempts|
    requires a < |s.attempts| == |Cancelled(s, v).attempts| && Cancelled(s, v).attempts[a] == s.attempts[a]
    ensures a < |StopBegun(s, v, again).attempts| && StopBegun(s, v, again).attempts[a] == s.attempts[a]
  {
    var t := InPhase(Cancelled(s, v), v, Offline);
    EndPassesBy(Entered(t, v, Ending(again)), |t.attempts|, a);
  }

  // A stop that comes once the start is out of `queued` (waiting for the server's
  // lock, say) changes nothing at all but for its own coming and going.
  lemma StopTooLate(s: State, v: string)
    requires Inv(s) && v !in s.lock && v !in s.queued && v !in s.running
    ensures var t := Next(s, PowerStop(v, false));
      && t == s.(attempts := t.attempts)
      && t.attempts == s.attempts + [Attempt(v, Over, 0, 0, 0, false, None)]
  {
    assert s.lock[v := |s.attempts|] - {v} == s.lock;
  }

  // So the start it meant to stop still launches, once it gets the lock and its
  // checks pass.
  lemma StartOutlivesTheStop(s: State, v: string, a: nat)
    requires Inv(s) && v !in s.lock && v !in s.queued && v !in s.running && Is(s, v, InQueue)
    requires a < |s.attempts| && s.attempts[a].server == v && s.attempts[a].stage.Locking?
    ensures var t := Next(s, PowerStop(v, false));
      && Inv(t) && Inv(Next(t, GetLock(a)))
      && var u := Next(Next(t, GetLock(a)), Checks(a, true));
      && a < |u.attempts| && u.attempts[a].launched == 1
  {
    NextKeeps(s, PowerStop(v, false));
    StopTooLate(s, v);
    NextKeeps(Next(s, PowerStop(v, false)), GetLock(a));
    assert Proper(s.attempts[a]);
  }

  predicate HoldsFor(s: State, a: nat, v: string) {
    a < |s.attempts| && s.attempts[a].server == v && s.attempts[a].stage.Holding?
  }

  lemma RestartWaits(s: State, v: string)
    requires Inv(s) && v !in s.lock && v !in s.queued && v in s.running
    ensures var stopping := StopBegun(s, v, true);
      && Inv(stopping) && stopping.free == s.free && stopping.queued == s.queued
      && stopping.attempts == s.attempts + [Attempt(v, Ending(true), 0, 0, 0, false, None)]
  {
    StopBegunKeeps(s, v, true);
  }

  lemma ExitKeeps(s: State, v: string)
    requires Inv(s)
    ensures Inv(Next(s, Exit(v, Offline))) && Next(s, Exit(v, Offline)) == Gone(s, v)
  {
    NextKeeps(s, Exit(v, Offline));
  }

  function Gone(s: State, v: string): State { InPhase(s, v, Offline).(running := s.running - {v}) }

  lemma RestartGoesOn(s: State, v: string, b: nat)
    requires Inv(s) && b < |s.attempts| && s.attempts[b].stage == Ending(true) && s.attempts[b].server == v
    requires v !in s.queued
    ensures var again := StopEnded(Gone(s, v), b);
      && Inv(again) && again.free == s.free
      && again.attempts == s.attempts[b := s.attempts[b].(stage := Checking)]
  {
    ExitKeeps(s, v);
    StopEndedKeeps(Gone(s, v), b);
  }

  lemma ChecksGetToTheirHold(s: State, v: string, b: nat)
    requires Inv(s) && b < |s.attempts| && s.attempts[b].stage.Checking? && s.attempts[b].server == v && !Locked(s)
    ensures var launching := StartChecked(s, b, true);
      && LineStands(launching) && IsLaunching(launching.attempts[b])
      && var up := LaunchEnded(launching, b, true);
      && HoldsFor(up, b, v)
      && forall a :: 0 <= a < |s.attempts| && a != b ==> a < |up.attempts| && up.attempts[a] == s.attempts[a]
  {
    StartCheckedKeeps(s, b, true);
  }

  lemma StillNotLocked(s: State, t: State)
    requires !Locked(s) && t.free == s.free
    requires |t.attempts| == |s.attempts| + 1 && t.attempts[..|s.attempts|] == s.attempts
    requires t.attempts[|s.attempts|].stage.Checking?
    ensures !Locked(t)
  {
    forall a | 0 <= a < |s.attempts|
      ensures t.attempts[a] == s.attempts[a]
    {
      assert t.attempts[..|s.attempts|][a] == s.attempts[a];
    }
  }

  // A quick restart holds two slots for one server: the hold of the first start
  // looks only every quarter of a second, and finds the server starting again. Five
  // stretches do it: the stop, the exit, the start after it, its checks, its launch.
  lemma TwoSlotsForOneServer(s: State, v: string, a: nat)
    requires Inv(s) && v !in s.lock && v !in s.queued && v in s.running && !Locked(s) && HoldsFor(s, a, v)
    ensures var b := |s.attempts|;
      && var stopping := StopBegun(s, v, true);
      && b < |stopping.attempts| && stopping.attempts[b].stage.Ending?
      && var again := StopEnded(Gone(stopping, v), b);
      && var launching := StartChecked(again, b, true);
      && LineStands(launching) && IsLaunching(launching.attempts[b])
      && var up := LaunchEnded(launching, b, true);
      && HoldsFor(up, a, v) && HoldsFor(up, b, v)
  {
    var b, stopping := |s.attempts|, StopBegun(s, v, true);
    RestartWaits(s, v);
    RestartGoesOn(stopping, v, b);
    var again := StopEnded(Gone(stopping, v), b);
    assert again.attempts[..b] == s.attempts;
    StillNotLocked(s, again);
    ChecksGetToTheirHold(again, v, b);
    assert again.attempts[a] == s.attempts[a];
  }

  // --- two holds of one server -------------------------------------------------------------

  // On its way to a hold, or in one.
  predicate Starts(x: Attempt) {
    || x.stage.Checking? || x.stage.Rechecking? || IsLaunching(x) || x.stage.Adopting? || x.stage.Holding?
  }

  // A hold of the server, if any, is of a running server and the only start of it.
  ghost predicate HoldOnly(s: State, v: string) {
    forall a :: HoldsFor(s, a, v) ==> v in s.running && OnlyStart(s, a, v)
  }

  ghost predicate OnlyStart(s: State, a: nat, v: string) {
    forall b :: 0 <= b < |s.attempts| && b != a && s.attempts[b].server == v ==> !Starts(s.attempts[b])
  }

  ghost predicate HasHold(s: State, v: string) { exists a :: HoldsFor(s, a, v) }

  // One attempt moves on; nobody else gets nearer to a hold.
  ghost predicate OneNearer(s: State, t: State, a: nat, v: string) {
    && a < |s.attempts| <= |t.attempts|
    && (forall b :: 0 <= b < |t.attempts| && b != a && Starts(t.attempts[b]) ==>
          b < |s.attempts| && t.attempts[b] == s.attempts[b])
    && (v in s.running ==> v in t.running)
    && var x, y := s.attempts[a], t.attempts[a];
    && y.server == x.server
    && (y.server == v && Starts(y) ==> Starts(x) || v !in s.running)
    && (y.server == v && y.stage.Holding? ==> Starts(x) && v in t.running)
  }

  lemma OneNearerKeeps(s: State, t: State, a: nat, v: string)
    requires LockInv(s) && HoldOnly(s, v) && OneNearer(s, t, a, v)
    ensures HoldOnly(t, v)
  {
    forall p | HoldsFor(t, p, v)
      ensures v in t.running && OnlyStart(t, p, v)
    {
      assert p != a ==> HoldsFor(s, p, v);
      forall q | 0 <= q < |t.attempts| && q != p && t.attempts[q].server == v
        ensures !Starts(t.attempts[q])
      {
        NoOtherStart(s, t, a, v, p, q);
      }
    }
  }

  lemma NoOtherStart(s: State, t: State, a: nat, v: string, p: nat, q: nat)
    requires LockInv(s) && HoldOnly(s, v) && OneNearer(s, t, a, v)
    requires HoldsFor(t, p, v) && q < |t.attempts| && q != p && t.attempts[q].server == v
    ensures !Starts(t.attempts[q])
  {
    if p != a {
      assert HoldsFor(s, p, v);
      assert OnlyStart(s, p, v);
    } else if q < |s.attempts| && s.attempts[q].server == v {
      OneStart(s, v, a, q);
    }
  }

  lemma OneStart(s: State, v: string, a: nat, q: nat)
    requires LockInv(s) && HoldOnly(s, v) && a < |s.attempts| && q < |s.attempts| && a != q
    requires s.attempts[a].server == v && s.attempts[q].server == v && Starts(s.attempts[a])
    ensures !Starts(s.attempts[q])
  {
    assert HoldsFor(s, q, v) ==> OnlyStart(s, q, v);
    assert HoldsFor(s, a, v) ==> OnlyStart(s, a, v);
  }

  // Nobody gets nearer.
  lemma NobodyNearerKeeps(s: State, t: State, v: string)
    requires HoldOnly(s, v) && (v in s.running ==> v in t.running || !HasHold(s, v))
    requires forall b :: 0 <= b < |t.attempts| && Starts(t.attempts[b]) ==>
      b < |s.attempts| && t.attempts[b] == s.attempts[b]
    ensures HoldOnly(t, v)
  {
    forall p | HoldsFor(t, p, v)
      ensures v in t.running && OnlyStart(t, p, v)
    {
      assert HoldsFor(s, p, v);
      assert OnlyStart(s, p, v);
    }
  }

  lemma EndedIsNearer(s: State, a: nat, v: string)
    requires Inv(s) && HoldOnly(s, v) && a < |s.attempts| && s.attempts[a].stage.Ending?
    ensures HoldOnly(StopEnded(s, a), v)
  {
    OneNearerKeeps(s, StopEnded(s, a), a, v);
  }

  lemma EnteredHolds(s: State, u: string, stage: Stage, v: string)
    requires HoldOnly(s, v) && stage.Ending?
    ensures HoldOnly(Entered(s, u, stage), v)
  {
    NobodyNearerKeeps(s, Entered(s, u, stage), v);
  }

  // One attempt moves, and is no start afterwards.
  lemma OneFurtherKeeps(s: State, t: State, a: nat, v: string)
    requires HoldOnly(s, v) && a < |s.attempts| == |t.attempts| && t.running == s.running
    requires t.attempts == s.attempts[a := t.attempts[a]] && !Starts(t.attempts[a])
    ensures HoldOnly(t, v)
  {
    NobodyNearerKeeps(s, t, v);
  }

  lemma CancelHolds(s: State, u: string, v: string)
    requires Inv(s) && HoldOnly(s, v) && u in s.queued
    ensures HoldOnly(Cancelled(s, u), v)
  {
    StruckStartsNot(s, s.queued[u]);
    OneFurtherKeeps(s, Struck(s, s.queued[u]), s.queued[u], v);
    AppliesElsewhere(Struck(s, s.queued[u]), Cancelled(s, u), v);
  }

  lemma StruckStartsNot(s: State, a: nat)
    requires a < |s.attempts| && IsPending(s.attempts[a])
    ensures var t := Struck(s, a);
      && |t.attempts| == |s.attempts| && t.attempts == s.attempts[a := t.attempts[a]] && !Starts(t.attempts[a])
      && t.running == s.running
  {}

  lemma StopHolds(s: State, u: string, again: bool, v: string)
    requires Inv(s) && HoldOnly(s, v) && u !in s.lock
    ensures HoldOnly(StopBegun(s, u, again), v)
  {
    if u in s.queued {
      var t := InPhase(Cancelled(s, u), u, Offline);
      CancelledKeeps(s, u);
      OtherFields(Cancelled(s, u), t);
      CancelHolds(s, u, v);
      AppliesElsewhere(Cancelled(s, u), t, v);
      StopEntersHold(t, u, again, v);
    } else if u in s.running {
      EnteredHolds(s, u, Ending(again), v);
      AppliesElsewhere(Entered(s, u, Ending(again)), StopBegun(s, u, again), v);
    } else {
      StopEntersHold(s, u, again, v);
    }
  }

  lemma StopEntersHold(s: State, u: string, again: bool, v: string)
    requires Inv(s) && HoldOnly(s, v) && u !in s.lock
    ensures HoldOnly(StopEnded(Entered(s, u, Ending(again)), |s.attempts|), v)
  {
    EnteredHolds(s, u, Ending(again), v);
    EnteredKeeps(s, u, Ending(again));
    EndedIsNearer(Entered(s, u, Ending(again)), |s.attempts|, v);
  }

  lemma ChecksHold(s: State, a: nat, ok: bool, v: string)
    requires Inv(s) && HoldOnly(s, v) && a < |s.attempts| && s.attempts[a].stage.Checking?
    ensures HoldOnly(StartChecked(s, a, ok), v)
  {
    if ok && !Locked(s) {
      OneNearerKeeps(s, StartChecked(s, a, ok), a, v);
    } else {
      OneFurtherKeeps(s, Left(s, a), a, v);
      EnqueuedHolds(Left(s, a), s.attempts[a].server, v);
    }
  }

  lemma EnqueuedHolds(s: State, u: string, v: string)
    requires HoldOnly(s, v)
    ensures HoldOnly(InPhase(Enqueued(s, u), u, InQueue), v)
  {
    NobodyNearerKeeps(s, InPhase(Enqueued(s, u), u, InQueue), v);
  }

  // A slot given back and passed on.
  lemma PassedHolds(s: State, t: State, a: nat, v: string)
    requires HoldOnly(s, v) && LineStands(s) && a < |s.attempts| && HoldsSlot(s.attempts[a])
    requires t.attempts == GaveBack(s, a).attempts && t.line == s.line && t.running == s.running
    ensures LineStands(t) && HoldOnly(Passed(t), v)
  {
    OneFurtherKeeps(s, t, a, v);
    AppliesElsewhere(t, t.(free := t.free + 1), v);
    WokenHolds(t.(free := t.free + 1), v);
  }

  lemma WokenHolds(s: State, v: string)
    requires HoldOnly(s, v) && LineStands(s) && s.free > 0
    ensures HoldOnly(Woken(s), v)
  {
    if s.line != [] { OneFurtherKeeps(s, Woken(s), s.line[0], v); }
  }

  lemma AppliesElsewhere(s: State, t: State, v: string)
    requires HoldOnly(s, v) && t.attempts == s.attempts && t.running == s.running
    ensures HoldOnly(t, v)
  {
    NobodyNearerKeeps(s, t, v);
  }

  lemma RechecksHold(s: State, a: nat, ok: bool, v: string)
    requires Inv(s) && HoldOnly(s, v) && a < |s.attempts| && s.attempts[a].stage.Rechecking?
    ensures HoldOnly(Rechecked(s, a, ok), v)
  {
    if ok {
      OneNearerKeeps(s, Rechecked(s, a, ok), a, v);
    } else {
      var t := Unlocked(GaveBack(s, a), s.attempts[a].server);
      PassedHolds(s, t, a, v);
      AppliesElsewhere(Passed(t), Rechecked(s, a, ok), v);
    }
  }

  lemma LaunchHolds(s: State, a: nat, ok: bool, v: string)
    requires Inv(s) && HoldOnly(s, v) && a < |s.attempts| && IsLaunching(s.attempts[a])
    ensures HoldOnly(LaunchEnded(s, a, ok), v)
  {
    if ok {
      OneNearerKeeps(s, LaunchEnded(s, a, ok), a, v);
    } else {
      var t := Unlocked(GaveBack(s, a), s.attempts[a].server);
      PassedHolds(s, t, a, v);
      AppliesElsewhere(Passed(t), LaunchEnded(s, a, ok), v);
    }
  }

  lemma ResumedHolds(s: State, a: nat, v: string)
    requires Inv(s) && HoldOnly(s, v) && a < |s.attempts|
    ensures HoldOnly(Resumed(s, a), v)
  {
    if s.attempts[a].stage.Created? {
      OneFurtherKeeps(s, Resumed(s, a), a, v);
    } else if s.attempts[a].stage.Granted? {
      GrantedHolds(s, a, v);
    } else if s.attempts[a].stage.Revoked? {
      PassedHolds(s, GaveBack(s, a), a, v);
    }
  }

  lemma GrantedHolds(s: State, a: nat, v: string)
    requires LineStands(s) && HoldOnly(s, v) && a < |s.attempts| && s.attempts[a].stage.Granted?
    ensures HoldOnly(Resumed(s, a), v)
  {
    var t := Unqueued(Moved(s, a, Locking), s.attempts[a].server);
    OneFurtherKeeps(s, t, a, v);
    if s.free > 0 { WokenHolds(t, v); }
  }

  lemma LockHolds(s: State, a: nat, v: string)
    requires Inv(s) && HoldOnly(s, v) && a < |s.attempts| && s.attempts[a].stage.Locking?
    ensures HoldOnly(GotLock(s, a), v)
  {
    if Is(s, s.attempts[a].server, InQueue) && s.attempts[a].server !in s.running {
      OneNearerKeeps(s, GotLock(s, a), a, v);
    } else {
      PassedHolds(s, GaveBack(s, a), a, v);
    }
  }

  lemma AdoptingHolds(s: State, u: string, v: string)
    requires Inv(s) && HoldOnly(s, v) && u !in s.lock && u !in s.running
    ensures HoldOnly(Next(s, Adopt(u)), v)
  {
    var t := Next(s, Adopt(u));
    forall p | HoldsFor(t, p, v)
      ensures v in t.running && OnlyStart(t, p, v)
    {
      assert HoldsFor(s, p, v) && OnlyStart(s, p, v);
    }
  }

  lemma AdoptedHolds(s: State, a: nat, ok: bool, v: string)
    requires Inv(s) && HoldOnly(s, v) && a < |s.attempts| && s.attempts[a].stage.Adopting?
    ensures HoldOnly(Adopted(s, a, ok), v)
  {
    OneNearerKeeps(s, Adopted(s, a, ok), a, v);
  }

  lemma PowerStartHolds(s: State, u: string, v: string)
    requires Inv(s) && HoldOnly(s, v)
    ensures HoldOnly(Next(s, PowerStart(u)), v)
  {
    if u !in s.lock { StopEntersHold(s, u, true, v); }
  }

  lemma PowerStopHolds(s: State, u: string, again: bool, v: string)
    requires Inv(s) && HoldOnly(s, v)
    ensures HoldOnly(Next(s, PowerStop(u, again)), v)
  {
    if u !in s.lock { StopHolds(s, u, again, v); }
  }

  lemma RestoreHolds(s: State, u: string, again: bool, v: string)
    requires Inv(s) && HoldOnly(s, v)
    ensures HoldOnly(Next(s, Restore(u, again)), v)
  {
    if u !in s.lock {
      if u in s.running { StopHolds(s, u, again, v); } else { EnteredHolds(s, u, Ending(false), v); }
    }
  }

  lemma StopEndsHolds(s: State, a: nat, v: string)
    requires Inv(s) && HoldOnly(s, v)
    ensures HoldOnly(Next(s, StopEnds(a)), v)
  {
    if a < |s.attempts| && s.attempts[a].stage.Ending? { EndedIsNearer(s, a, v); }
  }

  lemma ChecksHolds(s: State, a: nat, ok: bool, v: string)
    requires Inv(s) && HoldOnly(s, v)
    ensures HoldOnly(Next(s, Checks(a, ok)), v)
  {
    if a < |s.attempts| && s.attempts[a].stage.Checking? {
      ChecksHold(s, a, ok, v);
    } else if a < |s.attempts| && s.attempts[a].stage.Rechecking? {
      RechecksHold(s, a, ok, v);
    }
  }

  lemma LaunchEndsHolds(s: State, a: nat, ok: bool, v: string)
    requires Inv(s) && HoldOnly(s, v)
    ensures HoldOnly(Next(s, LaunchEnds(a, ok)), v)
  {
    if a < |s.attempts| && IsLaunching(s.attempts[a]) { LaunchHolds(s, a, ok, v); }
  }

  lemma ResumeHolds(s: State, a: nat, v: string)
    requires Inv(s) && HoldOnly(s, v)
    ensures HoldOnly(Next(s, Resume(a)), v)
  {
    if a < |s.attempts| { ResumedHolds(s, a, v); }
  }

  lemma GetLockHolds(s: State, a: nat, v: string)
    requires Inv(s) && HoldOnly(s, v)
    ensures HoldOnly(Next(s, GetLock(a)), v)
  {
    if a < |s.attempts| && s.attempts[a].stage.Locking? { LockHolds(s, a, v); }
  }

  lemma HoldEndsHolds(s: State, a: nat, v: string)
    requires Inv(s) && HoldOnly(s, v)
    ensures HoldOnly(Next(s, HoldEnds(a)), v)
  {
    if a < |s.attempts| && s.attempts[a].stage.Holding? { PassedHolds(s, GaveBack(s, a), a, v); }
  }

  lemma DeleteHolds(s: State, u: string, v: string)
    requires Inv(s) && HoldOnly(s, v)
    ensures HoldOnly(Next(s, Delete(u)), v)
  {
    if u in s.queued { CancelHolds(s, u, v); }
  }

  lemma AdoptHolds(s: State, u: string, v: string)
    requires Inv(s) && HoldOnly(s, v)
    ensures HoldOnly(Next(s, Adopt(u)), v)
  {
    if u !in s.lock && u !in s.running { AdoptingHolds(s, u, v); }
  }

  lemma AdoptEndsHolds(s: State, a: nat, ok: bool, v: string)
    requires Inv(s) && HoldOnly(s, v)
    ensures HoldOnly(Next(s, AdoptEnds(a, ok)), v)
  {
    if a < |s.attempts| && s.attempts[a].stage.Adopting? { AdoptedHolds(s, a, ok, v); }
  }

  lemma NewsHolds(s: State, step: Step, v: string)
    requires Inv(s) && HoldOnly(s, v) && (step.Exit? || step.Becomes?)
    requires !(step.Exit? && step.v == v && HasHold(s, v))
    ensures HoldOnly(Next(s, step), v)
  {
    NobodyNearerKeeps(s, Next(s, step), v);
  }

  // Every step but the server's own exit under an open hold keeps to one hold.
  lemma StepHolds(s: State, step: Step, v: string)
    requires Inv(s) && HoldOnly(s, v) && !(step.Exit? && step.v == v && HasHold(s, v))
    ensures HoldOnly(Next(s, step), v)
  {
    match step {
      case PowerStart(u) => PowerStartHolds(s, u, v);
      case PowerStop(u, again) => PowerStopHolds(s, u, again, v);
      case Restore(u, again) => RestoreHolds(s, u, again, v);
      case StopEnds(a) => StopEndsHolds(s, a, v);
      case Checks(a, ok) => ChecksHolds(s, a, ok, v);
      case LaunchEnds(a, ok) => LaunchEndsHolds(s, a, ok, v);
      case Resume(a) => ResumeHolds(s, a, v);
      case GetLock(a) => GetLockHolds(s, a, v);
      case HoldEnds(a) => HoldEndsHolds(s, a, v);
      case Delete(u) => DeleteHolds(s, u, v);
      case Adopt(u) => AdoptHolds(s, u, v);
      case AdoptEnds(a, ok) => AdoptEndsHolds(s, a, ok, v);
      case Exit(u, phase) => NewsHolds(s, step, v);
      case Becomes(u, phase) => NewsHolds(s, step, v);
    }
  }

  // Somewhere in the run the server exits while a hold of it is still open.
  ghost predicate ExitsWhileHeld(slots: nat, steps: seq<Step>, v: string) {
    exists i :: 0 <= i < |steps| && ExitsAt(slots, steps, i, v)
  }

  ghost predicate ExitsAt(slots: nat, steps: seq<Step>, i: nat, v: string)
    requires i < |steps|
  {
    steps[i].Exit? && steps[i].v == v && HasHold(After(slots, steps[..i]), v)
  }

  lemma {:induction false} OneHoldUnlessItExits(slots: nat, steps: seq<Step>, v: string)
    requires !ExitsWhileHeld(slots, steps, v)
    ensures HoldOnly(After(slots, steps), v)
  {
    if steps != [] {
      var init, step := steps[..|steps| - 1], steps[|steps| - 1];
      forall i | 0 <= i < |init|
        ensures !ExitsAt(slots, init, i, v)
      {
        assert init[..i] == steps[..i] && init[i] == steps[i];
        assert !ExitsAt(slots, steps, i, v);
      }
      OneHoldUnlessItExits(slots, init, v);
      assert !ExitsAt(slots, steps, |init|, v);
      StepHolds(After(slots, init), step, v);
    }
  }

  // The other way round: a server that holds two slots at some moment has exited,
  // earlier in the run, under a hold that was still open.
  lemma TwoHoldsNeedAnExitUnderOne(slots: nat, steps: seq<Step>, v: string, a: nat, b: nat)
    requires a != b && HoldsFor(After(slots, steps), a, v) && HoldsFor(After(slots, steps), b, v)
    ensures ExitsWhileHeld(slots, steps, v)
  {
    if !ExitsWhileHeld(slots, steps, v) {
      OneHoldUnlessItExits(slots, steps, v);
      OnlyOneHold(After(slots, steps), v, a, b);
    }
  }

  lemma OnlyOneHold(s: State, v: string, a: nat, b: nat)
    requires HoldOnly(s, v) && HoldsFor(s, a, v) && HoldsFor(s, b, v)
    ensures a == b
  {
    assert OnlyStart(s, a, v);
  }

  // --- runs that show it -----------------------------------------------------------------

  // On one slot: a server launching.
  function OneStarting(u: string): State {
    Start(1).(attempts := [Attempt(u, Checking, 0, 0, 0, false, None)], lock := map[u := 0])
  }

  function OneLaunching(u: string): State {
    OneStarting(u).(free := 0, attempts := [Attempt(u, Launching, 1, 0, 1, false, None)], phase := map[u := Starting])
  }

  lemma Onwards(slots: nat, steps: seq<Step>, step: Step, s: State, t: State)
    requires After(slots, steps) == s && Next(s, step) == t
    ensures After(slots, steps + [step]) == t
  {
    AfterOneMore(slots, steps, step);
  }

  lemma FirstAsks(u: string)
    requires LineStands(Start(1)) && QueueStands(Start(1))
    ensures Next(Start(1), PowerStart(u)) == OneStarting(u)
    ensures LineStands(OneStarting(u)) && QueueStands(OneStarting(u))
  {
    assert StartBegun(Entered(Start(1), u, Ending(true)), 0) == OneStarting(u);
  }

  lemma FirstLaunches(u: string)
    requires LineStands(OneStarting(u)) && QueueStands(OneStarting(u))
    ensures Next(OneStarting(u), Checks(0, true)) == OneLaunching(u)
    ensures LineStands(OneLaunching(u)) && QueueStands(OneLaunching(u))
  {
    assert StartChecked(OneStarting(u), 0, true) == OneLaunching(u);
  }

  function FirstLaunch(u: string): seq<Step> { [] + [PowerStart(u)] + [Checks(0, true)] }

  lemma FirstIsLaunching(slots: nat, u: string)
    requires After(slots, []) == Start(1)
    ensures After(slots, FirstLaunch(u)) == OneLaunching(u)
  {
    FirstAsks(u);
    Onwards(slots, [], PowerStart(u), Start(1), OneStarting(u));
    FirstLaunches(u);
    Onwards(slots, [] + [PowerStart(u)], Checks(0, true), OneStarting(u), OneLaunching(u));
  }

  // On two slots: a server that is up is stopped and up again within one look of
  // its hold, and holds both.
  function Up(v: string): State {
    State(1, [], [Attempt(v, Holding, 1, 0, 1, false, None)], map[], map[], map[v := Starting], {v}, 0, 0)
  }

  function Restarting(v: string): State {
    var s := Up(v);
    s.(attempts := s.attempts + [Attempt(v, Ending(true), 0, 0, 0, false, None)],
       lock := map[v := 1], phase := map[v := Stopping])
  }

  function RestartExited(v: string): State { Restarting(v).(phase := map[v := Offline], running := {}) }

  function RestartChecking(v: string): State {
    var s := RestartExited(v);
    s.(attempts := s.attempts[1 := Attempt(v, Checking, 0, 0, 0, false, None)])
  }

  function RestartLaunching(v: string): State {
    var s := RestartChecking(v);
    s.(free := 0, attempts := s.attempts[1 := Attempt(v, Launching, 1, 0, 1, false, None)], phase := map[v := Starting])
  }

  function UpAgain(v: string): State {
    var x := Attempt(v, Holding, 1, 0, 1, false, None);
    State(0, [], [x, x], map[], map[], map[v := Starting], {v}, 0, 0)
  }

  lemma TwoStart(v: string)
    requires LineStands(Start(2)) && QueueStands(Start(2))
    ensures Next(Start(2), PowerStart(v)) == OneStarting(v).(free := 2)
    ensures LineStands(OneStarting(v).(free := 2)) && QueueStands(OneStarting(v).(free := 2))
  {
    assert StartBegun(Entered(Start(2), v, Ending(true)), 0) == OneStarting(v).(free := 2);
  }

  lemma TwoLaunch(v: string)
    requires LineStands(OneStarting(v).(free := 2)) && QueueStands(OneStarting(v).(free := 2))
    ensures Next(OneStarting(v).(free := 2), Checks(0, true)) == OneLaunching(v).(free := 1)
    ensures LineStands(OneLaunching(v).(free := 1)) && QueueStands(OneLaunching(v).(free := 1))
  {
    assert StartChecked(OneStarting(v).(free := 2), 0, true) == OneLaunching(v).(free := 1);
  }

  lemma TwoUp(v: string)
    requires LineStands(OneLaunching(v).(free := 1)) && QueueStands(OneLaunching(v).(free := 1))
    ensures Next(OneLaunching(v).(free := 1), LaunchEnds(0, true)) == Up(v)
    ensures LineStands(Up(v)) && QueueStands(Up(v))
  {
    assert LaunchEnded(OneLaunching(v).(free := 1), 0, true) == Up(v);
  }

  lemma TwoRestart(v: string)
    requires LineStands(Up(v)) && QueueStands(Up(v))
    ensures Next(Up(v), PowerStop(v, true)) == Restarting(v)
    ensures LineStands(Restarting(v)) && QueueStands(Restarting(v))
  {
    assert StopBegun(Up(v), v, true) == Restarting(v);
  }

  lemma TwoExit(v: string)
    requires LineStands(Restarting(v)) && QueueStands(Restarting(v))
    ensures Next(Restarting(v), Exit(v, Offline)) == RestartExited(v)
    ensures LineStands(RestartExited(v)) && QueueStands(RestartExited(v))
  {
    assert Gone(Restarting(v), v) == RestartExited(v);
  }

  lemma TwoGoOn(v: string)
    requires LineStands(RestartExited(v)) && QueueStands(RestartExited(v))
    ensures Next(RestartExited(v), StopEnds(1)) == RestartChecking(v)
    ensures LineStands(RestartChecking(v)) && QueueStands(RestartChecking(v))
  {
    assert StopEnded(RestartExited(v), 1) == RestartChecking(v);
  }

  lemma TwoCheck(v: string)
    requires LineStands(RestartChecking(v)) && QueueStands(RestartChecking(v))
    ensures Next(RestartChecking(v), Checks(1, true)) == RestartLaunching(v)
    ensures LineStands(RestartLaunching(v)) && QueueStands(RestartLaunching(v))
  {
    assert StartChecked(RestartChecking(v), 1, true) == RestartLaunching(v);
  }

  lemma TwoUpAgain(v: string)
    requires LineStands(RestartLaunching(v)) && QueueStands(RestartLaunching(v))
    ensures Next(RestartLaunching(v), LaunchEnds(1, true)) == UpAgain(v)
    ensures LineStands(UpAgain(v)) && QueueStands(UpAgain(v))
  {
    assert LaunchEnded(RestartLaunching(v), 1, true) == UpAgain(v);
  }

  function Coming(v: string): seq<Step> { [] + [PowerStart(v)] + [Checks(0, true)] + [LaunchEnds(0, true)] }

  lemma ComesUp(slots: nat, v: string)
    requires slots == 2
    ensures After(slots, Coming(v)) == Up(v)
  {
    TwoStart(v);
    Onwards(slots, [], PowerStart(v), Start(2), OneStarting(v).(free := 2));
    TwoLaunch(v);
    Onwards(slots, [] + [PowerStart(v)], Checks(0, true), OneStarting(v).(free := 2), OneLaunching(v).(free := 1));
    TwoUp(v);
    Onwards(slots, [] + [PowerStart(v)] + [Checks(0, true)], LaunchEnds(0, true), OneLaunching(v).(free := 1), Up(v));
  }

  lemma RestartExits(slots: nat, steps: seq<Step>, v: string)
    requires After(slots, steps) == Up(v)
    ensures After(slots, steps + [PowerStop(v, true)] + [Exit(v, Offline)]) == RestartExited(v)
  {
    TwoRestart(v);
    Onwards(slots, steps, PowerStop(v, true), Up(v), Restarting(v));
    TwoExit(v);
    Onwards(slots, steps + [PowerStop(v, true)], Exit(v, Offline), Restarting(v), RestartExited(v));
  }

  lemma RestartComesUp(slots: nat, steps: seq<Step>, v: string)
    requires After(slots, steps) == RestartExited(v)
    ensures After(slots, steps + [StopEnds(1)] + [Checks(1, true)] + [LaunchEnds(1, true)]) == UpAgain(v)
  {
    TwoGoOn(v);
    Onwards(slots, steps, StopEnds(1), RestartExited(v), RestartChecking(v));
    TwoCheck(v);
    Onwards(slots, steps + [StopEnds(1)], Checks(1, true), RestartChecking(v), RestartLaunching(v));
    TwoUpAgain(v);
    Onwards(slots, steps + [StopEnds(1)] + [Checks(1, true)], LaunchEnds(1, true), RestartLaunching(v), UpAgain(v));
  }

  function Again(v: string): seq<Step> { Coming(v) + [PowerStop(v, true)] + [Exit(v, Offline)] }

  lemma ARestartHoldsBoth(slots: nat, v: string)
    requires slots == 2
    ensures After(slots, Again(v) + [StopEnds(1)] + [Checks(1, true)] + [LaunchEnds(1, true)]) == UpAgain(v)
    ensures HoldsFor(UpAgain(v), 0, v) && HoldsFor(UpAgain(v), 1, v) && UpAgain(v).free == 0
  {
    ComesUp(slots, v);
    RestartExits(slots, Coming(v), v);
    RestartComesUp(slots, Again(v), v);
  }

  // On one slot: a server that is slow to come up loses it at the timeout, and
  // the slot is free while it still starts.
  function SlowToStart(v: string): State {
    State(0, [], [Attempt(v, Holding, 1, 0, 1, false, None)], map[], map[], map[v := Starting], {v}, 0, 0)
  }

  function TimedOut(v: string): State {
    State(1, [], [Attempt(v, Over, 1, 1, 1, false, None)], map[], map[], map[v := Starting], {v}, 0, 0)
  }

  lemma SlowLaunch(v: string)
    requires LineStands(OneLaunching(v)) && QueueStands(OneLaunching(v))
    ensures Next(OneLaunching(v), LaunchEnds(0, true)) == SlowToStart(v)
    ensures LineStands(SlowToStart(v)) && QueueStands(SlowToStart(v))
  {
    assert LaunchEnded(OneLaunching(v), 0, true) == SlowToStart(v);
  }

  lemma TimesOut(v: string)
    requires LineStands(SlowToStart(v)) && QueueStands(SlowToStart(v))
    ensures Next(SlowToStart(v), HoldEnds(0)) == TimedOut(v)
  {
    assert Released(SlowToStart(v), 0) == TimedOut(v);
  }

  lemma ASlowStartFreesItsSlot(slots: nat, v: string)
    requires slots == 1
    ensures After(slots, FirstLaunch(v) + [LaunchEnds(0, true)] + [HoldEnds(0)]) == TimedOut(v)
    ensures TimedOut(v).free == slots && Is(TimedOut(v), v, Starting)
  {
    FirstIsLaunching(slots, v);
    SlowLaunch(v);
    Onwards(slots, FirstLaunch(v), LaunchEnds(0, true), OneLaunching(v), SlowToStart(v));
    TimesOut(v);
    Onwards(slots, FirstLaunch(v) + [LaunchEnds(0, true)], HoldEnds(0), SlowToStart(v), TimedOut(v));
  }

  // On one slot: two servers that were starting are re-attached one after the other,
  // and the second starts with no slot.
  function Adoptee(u: string): State {
    State(1, [], [Attempt(u, Adopting, 0, 0, 0, false, None)], map[], map[u := 0], map[u := Starting], {}, 0, 0)
  }

  function OneReattached(u: string): State {
    State(0, [], [Attempt(u, Holding, 1, 0, 0, false, None)], map[], map[], map[u := Starting], {u}, 0, 0)
  }

  function SecondAdoptee(u: string, v: string): State {
    var s := OneReattached(u);
    s.(attempts := s.attempts + [Attempt(v, Adopting, 0, 0, 0, false, None)], lock := map[v := 1],
       phase := map[u := Starting, v := Starting])
  }

  function SlotlessStart(u: string, v: string): State {
    var s := OneReattached(u);
    s.(attempts := s.attempts + [Attempt(v, Over, 0, 0, 0, false, None)],
       phase := map[u := Starting, v := Starting], running := {u, v})
  }

  lemma AdoptionBegins(u: string)
    requires LineStands(Start(1)) && QueueStands(Start(1))
    ensures Next(Start(1), Adopt(u)) == Adoptee(u)
    ensures LineStands(Adoptee(u)) && QueueStands(Adoptee(u))
  {
    assert InPhase(Entered(Start(1), u, Adopting), u, Starting) == Adoptee(u);
  }

  lemma AdoptionEnds(u: string)
    requires LineStands(Adoptee(u)) && QueueStands(Adoptee(u))
    ensures Next(Adoptee(u), AdoptEnds(0, true)) == OneReattached(u)
    ensures LineStands(OneReattached(u)) && QueueStands(OneReattached(u))
  {
    assert Adopted(Adoptee(u), 0, true) == OneReattached(u);
  }

  lemma SecondAdoptionBegins(u: string, v: string)
    requires u != v && LineStands(OneReattached(u)) && QueueStands(OneReattached(u))
    ensures Next(OneReattached(u), Adopt(v)) == SecondAdoptee(u, v)
    ensures LineStands(SecondAdoptee(u, v)) && QueueStands(SecondAdoptee(u, v))
  {
    assert InPhase(Entered(OneReattached(u), v, Adopting), v, Starting) == SecondAdoptee(u, v);
  }

  lemma SecondAdoptionEnds(u: string, v: string)
    requires u != v && LineStands(SecondAdoptee(u, v)) && QueueStands(SecondAdoptee(u, v))
    ensures Next(SecondAdoptee(u, v), AdoptEnds(1, true)) == SlotlessStart(u, v)
    ensures LineStands(SlotlessStart(u, v)) && QueueStands(SlotlessStart(u, v))
  {
    assert Adopted(SecondAdoptee(u, v), 1, true) == SlotlessStart(u, v);
  }

  lemma FirstIsAdopted(slots: nat, u: string)
    requires slots == 1
    ensures After(slots, [] + [Adopt(u)] + [AdoptEnds(0, true)]) == OneReattached(u)
  {
    AdoptionBegins(u);
    Onwards(slots, [], Adopt(u), Start(1), Adoptee(u));
    AdoptionEnds(u);
    Onwards(slots, [] + [Adopt(u)], AdoptEnds(0, true), Adoptee(u), OneReattached(u));
  }

  lemma SecondIsAdopted(slots: nat, steps: seq<Step>, u: string, v: string)
    requires u != v && After(slots, steps) == OneReattached(u)
    ensures After(slots, steps + [Adopt(v)] + [AdoptEnds(1, true)]) == SlotlessStart(u, v)
  {
    SecondAdoptionBegins(u, v);
    Onwards(slots, steps, Adopt(v), OneReattached(u), SecondAdoptee(u, v));
    SecondAdoptionEnds(u, v);
    Onwards(slots, steps + [Adopt(v)], AdoptEnds(1, true), SecondAdoptee(u, v), SlotlessStart(u, v));
  }

  lemma AnAdoptionStartsBesides(slots: nat, u: string, v: string)
    requires slots == 1 && u != v
    ensures After(slots, [] + [Adopt(u)] + [AdoptEnds(0, true)] + [Adopt(v)] + [AdoptEnds(1, true)])
         == SlotlessStart(u, v)
    ensures Is(SlotlessStart(u, v), u, Starting) && Is(SlotlessStart(u, v), v, Starting)
  {
    FirstIsAdopted(slots, u);
    SecondIsAdopted(slots, [] + [Adopt(u)] + [AdoptEnds(0, true)], u, v);
  }
}
