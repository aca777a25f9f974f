// What a stop of a running server does: it has the server's lock from the request to
// the exit, nothing of the server is launched meanwhile, and a plain stop starts
// nothing afterwards. And that a server is never launched while it runs.

module BootStops {
  import opened Prelude
  import opened BootQueue
  import opened BootPromises

  // --- what one step can do to an attempt --------------------------------------------------

  // A stop goes on only where it ends, what is over stays over, and a launch is of
  // a start whose checks pass.
  ghost predicate GoesOn(x: Attempt, y: Attempt, ends: bool, passes: bool) {
    && y.server == x.server
    && (x.stage.Ending? && !ends ==> y == x)
    && (x.stage.Over? ==> y == x)
    && (y.launched == x.launched || (passes && (x.stage.Checking? || x.stage.Rechecking?)))
  }

  ghost predicate GoesOnAt(s: State, t: State, step: Step, a: nat)
    requires a < |s.attempts| <= |t.attempts|
  { GoesOn(s.attempts[a], t.attempts[a], step == StopEnds(a), step == Checks(a, true)) }

  ghost predicate QuietAt(s: State, t: State, step: Step, a: nat)
    requires a < |s.attempts| <= |t.attempts|
  { GoesOnAt(s, t, step, a) && t.attempts[a].launched == s.attempts[a].launched }

  ghost predicate NewcomersWait(s: State, t: State) {
    forall a: nat :: |s.attempts| <= a < |t.attempts| ==> t.attempts[a].launched == 0
  }

  ghost predicate AllGoOn(s: State, t: State, step: Step) {
    && |s.attempts| <= |t.attempts| && NewcomersWait(s, t)
    && forall a: nat :: a < |s.attempts| ==> GoesOnAt(s, t, step, a)
  }

  // The same, and nothing is launched.
  ghost predicate Quiet(s: State, t: State, step: Step) {
    && |s.attempts| <= |t.attempts| && NewcomersWait(s, t)
    && forall a: nat :: a < |s.attempts| ==> QuietAt(s, t, step, a)
  }

  lemma QuietGoesOn(s: State, t: State, step: Step)
    requires Quiet(s, t, step)
    ensures AllGoOn(s, t, step)
  {
    forall a: nat | a < |s.attempts|
      ensures GoesOnAt(s, t, step, a)
    {
      assert QuietAt(s, t, step, a);
    }
  }

  // One attempt moves, and none joins.
  lemma OneGoesOn(s: State, t: State, step: Step, a: nat)
    requires a < |s.attempts| == |t.attempts| && t.attempts == s.attempts[a := t.attempts[a]]
    requires GoesOnAt(s, t, step, a)
    ensures AllGoOn(s, t, step)
  {}

  lemma OneIsQuiet(s: State, t: State, step: Step, a: nat)
    requires a < |s.attempts| == |t.attempts| && t.attempts == s.attempts[a := t.attempts[a]]
    requires QuietAt(s, t, step, a)
    ensures Quiet(s, t, step)
  {}

  lemma NoneIsQuiet(s: State, t: State, step: Step)
    requires t.attempts == s.attempts
    ensures Quiet(s, t, step)
  {}

  lemma OneMoreIsQuiet(s: State, t: State, step: Step, x: Attempt)
    requires t.attempts == s.attempts + [x] && x.launched == 0
    ensures Quiet(s, t, step)
  {}

  lemma StaysQuiet(s: State, t: State, u: State, step: Step)
    requires Quiet(s, t, step) && Quiet(t, u, step)
    ensures Quiet(s, u, step)
  {
    forall a: nat | a < |s.attempts|
      ensures QuietAt(s, u, step, a)
    {
      assert QuietAt(s, t, step, a) && QuietAt(t, u, step, a);
    }
    NewcomersStillWait(s, t, u, step);
  }

  lemma NewcomersStillWait(s: State, t: State, u: State, step: Step)
    requires NewcomersWait(s, t) && Quiet(t, u, step)
    ensures NewcomersWait(s, u)
  {
    forall a: nat | |s.attempts| <= a < |u.attempts|
      ensures u.attempts[a].launched == 0
    {
      assert a < |t.attempts| ==> QuietAt(t, u, step, a);
    }
  }

  lemma WokenIsQuiet(s: State, step: Step)
    requires LineStands(s) && s.free > 0
    ensures Quiet(s, Woken(s), step)
  {
    if s.line != [] { OneIsQuiet(s, Woken(s), step, s.line[0]); } else { NoneIsQuiet(s, Woken(s), step); }
  }

  // A slot goes back, and on.
  lemma SlotBackIsQuiet(s: State, t: State, step: Step, a: nat)
    requires Core(s) && GivesUp(s, t, a)
    ensures LineStands(t) && Quiet(s, Passed(t), step)
  {
    SlotBackMoves(s, t, a);
    GivenUpIsQuiet(s, t, step, a);
    PassedIsQuiet(t, step);
    StaysQuiet(s, t, Passed(t), step);
  }

  lemma GivenUpIsQuiet(s: State, t: State, step: Step, a: nat)
    requires GivesUp(s, t, a)
    ensures Quiet(s, t, step)
  {
    OneIsQuiet(s, t, step, a);
  }

  lemma PassedIsQuiet(s: State, step: Step)
    requires LineStands(s)
    ensures Quiet(s, Passed(s), step)
  {
    var u := s.(free := s.free + 1);
    NoneIsQuiet(s, u, step);
    WokenIsQuiet(u, step);
    StaysQuiet(s, u, Woken(u), step);
  }

  lemma EntersQuietly(s: State, v: string, stage: Stage, step: Step)
    ensures Quiet(s, Entered(s, v, stage), step)
  {
    OneMoreIsQuiet(s, Entered(s, v, stage), step, Attempt(v, stage, 0, 0, 0, false, None));
  }

  lemma CancelIsQuiet(s: State, v: string, step: Step)
    requires Core(s) && v in s.queued
    ensures Quiet(s, Cancelled(s, v), step)
  {
    OneIsQuiet(s, Cancelled(s, v), step, s.queued[v]);
  }

  // A request that comes and goes on within one step.
  lemma EndsAtOnceQuietly(s: State, v: string, again: bool, step: Step)
    ensures Quiet(s, StopEnded(Entered(s, v, Ending(again)), |s.attempts|), step)
  {
    var u := StopEnded(Entered(s, v, Ending(again)), |s.attempts|);
    assert u.attempts[..|s.attempts|] == s.attempts;
    OneMoreIsQuiet(s, u, step, u.attempts[|s.attempts|]);
  }

  lemma StopIsQuiet(s: State, v: string, again: bool, step: Step)
    requires Core(s)
    ensures Quiet(s, StopBegun(s, v, again), step)
  {
    if v in s.queued {
      var t := InPhase(Cancelled(s, v), v, Offline);
      CancelIsQuiet(s, v, step);
      NoneIsQuiet(Cancelled(s, v), t, step);
      StaysQuiet(s, Cancelled(s, v), t, step);
      EndsAtOnceQuietly(t, v, again, step);
      StaysQuiet(s, t, StopBegun(s, v, again), step);
    } else if v in s.running {
      OneMoreIsQuiet(s, StopBegun(s, v, again), step, Attempt(v, Ending(again), 0, 0, 0, false, None));
    } else {
      EndsAtOnceQuietly(s, v, again, step);
    }
  }

  lemma RestoreIsQuiet(s: State, v: string, again: bool, step: Step)
    requires Core(s)
    ensures Quiet(s, RestoreBegun(s, v, again), step)
  {
    if v in s.running { StopIsQuiet(s, v, again, step); } else { EntersQuietly(s, v, Ending(false), step); }
  }

  lemma ChecksGoOn(s: State, a: nat, ok: bool, step: Step)
    requires a < |s.attempts| && s.attempts[a].stage.Checking? && step == Checks(a, ok)
    ensures AllGoOn(s, StartChecked(s, a, ok), step)
  {
    if ok && !Locked(s) {
      OneGoesOn(s, StartChecked(s, a, ok), step, a);
    } else {
      var v, t := s.attempts[a].server, Left(s, a);
      var u := InPhase(Enqueued(t, v), v, InQueue);
      OneIsQuiet(s, t, step, a);
      OneMoreIsQuiet(t, u, step, Attempt(v, Created, 0, 0, 0, false, None));
      StaysQuiet(s, t, u, step);
      QuietGoesOn(s, StartChecked(s, a, ok), step);
    }
  }

  lemma RechecksGoOn(s: State, a: nat, ok: bool, step: Step)
    requires Core(s) && a < |s.attempts| && s.attempts[a].stage.Rechecking? && step == Checks(a, ok)
    ensures AllGoOn(s, Rechecked(s, a, ok), step)
  {
    if ok {
      OneGoesOn(s, Rechecked(s, a, ok), step, a);
    } else {
      var t := Unlocked(GaveBack(s, a), s.attempts[a].server);
      SlotBackIsQuiet(s, t, step, a);
      NoneIsQuiet(Passed(t), Rechecked(s, a, ok), step);
      StaysQuiet(s, Passed(t), Rechecked(s, a, ok), step);
      QuietGoesOn(s, Rechecked(s, a, ok), step);
    }
  }

  lemma LaunchEndsQuietly(s: State, a: nat, ok: bool, step: Step)
    requires Core(s) && a < |s.attempts| && IsLaunching(s.attempts[a])
    ensures Quiet(s, LaunchEnded(s, a, ok), step)
  {
    if ok {
      OneIsQuiet(s, LaunchEnded(s, a, ok), step, a);
    } else {
      var t := Unlocked(GaveBack(s, a), s.attempts[a].server);
      SlotBackIsQuiet(s, t, step, a);
      NoneIsQuiet(Passed(t), LaunchEnded(s, a, ok), step);
      StaysQuiet(s, Passed(t), LaunchEnded(s, a, ok), step);
    }
  }

  lemma GrantedIsQuiet(s: State, a: nat, step: Step)
    requires LineStands(s) && a < |s.attempts| && s.attempts[a].stage.Granted?
    ensures Quiet(s, Resumed(s, a), step)
  {
    var t := Unqueued(Moved(s, a, Locking), s.attempts[a].server);
    OneIsQuiet(s, t, step, a);
    if s.free > 0 {
      WokenIsQuiet(t, step);
      StaysQuiet(s, t, Woken(t), step);
    }
  }

  lemma ResumesQuietly(s: State, a: nat, step: Step)
    requires Core(s) && a < |s.attempts|
    ensures Quiet(s, Resumed(s, a), step)
  {
    if s.attempts[a].stage.Created? {
      OneIsQuiet(s, Resumed(s, a), step, a);
    } else if s.attempts[a].stage.Granted? {
      GrantedIsQuiet(s, a, step);
    } else if s.attempts[a].stage.Revoked? {
      SlotBackIsQuiet(s, GaveBack(s, a), step, a);
    } else {
      NoneIsQuiet(s, s, step);
    }
  }

  lemma GetsLockQuietly(s: State, a: nat, step: Step)
    requires Core(s) && a < |s.attempts| && s.attempts[a].stage.Locking?
    ensures Quiet(s, GotLock(s, a), step)
  {
    if Is(s, s.attempts[a].server, InQueue) && s.attempts[a].server !in s.running {
      OneIsQuiet(s, GotLock(s, a), step, a);
    } else {
      SlotBackIsQuiet(s, GaveBack(s, a), step, a);
    }
  }

  // A request: a start, a stop, a restore, or a deletion.
  lemma RequestGoesOn(s: State, step: Step)
    requires Inv(s) && (step.PowerStart? || step.PowerStop? || step.Restore? || step.Delete?)
    ensures AllGoOn(s, Next(s, step), step)
  {
    NoneIsQuiet(s, s, step);
    match step {
      case PowerStart(v) => EndsAtOnceQuietly(s, v, true, step);
      case PowerStop(v, again) => StopIsQuiet(s, v, again, step);
      case Restore(v, again) => RestoreIsQuiet(s, v, again, step);
      case Delete(v) => if v in s.queued { CancelIsQuiet(s, v, step); }
    }
    QuietGoesOn(s, Next(s, step), step);
  }

  lemma StopEndsGoesOn(s: State, a: nat)
    requires Inv(s)
    ensures AllGoOn(s, Next(s, StopEnds(a)), StopEnds(a))
  {
    if a < |s.attempts| && s.attempts[a].stage.Ending? {
      OneGoesOn(s, StopEnded(s, a), StopEnds(a), a);
    } else {
      NoneIsQuiet(s, s, StopEnds(a));
      QuietGoesOn(s, s, StopEnds(a));
    }
  }

  lemma ChecksStepGoesOn(s: State, a: nat, ok: bool)
    requires Inv(s)
    ensures AllGoOn(s, Next(s, Checks(a, ok)), Checks(a, ok))
  {
    if a < |s.attempts| && s.attempts[a].stage.Checking? {
      ChecksGoOn(s, a, ok, Checks(a, ok));
    } else if a < |s.attempts| && s.attempts[a].stage.Rechecking? {
      RechecksGoOn(s, a, ok, Checks(a, ok));
    } else {
      NoneIsQuiet(s, s, Checks(a, ok));
      QuietGoesOn(s, s, Checks(a, ok));
    }
  }

  lemma LaunchEndsGoesOn(s: State, a: nat, ok: bool)
    requires Inv(s)
    ensures AllGoOn(s, Next(s, LaunchEnds(a, ok)), LaunchEnds(a, ok))
  {
    if a < |s.attempts| && IsLaunching(s.attempts[a]) {
      LaunchEndsQuietly(s, a, ok, LaunchEnds(a, ok));
      QuietGoesOn(s, LaunchEnded(s, a, ok), LaunchEnds(a, ok));
    } else {
      UnchangedGoesOn(s, LaunchEnds(a, ok));
    }
  }

  lemma UnchangedGoesOn(s: State, step: Step)
    ensures AllGoOn(s, s, step)
  {
    NoneIsQuiet(s, s, step);
    QuietGoesOn(s, s, step);
  }

  lemma ResumeGoesOn(s: State, a: nat)
    requires Inv(s)
    ensures AllGoOn(s, Next(s, Resume(a)), Resume(a))
  {
    if a < |s.attempts| {
      ResumesQuietly(s, a, Resume(a));
      QuietGoesOn(s, Resumed(s, a), Resume(a));
    } else {
      UnchangedGoesOn(s, Resume(a));
    }
  }

  lemma GetLockGoesOn(s: State, a: nat)
    requires Inv(s)
    ensures AllGoOn(s, Next(s, GetLock(a)), GetLock(a))
  {
    if a < |s.attempts| && s.attempts[a].stage.Locking? && s.attempts[a].server !in s.lock {
      GetsLockQuietly(s, a, GetLock(a));
      QuietGoesOn(s, GotLock(s, a), GetLock(a));
    } else {
      UnchangedGoesOn(s, GetLock(a));
    }
  }

  lemma HoldEndsGoesOn(s: State, a: nat)
    requires Inv(s)
    ensures AllGoOn(s, Next(s, HoldEnds(a)), HoldEnds(a))
  {
    if a < |s.attempts| && s.attempts[a].stage.Holding? {
      SlotBackIsQuiet(s, GaveBack(s, a), HoldEnds(a), a);
      QuietGoesOn(s, Released(s, a), HoldEnds(a));
    } else {
      UnchangedGoesOn(s, HoldEnds(a));
    }
  }

  lemma AdoptGoesOn(s: State, v: string)
    requires Inv(s)
    ensures AllGoOn(s, Next(s, Adopt(v)), Adopt(v))
  {
    if v !in s.lock && v !in s.running {
      OneMoreIsQuiet(s, Next(s, Adopt(v)), Adopt(v), Attempt(v, Adopting, 0, 0, 0, false, None));
      QuietGoesOn(s, Next(s, Adopt(v)), Adopt(v));
    } else {
      UnchangedGoesOn(s, Adopt(v));
    }
  }

  lemma AdoptEndsGoesOn(s: State, a: nat, ok: bool)
    requires Inv(s)
    ensures AllGoOn(s, Next(s, AdoptEnds(a, ok)), AdoptEnds(a, ok))
  {
    if a < |s.attempts| && s.attempts[a].stage.Adopting? {
      OneGoesOn(s, Adopted(s, a, ok), AdoptEnds(a, ok), a);
    } else {
      UnchangedGoesOn(s, AdoptEnds(a, ok));
    }
  }

  lemma NewsGoesOn(s: State, step: Step)
    requires Inv(s) && (step.Exit? || step.Becomes?)
    ensures AllGoOn(s, Next(s, step), step)
  {
    NoneIsQuiet(s, Next(s, step), step);
    QuietGoesOn(s, Next(s, step), step);
  }

  lemma NextGoesOn(s: State, step: Step)
    requires Inv(s)
    ensures AllGoOn(s, Next(s, step), step)
  {
    match step {
      case PowerStart(v) => RequestGoesOn(s, step);
      case PowerStop(v, again) => RequestGoesOn(s, step);
      case Restore(v, again) => RequestGoesOn(s, step);
      case StopEnds(a) => StopEndsGoesOn(s, a);
      case Checks(a, ok) => ChecksStepGoesOn(s, a, ok);
      case LaunchEnds(a, ok) => LaunchEndsGoesOn(s, a, ok);
      case Resume(a) => ResumeGoesOn(s, a);
      case GetLock(a) => GetLockGoesOn(s, a);
      case HoldEnds(a) => HoldEndsGoesOn(s, a);
      case Delete(v) => RequestGoesOn(s, step);
      case Adopt(v) => AdoptGoesOn(s, v);
      case AdoptEnds(a, ok) => AdoptEndsGoesOn(s, a, ok);
      case Exit(v, phase) => NewsGoesOn(s, step);
      case Becomes(v, phase) => NewsGoesOn(s, step);
    }
  }

  // --- a stop of a running server ------------------------------------------------------------

  // Attempt `b` is a stop of `v`, under way, with its lock.
  ghost predicate StopHasLock(s: State, v: string, b: nat, again: bool) {
    && b < |s.attempts| && s.attempts[b].server == v && s.attempts[b].stage == Ending(again)
    && v in s.lock && s.lock[v] == b
  }

  // In its checks or its launch.
  predicate ChecksOrLaunches(x: Attempt) { x.stage.Checking? || x.stage.Rechecking? || IsLaunching(x) }

  ghost predicate NoneChecksOrLaunches(s: State, v: string) {
    forall a: nat :: a < |s.attempts| && s.attempts[a].server == v ==> !ChecksOrLaunches(s.attempts[a])
  }

  function LaunchedBefore(s: State, a: nat): nat { if a < |s.attempts| then s.attempts[a].launched else 0 }

  // No attempt of `v` has launched since `s`.
  ghost predicate NoLaunchSince(s: State, t: State, v: string) {
    forall a: nat :: a < |t.attempts| && t.attempts[a].server == v ==> t.attempts[a].launched == LaunchedBefore(s, a)
  }

  // A stop or a restore of a running server that is not queued: the server is
  // stopping, and its lock is with that request, whether it starts it again or not.
  lemma AStopBegins(slots: nat, steps: seq<Step>, v: string, again: bool, step: Step)
    requires step == PowerStop(v, again) || step == Restore(v, again)
    requires v in After(slots, steps).running && v !in After(slots, steps).queued && v !in After(slots, steps).lock
    ensures Is(After(slots, steps + [step]), v, Stopping)
    ensures StopHasLock(After(slots, steps + [step]), v, |After(slots, steps).attempts|, again)
    ensures NoLaunchSince(After(slots, steps), After(slots, steps + [step]), v)
  {
    AfterOneMore(slots, steps, step);
    StopTakesLock(After(slots, steps), v, again, step);
  }

  lemma StopTakesLock(s: State, v: string, again: bool, step: Step)
    requires Inv(s) && (step == PowerStop(v, again) || step == Restore(v, again))
    requires v in s.running && v !in s.queued && v !in s.lock
    ensures Is(Next(s, step), v, Stopping) && StopHasLock(Next(s, step), v, |s.attempts|, again)
    ensures NoLaunchSince(s, Next(s, step), v)
  {}

  // A restore of a server that does not run has its lock too, until the files are
  // back, and leaves it as it is.
  lemma ARestoreBegins(slots: nat, steps: seq<Step>, v: string, again: bool)
    requires v !in After(slots, steps).running && v !in After(slots, steps).lock
    ensures var s, t := After(slots, steps), After(slots, steps + [Restore(v, again)]);
      StopHasLock(t, v, |s.attempts|, false) && t.phase == s.phase && t.queued == s.queued
  {
    AfterOneMore(slots, steps, Restore(v, again));
    RestoreTakesLock(After(slots, steps), v, again);
  }

  lemma RestoreTakesLock(s: State, v: string, again: bool)
    requires Inv(s) && v !in s.running && v !in s.lock
    ensures StopHasLock(Next(s, Restore(v, again)), v, |s.attempts|, false)
    ensures Next(s, Restore(v, again)).phase == s.phase && Next(s, Restore(v, again)).queued == s.queued
  {
    assert Next(s, Restore(v, again)) == Entered(s, v, Ending(false));
  }

  lemma LockKeepsOthersOut(s: State, v: string, b: nat, again: bool)
    requires Inv(s) && StopHasLock(s, v, b, again)
    ensures NoneChecksOrLaunches(s, v)
  {
    forall a: nat | a < |s.attempts| && s.attempts[a].server == v
      ensures !ChecksOrLaunches(s.attempts[a])
    {
      assert HoldsLock(s.attempts[a]) ==> s.lock[v] == a;
    }
  }

  lemma StopKeepsLockOnce(s: State, step: Step, v: string, b: nat, again: bool)
    requires Inv(s) && StopHasLock(s, v, b, again) && step != StopEnds(b)
    ensures Inv(Next(s, step)) && StopHasLock(Next(s, step), v, b, again)
  {
    NextKeeps(s, step);
    NextGoesOn(s, step);
    var t := Next(s, step);
    assert GoesOnAt(s, t, step, b);
    assert HoldsLock(t.attempts[b]);
  }

  // Nobody of `v` in its checks: nobody of it launches.
  lemma NobodyLaunches(s: State, step: Step, v: string)
    requires Inv(s) && NoneChecksOrLaunches(s, v)
    ensures NoLaunchSince(s, Next(s, step), v)
  {
    NextGoesOn(s, step);
    var t := Next(s, step);
    forall a: nat | a < |t.attempts| && t.attempts[a].server == v
      ensures t.attempts[a].launched == LaunchedBefore(s, a)
    {
      assert a < |s.attempts| ==> GoesOnAt(s, t, step, a);
    }
  }

  // A later launch than `t`'s would be later than `s`'s.
  lemma NoLaunchSinceFirst(r: State, s: State, t: State, step: Step, v: string)
    requires AllGoOn(s, t, step) && |r.attempts| <= |s.attempts|
    requires NoLaunchSince(r, s, v) && NoLaunchSince(s, t, v)
    ensures NoLaunchSince(r, t, v)
  {
    forall a: nat | a < |t.attempts| && t.attempts[a].server == v
      ensures t.attempts[a].launched == LaunchedBefore(r, a)
    {
      assert a < |s.attempts| ==> GoesOnAt(s, t, step, a);
    }
  }

  // Since `r`: the lock has stayed with the stop, no start of the server is in its
  // checks or its launch, and none has launched.
  ghost predicate StopStands(r: State, s: State, v: string, b: nat, again: bool) {
    && StopHasLock(s, v, b, again) && NoneChecksOrLaunches(s, v)
    && NoLaunchSince(r, s, v) && |r.attempts| <= |s.attempts|
  }

  // So it is in every continuation in which the stop has not ended.
  lemma {:induction false} AStopGoesOn(slots: nat, steps: seq<Step>, more: seq<Step>, v: string, b: nat, again: bool)
    requires StopHasLock(After(slots, steps), v, b, again) && StopEnds(b) !in more
    ensures StopStands(After(slots, steps), After(slots, steps + more), v, b, again)
  {
    if more == [] {
      assert steps + more == steps;
      StopStandsAtFirst(After(slots, steps), v, b, again);
    } else {
      var init, step := more[..|more| - 1], more[|more| - 1];
      assert steps + init + [step] == steps + more;
      AStopGoesOn(slots, steps, init, v, b, again);
      AStopGoesOnOneMore(slots, After(slots, steps), steps + init, step, v, b, again);
    }
  }

  lemma StopStandsAtFirst(s: State, v: string, b: nat, again: bool)
    requires Inv(s) && StopHasLock(s, v, b, again)
    ensures StopStands(s, s, v, b, again)
  {
    LockKeepsOthersOut(s, v, b, again);
  }

  lemma AStopGoesOnOneMore(
      slots: nat, r: State, steps: seq<Step>, step: Step, v: string, b: nat, again: bool)
    requires StopStands(r, After(slots, steps), v, b, again) && step != StopEnds(b)
    ensures StopStands(r, After(slots, steps + [step]), v, b, again)
  {
    AfterOneMore(slots, steps, step);
    AStopGoesOnOnce(r, After(slots, steps), step, v, b, again);
  }

  lemma AStopGoesOnOnce(r: State, s: State, step: Step, v: string, b: nat, again: bool)
    requires Inv(s) && StopStands(r, s, v, b, again) && step != StopEnds(b)
    ensures StopStands(r, Next(s, step), v, b, again)
  {
    StopKeepsLockOnce(s, step, v, b, again);
    LockKeepsOthersOut(s, v, b, again);
    LockKeepsOthersOut(Next(s, step), v, b, again);
    NobodyLaunches(s, step, v);
    NextGoesOn(s, step);
    NoLaunchSinceFirst(r, s, Next(s, step), step, v);
  }

  // What a stop leaves: its lock is free and it is over, or it goes on to a start,
  // with the lock, and that exactly when it was to and the server has gone.
  ghost predicate StopIsDone(s: State, t: State, v: string, b: nat, again: bool)
    requires b < |s.attempts| && b < |t.attempts|
  {
    var goesOn := again && v !in s.running && v !in s.queued;
    && (goesOn <==> t.attempts[b].stage.Checking?)
    && (!goesOn <==> t.attempts[b].stage.Over?)
    && (goesOn <==> v in t.lock)
    && t.running == s.running && t.queued == s.queued && t.phase == s.phase && |t.attempts| == |s.attempts|
    && forall a: nat :: a < |s.attempts| && a != b ==> t.attempts[a] == s.attempts[a]
  }

  lemma StopDone(s: State, v: string, b: nat, again: bool)
    requires Inv(s) && StopHasLock(s, v, b, again)
    ensures b < |Next(s, StopEnds(b)).attempts| && StopIsDone(s, Next(s, StopEnds(b)), v, b, again)
    ensures Next(s, StopEnds(b)).attempts[b].launched == s.attempts[b].launched
  {}

  // From the request to the end of the stop nothing of the server is launched; at its
  // end it frees the lock, or, for a restart of a server that is gone, goes on to start
  // it.
  lemma AStopEnds(slots: nat, steps: seq<Step>, more: seq<Step>, v: string, b: nat, again: bool)
    requires StopHasLock(After(slots, steps), v, b, again) && StopEnds(b) !in more
    ensures var s, t := After(slots, steps + more), After(slots, steps + more + [StopEnds(b)]);
      && b < |s.attempts| && b < |t.attempts| && StopIsDone(s, t, v, b, again)
    ensures NoLaunchSince(After(slots, steps), After(slots, steps + more + [StopEnds(b)]), v)
  {
    AStopGoesOn(slots, steps, more, v, b, again);
    var s := After(slots, steps + more);
    AfterOneMore(slots, steps + more, StopEnds(b));
    StopDone(s, v, b, again);
    NobodyLaunches(s, StopEnds(b), v);
    NextGoesOn(s, StopEnds(b));
    NoLaunchSinceFirst(After(slots, steps), s, Next(s, StopEnds(b)), StopEnds(b), v);
  }

  // --- what is over --------------------------------------------------------------------------

  ghost predicate IsOver(s: State, a: nat, launched: nat) {
    a < |s.attempts| && s.attempts[a].stage.Over? && s.attempts[a].launched == launched
  }

  lemma StaysOverOnce(s: State, step: Step, a: nat, launched: nat)
    requires Inv(s) && IsOver(s, a, launched)
    ensures IsOver(Next(s, step), a, launched)
  {
    NextGoesOn(s, step);
    assert GoesOnAt(s, Next(s, step), step, a);
  }

  lemma {:induction false} StaysOver(slots: nat, steps: seq<Step>, more: seq<Step>, a: nat, launched: nat)
    requires IsOver(After(slots, steps), a, launched)
    ensures IsOver(After(slots, steps + more), a, launched)
  {
    if more == [] {
      assert steps + more == steps;
    } else {
      var init, step := more[..|more| - 1], more[|more| - 1];
      assert steps + init + [step] == steps + more;
      StaysOver(slots, steps, init, a, launched);
      StaysOverOneMore(slots, steps + init, step, a, launched);
    }
  }

  lemma StaysOverOneMore(slots: nat, steps: seq<Step>, step: Step, a: nat, launched: nat)
    requires IsOver(After(slots, steps), a, launched)
    ensures IsOver(After(slots, steps + [step]), a, launched)
  {
    AfterOneMore(slots, steps, step);
    StaysOverOnce(After(slots, steps), step, a, launched);
  }

  // A plain stop starts nothing, however the run goes on: it is over, with the lock
  // free, and never launches.
  lemma APlainStopStartsNothing(
      slots: nat, steps: seq<Step>, more: seq<Step>, rest: seq<Step>, v: string, b: nat)
    requires StopHasLock(After(slots, steps), v, b, false) && StopEnds(b) !in more
    ensures v !in After(slots, steps + more + [StopEnds(b)]).lock
    ensures IsOver(After(slots, steps + more + [StopEnds(b)] + rest), b, 0)
  {
    AStopEnds(slots, steps, more, v, b, false);
    AStopGoesOn(slots, steps, more, v, b, false);
    var s := After(slots, steps + more);
    assert Proper(s.attempts[b]);
    AfterOneMore(slots, steps + more, StopEnds(b));
    StopDone(s, v, b, false);
    StaysOver(slots, steps + more + [StopEnds(b)], rest, b, 0);
  }

  // --- what comes of a start -----------------------------------------------------------------

  // A server that some start is checking or launching is not running.
  ghost predicate ApartAt(s: State, a: nat)
    requires a < |s.attempts|
  { ChecksOrLaunches(s.attempts[a]) ==> s.attempts[a].server !in s.running }

  ghost predicate Apart(s: State) { forall a: nat :: a < |s.attempts| ==> ApartAt(s, a) }

  // One attempt moves; nobody else gets to its checks, and no server begins to run.
  lemma OneKeepsApart(s: State, t: State, a: nat)
    requires Apart(s) && a < |s.attempts| <= |t.attempts| && t.running <= s.running && ApartAt(t, a)
    requires forall b: nat :: b < |s.attempts| && b != a ==> t.attempts[b] == s.attempts[b]
    requires forall b: nat :: |s.attempts| <= b < |t.attempts| ==> !ChecksOrLaunches(t.attempts[b])
    ensures Apart(t)
  {
    forall b: nat | b < |t.attempts|
      ensures ApartAt(t, b)
    {
      assert b < |s.attempts| ==> ApartAt(s, b);
    }
  }

  lemma NewsKeepsApart(s: State, t: State)
    requires Apart(s) && t.attempts == s.attempts && t.running <= s.running
    ensures Apart(t)
  {
    forall b: nat | b < |t.attempts|
      ensures ApartAt(t, b)
    {
      assert ApartAt(s, b);
    }
  }

  lemma OneMoreKeepsApart(s: State, t: State, x: Attempt)
    requires Apart(s) && t.attempts == s.attempts + [x] && t.running == s.running
    requires ChecksOrLaunches(x) ==> x.server !in s.running
    ensures Apart(t)
  {
    forall b: nat | b < |t.attempts|
      ensures ApartAt(t, b)
    {
      assert b < |s.attempts| ==> ApartAt(s, b);
    }
  }

  // A server begins to run: whoever had its lock was the only one.
  lemma RunsApart(s: State, t: State, a: nat)
    requires Apart(s) && LockInv(s) && a < |s.attempts| == |t.attempts| && HoldsLock(s.attempts[a])
    requires t.attempts == s.attempts[a := t.attempts[a]] && !ChecksOrLaunches(t.attempts[a])
    requires t.running == s.running + {s.attempts[a].server}
    ensures Apart(t)
  {
    forall b: nat | b < |t.attempts|
      ensures ApartAt(t, b)
    {
      assert ApartAt(s, b);
      assert HoldsLock(s.attempts[b]) && b != a ==> s.attempts[b].server != s.attempts[a].server;
    }
  }

  lemma WokenIsApart(s: State)
    requires Apart(s) && LineStands(s) && s.free > 0
    ensures Apart(Woken(s))
  {
    if s.line != [] { OneKeepsApart(s, Woken(s), s.line[0]); }
  }

  lemma PassedIsApart(s: State)
    requires Apart(s) && LineStands(s)
    ensures Apart(Passed(s))
  {
    NewsKeepsApart(s, s.(free := s.free + 1));
    WokenIsApart(s.(free := s.free + 1));
  }

  lemma SlotBackIsApart(s: State, t: State, a: nat)
    requires Core(s) && GivesUp(s, t, a) && Apart(s)
    ensures LineStands(t) && Apart(Passed(t))
  {
    SlotBackMoves(s, t, a);
    OneKeepsApart(s, t, a);
    PassedIsApart(t);
  }

  lemma EndsAtOnceApart(s: State, v: string, again: bool)
    requires Apart(s)
    ensures Apart(StopEnded(Entered(s, v, Ending(again)), |s.attempts|))
  {
    var u := StopEnded(Entered(s, v, Ending(again)), |s.attempts|);
    assert u.attempts[..|s.attempts|] == s.attempts;
    OneMoreKeepsApart(s, u, u.attempts[|s.attempts|]);
  }

  lemma CancelIsApart(s: State, v: string)
    requires Apart(s) && Core(s) && v in s.queued
    ensures Apart(Cancelled(s, v))
  {
    OneKeepsApart(s, Cancelled(s, v), s.queued[v]);
  }

  lemma StopIsApart(s: State, v: string, again: bool)
    requires Apart(s) && Core(s)
    ensures Apart(StopBegun(s, v, again))
  {
    if v in s.queued {
      CancelIsApart(s, v);
      NewsKeepsApart(Cancelled(s, v), InPhase(Cancelled(s, v), v, Offline));
      EndsAtOnceApart(InPhase(Cancelled(s, v), v, Offline), v, again);
    } else if v in s.running {
      OneMoreKeepsApart(s, StopBegun(s, v, again), Attempt(v, Ending(again), 0, 0, 0, false, None));
    } else {
      EndsAtOnceApart(s, v, again);
    }
  }

  lemma RestoreIsApart(s: State, v: string, again: bool)
    requires Apart(s) && Core(s)
    ensures Apart(RestoreBegun(s, v, again))
  {
    if v in s.running {
      StopIsApart(s, v, again);
    } else {
      OneMoreKeepsApart(s, RestoreBegun(s, v, again), Attempt(v, Ending(false), 0, 0, 0, false, None));
    }
  }

  lemma ChecksAreApart(s: State, a: nat, ok: bool)
    requires Apart(s) && a < |s.attempts| && s.attempts[a].stage.Checking?
    ensures Apart(StartChecked(s, a, ok))
  {
    assert ApartAt(s, a);
    OneKeepsApart(s, StartChecked(s, a, ok), a);
  }

  lemma FailsApart(s: State, a: nat, t: State)
    requires Apart(s) && Core(s) && a < |s.attempts|
    requires s.attempts[a].stage.Rechecking? || IsLaunching(s.attempts[a])
    requires t == Unlocked(GaveBack(s, a), s.attempts[a].server)
    ensures LineStands(t) && Apart(InPhase(Passed(t), s.attempts[a].server, Offline))
  {
    SlotBackIsApart(s, t, a);
    NewsKeepsApart(Passed(t), InPhase(Passed(t), s.attempts[a].server, Offline));
  }

  lemma RechecksAreApart(s: State, a: nat, ok: bool)
    requires Apart(s) && Core(s) && a < |s.attempts| && s.attempts[a].stage.Rechecking?
    ensures Apart(Rechecked(s, a, ok))
  {
    assert ApartAt(s, a);
    if ok {
      OneKeepsApart(s, Rechecked(s, a, ok), a);
    } else {
      FailsApart(s, a, Unlocked(GaveBack(s, a), s.attempts[a].server));
    }
  }

  lemma LaunchIsApart(s: State, a: nat, ok: bool)
    requires Apart(s) && Core(s) && a < |s.attempts| && IsLaunching(s.attempts[a])
    ensures Apart(LaunchEnded(s, a, ok))
  {
    if ok {
      RunsApart(s, LaunchEnded(s, a, ok), a);
    } else {
      FailsApart(s, a, Unlocked(GaveBack(s, a), s.attempts[a].server));
    }
  }

  lemma ResumedIsApart(s: State, a: nat)
    requires Apart(s) && Core(s) && a < |s.attempts|
    ensures Apart(Resumed(s, a))
  {
    if s.attempts[a].stage.Created? {
      OneKeepsApart(s, Resumed(s, a), a);
    } else if s.attempts[a].stage.Granted? {
      GrantedIsApart(s, a);
    } else if s.attempts[a].stage.Revoked? {
      SlotBackIsApart(s, GaveBack(s, a), a);
    }
  }

  lemma GrantedIsApart(s: State, a: nat)
    requires Apart(s) && LineStands(s) && a < |s.attempts| && s.attempts[a].stage.Granted?
    ensures Apart(Resumed(s, a))
  {
    var t := Unqueued(Moved(s, a, Locking), s.attempts[a].server);
    OneKeepsApart(s, t, a);
    if s.free > 0 { WokenIsApart(t); }
  }

  lemma GotLockIsApart(s: State, a: nat)
    requires Apart(s) && Core(s) && a < |s.attempts| && s.attempts[a].stage.Locking?
    ensures Apart(GotLock(s, a))
  {
    if Is(s, s.attempts[a].server, InQueue) && s.attempts[a].server !in s.running {
      OneKeepsApart(s, GotLock(s, a), a);
    } else {
      SlotBackIsApart(s, GaveBack(s, a), a);
    }
  }

  lemma AdoptedIsApart(s: State, a: nat, ok: bool)
    requires Apart(s) && Core(s) && a < |s.attempts| && s.attempts[a].stage.Adopting?
    ensures Apart(Adopted(s, a, ok))
  {
    if ok { RunsApart(s, Adopted(s, a, ok), a); } else { OneKeepsApart(s, Adopted(s, a, ok), a); }
  }

  lemma RequestKeepsApart(s: State, step: Step)
    requires Inv(s) && Apart(s) && (step.PowerStart? || step.PowerStop? || step.Restore? || step.Delete?)
    ensures Apart(Next(s, step))
  {
    match step {
      case PowerStart(v) => EndsAtOnceApart(s, v, true);
      case PowerStop(v, again) => StopIsApart(s, v, again);
      case Restore(v, again) => RestoreIsApart(s, v, again);
      case Delete(v) => if v in s.queued { CancelIsApart(s, v); }
    }
  }

  lemma StopEndsKeepsApart(s: State, a: nat)
    requires Inv(s) && Apart(s)
    ensures Apart(Next(s, StopEnds(a)))
  {
    if a < |s.attempts| && s.attempts[a].stage.Ending? { EndedIsApart(s, a); }
  }

  lemma EndedIsApart(s: State, a: nat)
    requires Apart(s) && a < |s.attempts| && s.attempts[a].stage.Ending?
    ensures Apart(StopEnded(s, a))
  {
    OneKeepsApart(s, StopEnded(s, a), a);
  }

  lemma ChecksKeepApart(s: State, a: nat, ok: bool)
    requires Inv(s) && Apart(s)
    ensures Apart(Next(s, Checks(a, ok)))
  {
    if a < |s.attempts| && s.attempts[a].stage.Checking? {
      ChecksAreApart(s, a, ok);
    } else if a < |s.attempts| && s.attempts[a].stage.Rechecking? {
      RechecksAreApart(s, a, ok);
    }
  }

  lemma LaunchEndsKeepsApart(s: State, a: nat, ok: bool)
    requires Inv(s) && Apart(s)
    ensures Apart(Next(s, LaunchEnds(a, ok)))
  {
    if a < |s.attempts| && IsLaunching(s.attempts[a]) { LaunchIsApart(s, a, ok); }
  }

  lemma QueuedKeepsApart(s: State, step: Step)
    requires Inv(s) && Apart(s) && (step.Resume? || step.GetLock?)
    ensures Apart(Next(s, step))
  {
    match step {
      case Resume(a) => if a < |s.attempts| { ResumedIsApart(s, a); }
      case GetLock(a) => if a < |s.attempts| && s.attempts[a].stage.Locking? { GotLockIsApart(s, a); }
    }
  }

  lemma HoldEndsKeepsApart(s: State, a: nat)
    requires Inv(s) && Apart(s)
    ensures Apart(Next(s, HoldEnds(a)))
  {
    if a < |s.attempts| && s.attempts[a].stage.Holding? { SlotBackIsApart(s, GaveBack(s, a), a); }
  }

  lemma AdoptsApart(s: State, step: Step)
    requires Inv(s) && Apart(s) && (step.Adopt? || step.AdoptEnds?)
    ensures Apart(Next(s, step))
  {
    match step {
      case Adopt(v) =>
        if v !in s.lock && v !in s.running {
          OneMoreKeepsApart(s, Next(s, step), Attempt(v, Adopting, 0, 0, 0, false, None));
        }
      case AdoptEnds(a, ok) => if a < |s.attempts| && s.attempts[a].stage.Adopting? { AdoptedIsApart(s, a, ok); }
    }
  }

  lemma NextKeepsApart(s: State, step: Step)
    requires Inv(s) && Apart(s)
    ensures Apart(Next(s, step))
  {
    match step {
      case PowerStart(v) => RequestKeepsApart(s, step);
      case PowerStop(v, again) => RequestKeepsApart(s, step);
      case Restore(v, again) => RequestKeepsApart(s, step);
      case StopEnds(a) => StopEndsKeepsApart(s, a);
      case Checks(a, ok) => ChecksKeepApart(s, a, ok);
      case LaunchEnds(a, ok) => LaunchEndsKeepsApart(s, a, ok);
      case Resume(a) => QueuedKeepsApart(s, step);
      case GetLock(a) => QueuedKeepsApart(s, step);
      case HoldEnds(a) => HoldEndsKeepsApart(s, a);
      case Delete(v) => RequestKeepsApart(s, step);
      case Adopt(v) => AdoptsApart(s, step);
      case AdoptEnds(a, ok) => AdoptsApart(s, step);
      case Exit(v, phase) => NewsKeepsApart(s, Next(s, step));
      case Becomes(v, phase) => NewsKeepsApart(s, Next(s, step));
    }
  }

  // Over every run: nothing is in its checks or its launch while its server runs.
  lemma {:induction false} EveryRunKeepsApart(slots: nat, steps: seq<Step>)
    ensures Apart(After(slots, steps))
  {
    if steps != [] {
      EveryRunKeepsApart(slots, steps[..|steps| - 1]);
      NextKeepsApart(After(slots, steps[..|steps| - 1]), steps[|steps| - 1]);
    }
  }

  // An attempt that can launch: its checks pass, and it has a slot, or there is one
  // for it at once.
  ghost predicate MayLaunch(s: State, a: nat)
    requires a < |s.attempts|
  { s.attempts[a].stage.Rechecking? || (s.attempts[a].stage.Checking? && !Locked(s)) }

  // Over every run, an attempt launches in exactly one way: its checks pass with a slot
  // at hand, of a server that is not running and whose lock it has; and the
  // server is then starting.
  lemma LaunchesExactly(slots: nat, steps: seq<Step>, step: Step, a: nat)
    requires a < |After(slots, steps).attempts|
    ensures var s, t := After(slots, steps), After(slots, steps + [step]);
      && a < |t.attempts|
      && (t.attempts[a].launched != s.attempts[a].launched <==> step == Checks(a, true) && MayLaunch(s, a))
      && (t.attempts[a].launched != s.attempts[a].launched ==>
            && s.attempts[a].launched == 0 && IsLaunching(t.attempts[a])
            && s.attempts[a].server !in s.running && Is(t, s.attempts[a].server, Starting)
            && s.attempts[a].server in s.lock && s.lock[s.attempts[a].server] == a)
  {
    AfterOneMore(slots, steps, step);
    EveryRunKeepsApart(slots, steps);
    LaunchesExactlyOnce(After(slots, steps), step, a);
  }

  lemma LaunchesExactlyOnce(s: State, step: Step, a: nat)
    requires Inv(s) && Apart(s) && a < |s.attempts|
    ensures var t := Next(s, step);
      && a < |t.attempts|
      && (t.attempts[a].launched != s.attempts[a].launched <==> step == Checks(a, true) && MayLaunch(s, a))
      && (t.attempts[a].launched != s.attempts[a].launched ==>
            && s.attempts[a].launched == 0 && IsLaunching(t.attempts[a])
            && s.attempts[a].server !in s.running && Is(t, s.attempts[a].server, Starting)
            && s.attempts[a].server in s.lock && s.lock[s.attempts[a].server] == a)
  {
    NextGoesOn(s, step);
    assert GoesOnAt(s, Next(s, step), step, a);
    if step == Checks(a, true) && (s.attempts[a].stage.Checking? || s.attempts[a].stage.Rechecking?) {
      PassedChecksLaunch(s, a);
    }
  }

  lemma PassedChecksLaunch(s: State, a: nat)
    requires Inv(s) && Apart(s) && a < |s.attempts|
    requires s.attempts[a].stage.Checking? || s.attempts[a].stage.Rechecking?
    ensures var t := Next(s, Checks(a, true));
      && a < |t.attempts|
      && (t.attempts[a].launched != s.attempts[a].launched <==> MayLaunch(s, a))
      && (MayLaunch(s, a) ==> IsLaunching(t.attempts[a]) && Is(t, s.attempts[a].server, Starting))
    ensures s.attempts[a].launched == 0 && s.attempts[a].server !in s.running
    ensures s.attempts[a].server in s.lock && s.lock[s.attempts[a].server] == a
  {
    assert ApartAt(s, a) && Proper(s.attempts[a]) && HoldsLock(s.attempts[a]);
  }

  // A queued start that gets the server's lock goes on to its checks exactly when the
  // server still waits in the queue and does not run; if it does not, it is over, and
  // its slot has gone back.
  lemma TheQueuedGoOnExactly(slots: nat, steps: seq<Step>, a: nat)
    requires var s := After(slots, steps);
      a < |s.attempts| && s.attempts[a].stage.Locking? && s.attempts[a].server !in s.lock
    ensures var s, t := After(slots, steps), After(slots, steps + [GetLock(a)]);
      && var v := s.attempts[a].server;
      && a < |t.attempts|
      && var goesOn := Is(s, v, InQueue) && v !in s.running;
      && (goesOn <==> t.attempts[a].stage.Rechecking?)
      && (!goesOn <==> t.attempts[a].stage.Over?)
      && (t.attempts[a].stage.Over? ==> t.attempts[a].released == 1 && t.attempts[a].launched == 0)
  {
    AfterOneMore(slots, steps, GetLock(a));
    TheQueuedGoOn(After(slots, steps), a);
  }

  lemma TheQueuedGoOn(s: State, a: nat)
    requires Inv(s) && a < |s.attempts| && s.attempts[a].stage.Locking? && s.attempts[a].server !in s.lock
    ensures var t, v := Next(s, GetLock(a)), s.attempts[a].server;
      && a < |t.attempts|
      && var goesOn := Is(s, v, InQueue) && v !in s.running;
      && (goesOn <==> t.attempts[a].stage.Rechecking?)
      && (!goesOn <==> t.attempts[a].stage.Over?)
      && (t.attempts[a].stage.Over? ==> t.attempts[a].released == 1 && t.attempts[a].launched == 0)
  {
    assert Proper(s.attempts[a]);
  }

  // A start whose checks fail is over, with nothing launched, its slot back if it had
  // one and the lock free; one from the queue leaves its server offline.
  lemma ARefusedStartEnds(slots: nat, steps: seq<Step>, a: nat)
    requires var s := After(slots, steps);
      a < |s.attempts| && (s.attempts[a].stage.Checking? || s.attempts[a].stage.Rechecking?)
    ensures var s, t := After(slots, steps), After(slots, steps + [Checks(a, false)]);
      && var v := s.attempts[a].server;
      && IsOver(t, a, 0) && t.attempts[a].released == s.attempts[a].acquired
      && v !in t.lock && t.queued == s.queued && t.running == s.running
      && (if s.attempts[a].stage.Rechecking? then Is(t, v, Offline) else t.phase == s.phase)
  {
    AfterOneMore(slots, steps, Checks(a, false));
    Refused(After(slots, steps), a);
  }

  lemma Refused(s: State, a: nat)
    requires Inv(s) && a < |s.attempts| && (s.attempts[a].stage.Checking? || s.attempts[a].stage.Rechecking?)
    ensures var t, v := Next(s, Checks(a, false)), s.attempts[a].server;
      && IsOver(t, a, 0) && t.attempts[a].released == s.attempts[a].acquired
      && v !in t.lock && t.queued == s.queued && t.running == s.running
      && (if s.attempts[a].stage.Rechecking? then Is(t, v, Offline) else t.phase == s.phase)
  {
    assert Proper(s.attempts[a]);
    if s.attempts[a].stage.Rechecking? { RecheckRefused(s, a); }
  }

  lemma RecheckRefused(s: State, a: nat)
    requires Core(s) && a < |s.attempts| && s.attempts[a].stage.Rechecking?
    ensures var t, v := Rechecked(s, a, false), s.attempts[a].server;
      && a < |t.attempts| && t.attempts[a] == s.attempts[a].(stage := Over, released := s.attempts[a].released + 1)
      && v !in t.lock && t.queued == s.queued && t.running == s.running && Is(t, v, Offline)
  {
    var t := Unlocked(GaveBack(s, a), s.attempts[a].server);
    PassedKeepsTheRest(t, a);
  }

  lemma PassedKeepsTheRest(s: State, a: nat)
    requires LineStands(s) && a < |s.attempts| && !s.attempts[a].stage.Waiting?
    ensures var t := Passed(s);
      && a < |t.attempts| && t.attempts[a] == s.attempts[a]
      && t.lock == s.lock && t.queued == s.queued && t.running == s.running
  {}

  // A start taken out of the queue, by a deletion or a stop, never launches; a stop
  // leaves its server offline, a deletion leaves it as it was.
  lemma DeletedInTheQueueNeverLaunches(slots: nat, steps: seq<Step>, v: string, more: seq<Step>)
    requires v in After(slots, steps).queued
    ensures var a := After(slots, steps).queued[v];
      && v !in After(slots, steps + [Delete(v)]).queued
      && var later := After(slots, steps + [Delete(v)] + more);
      && a < |later.attempts| && later.attempts[a].launched == 0
  {
    var s, a := After(slots, steps), After(slots, steps).queued[v];
    AfterOneMore(slots, steps, Delete(v));
    DeletionCancels(s, v);
    StaysCancelled(slots, steps + [Delete(v)], more, a);
    assert Proper(After(slots, steps + [Delete(v)] + more).attempts[a]);
  }

  lemma DeletionCancels(s: State, v: string)
    requires Inv(s) && v in s.queued
    ensures IsCancelled(Next(s, Delete(v)), s.queued[v]) && v !in Next(s, Delete(v)).queued
  {}

  lemma AStopOfTheQueuedEnds(slots: nat, steps: seq<Step>, v: string)
    requires v in After(slots, steps).queued && v !in After(slots, steps).lock
    ensures var s, t := After(slots, steps), After(slots, steps + [PowerStop(v, false)]);
      && Is(t, v, Offline) && v !in t.queued && t.lock == s.lock && t.running == s.running
  {
    AfterOneMore(slots, steps, PowerStop(v, false));
    QueuedStopped(After(slots, steps), v);
  }

  lemma QueuedStopped(s: State, v: string)
    requires Inv(s) && v in s.queued && v !in s.lock
    ensures var t := Next(s, PowerStop(v, false));
      && Is(t, v, Offline) && v !in t.queued && t.lock == s.lock && t.running == s.running
  {
    ComesAndGoes(InPhase(Cancelled(s, v), v, Offline), v);
  }

  lemma ComesAndGoes(s: State, v: string)
    requires v !in s.lock
    ensures StopEnded(Entered(s, v, Ending(false)), |s.attempts|)
         == s.(attempts := s.attempts + [Attempt(v, Over, 0, 0, 0, false, None)])
  {
    assert s.lock[v := |s.attempts|] - {v} == s.lock;
  }
}
