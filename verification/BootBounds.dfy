// "A node boots at most max_concurrent_boots servers at a time": how that can fail,
// step by step, and that in every run without such a step it holds.

module BootBounds {
  import opened Prelude
  import opened BootQueue
  import opened BootPromises

  // --- a starting server that some attempt answers for ------------------------------------

  // On its way up with a slot, or being re-attached.
  predicate Boots(x: Attempt) { IsLaunching(x) || x.stage.Holding? || x.stage.Adopting? }

  ghost predicate BootsAt(s: State, a: nat, v: string) {
    a < |s.attempts| && s.attempts[a].server == v && Boots(s.attempts[a])
  }

  ghost predicate HasBoot(s: State, v: string) { exists a: nat :: BootsAt(s, a, v) }

  ghost predicate BootsBeside(s: State, a: nat, v: string) { exists b: nat :: b != a && BootsAt(s, b, v) }

  ghost predicate CoveredAt(s: State, v: string) { Is(s, v, Starting) ==> HasBoot(s, v) }

  ghost predicate Covered(s: State) { forall v :: CoveredAt(s, v) }

  // One attempt moves on, and no other; `v` does not begin to start.
  ghost predicate OneMoves(s: State, t: State, a: nat, v: string) {
    && a < |s.attempts| == |t.attempts| && t.attempts == s.attempts[a := t.attempts[a]]
    && (Is(t, v, Starting) ==> Is(s, v, Starting))
  }

  lemma OneMovesCovers(s: State, t: State, a: nat, v: string)
    requires OneMoves(s, t, a, v) && CoveredAt(s, v)
    requires BootsAt(s, a, v) ==> BootsAt(t, a, v) || !Is(t, v, Starting)
    ensures CoveredAt(t, v)
  {
    if Is(t, v, Starting) {
      var b: nat :| BootsAt(s, b, v);
      assert BootsAt(t, b, v);
    }
  }

  // More attempts, and none moves on.
  lemma MoreCovers(s: State, t: State, v: string)
    requires s.attempts <= t.attempts && CoveredAt(s, v) && (Is(t, v, Starting) ==> Is(s, v, Starting))
    ensures CoveredAt(t, v)
  {
    if Is(t, v, Starting) {
      var b: nat :| BootsAt(s, b, v);
      assert BootsAt(t, b, v);
    }
  }

  lemma WokenCovers(s: State, v: string)
    requires LineStands(s) && s.free > 0 && CoveredAt(s, v)
    ensures CoveredAt(Woken(s), v)
  {
    if s.line != [] { OneMovesCovers(s, Woken(s), s.line[0], v); }
  }

  lemma PassedCovers(s: State, v: string)
    requires LineStands(s) && CoveredAt(s, v)
    ensures CoveredAt(Passed(s), v)
  {
    MoreCovers(s, s.(free := s.free + 1), v);
    WokenCovers(s.(free := s.free + 1), v);
  }

  // A slot goes back, and on: `v` is not starting, or keeps an attempt.
  lemma GivenBackCovers(s: State, t: State, a: nat, v: string)
    requires LineStands(s) && a < |s.attempts| && HoldsSlot(s.attempts[a]) && CoveredAt(s, v)
    requires t == s.(attempts := GaveBack(s, a).attempts, lock := t.lock)
    requires BootsAt(s, a, v) ==> !Is(s, v, Starting)
    ensures LineStands(t) && CoveredAt(Passed(t), v)
  {
    OneMovesCovers(s, t, a, v);
    PassedCovers(t, v);
  }

  // A server whose launch or checks failed is offline; the others are as they were.
  lemma FailedCovers(s: State, a: nat, v: string)
    requires LineStands(s) && a < |s.attempts| && HoldsSlot(s.attempts[a]) && CoveredAt(s, v)
    ensures LineStands(Unlocked(GaveBack(s, a), s.attempts[a].server))
    ensures CoveredAt(InPhase(Passed(Unlocked(GaveBack(s, a), s.attempts[a].server)), s.attempts[a].server, Offline), v)
  {
    var u := s.attempts[a].server;
    var t := Unlocked(GaveBack(s, a), u);
    if v != u {
      GivenBackCovers(s, t, a, v);
      MoreCovers(Passed(t), InPhase(Passed(t), u, Offline), v);
    }
  }

  // --- the steps that leave the bound alone ------------------------------------------------

  lemma EnteredCovers(s: State, u: string, stage: Stage, v: string)
    requires CoveredAt(s, v)
    ensures CoveredAt(Entered(s, u, stage), v)
  {
    MoreCovers(s, Entered(s, u, stage), v);
  }

  lemma EndedCovers(s: State, a: nat, v: string)
    requires a < |s.attempts| && s.attempts[a].stage.Ending? && CoveredAt(s, v)
    ensures CoveredAt(StopEnded(s, a), v)
  {
    OneMovesCovers(s, StopEnded(s, a), a, v);
  }

  lemma CancelCovers(s: State, u: string, v: string)
    requires QueueStands(s) && u in s.queued && CoveredAt(s, v)
    ensures CoveredAt(Cancelled(s, u), v)
  {
    OneMovesCovers(s, Cancelled(s, u), s.queued[u], v);
  }

  lemma EndsAtOnceCovers(s: State, u: string, again: bool, v: string)
    requires CoveredAt(s, v)
    ensures CoveredAt(StopEnded(Entered(s, u, Ending(again)), |s.attempts|), v)
  {
    EnteredCovers(s, u, Ending(again), v);
    EndedCovers(Entered(s, u, Ending(again)), |s.attempts|, v);
  }

  lemma StopCovers(s: State, u: string, again: bool, v: string)
    requires QueueStands(s) && CoveredAt(s, v)
    ensures CoveredAt(StopBegun(s, u, again), v)
  {
    if u in s.queued {
      var t := InPhase(Cancelled(s, u), u, Offline);
      CancelCovers(s, u, v);
      MoreCovers(Cancelled(s, u), t, v);
      EndsAtOnceCovers(t, u, again, v);
    } else if u in s.running {
      EnteredCovers(s, u, Ending(again), v);
      MoreCovers(Entered(s, u, Ending(again)), StopBegun(s, u, again), v);
    } else {
      EndsAtOnceCovers(s, u, again, v);
    }
  }

  lemma LaunchCovers(s: State, t: State, a: nat, v: string)
    requires a < |s.attempts| == |t.attempts| && t.attempts == s.attempts[a := t.attempts[a]] && CoveredAt(s, v)
    requires IsLaunching(t.attempts[a]) && t.attempts[a].server == s.attempts[a].server
    requires v != s.attempts[a].server ==> (Is(t, v, Starting) ==> Is(s, v, Starting))
    ensures CoveredAt(t, v)
  {
    if v == s.attempts[a].server {
      assert BootsAt(t, a, v);
    } else {
      OneMovesCovers(s, t, a, v);
    }
  }

  lemma StartCheckedCovers(s: State, a: nat, ok: bool, v: string)
    requires a < |s.attempts| && s.attempts[a].stage.Checking? && CoveredAt(s, v)
    ensures CoveredAt(StartChecked(s, a, ok), v)
  {
    if ok && !Locked(s) {
      LaunchCovers(s, StartChecked(s, a, ok), a, v);
    } else {
      OneMovesCovers(s, Left(s, a), a, v);
      MoreCovers(Left(s, a), StartChecked(s, a, ok), v);
    }
  }

  lemma RecheckedCovers(s: State, a: nat, ok: bool, v: string)
    requires LineStands(s) && a < |s.attempts| && s.attempts[a].stage.Rechecking? && CoveredAt(s, v)
    ensures CoveredAt(Rechecked(s, a, ok), v)
  {
    if ok { LaunchCovers(s, Rechecked(s, a, ok), a, v); } else { FailedCovers(s, a, v); }
  }

  lemma LaunchEndedCovers(s: State, a: nat, ok: bool, v: string)
    requires LineStands(s) && a < |s.attempts| && IsLaunching(s.attempts[a]) && CoveredAt(s, v)
    ensures CoveredAt(LaunchEnded(s, a, ok), v)
  {
    if ok { OneMovesCovers(s, LaunchEnded(s, a, ok), a, v); } else { FailedCovers(s, a, v); }
  }

  lemma GrantedCovers(s: State, a: nat, v: string)
    requires LineStands(s) && a < |s.attempts| && s.attempts[a].stage.Granted? && CoveredAt(s, v)
    ensures CoveredAt(Resumed(s, a), v)
  {
    var t := Unqueued(Moved(s, a, Locking), s.attempts[a].server);
    OneMovesCovers(s, t, a, v);
    if s.free > 0 { WokenCovers(t, v); }
  }

  lemma ResumedCovers(s: State, a: nat, v: string)
    requires LineStands(s) && a < |s.attempts| && CoveredAt(s, v)
    ensures CoveredAt(Resumed(s, a), v)
  {
    if s.attempts[a].stage.Created? {
      OneMovesCovers(s, Resumed(s, a), a, v);
    } else if s.attempts[a].stage.Granted? {
      GrantedCovers(s, a, v);
    } else if s.attempts[a].stage.Revoked? {
      GivenBackCovers(s, GaveBack(s, a), a, v);
    }
  }

  lemma GotLockCovers(s: State, a: nat, v: string)
    requires LineStands(s) && a < |s.attempts| && s.attempts[a].stage.Locking? && CoveredAt(s, v)
    ensures CoveredAt(GotLock(s, a), v)
  {
    if Is(s, s.attempts[a].server, InQueue) && s.attempts[a].server !in s.running {
      OneMovesCovers(s, GotLock(s, a), a, v);
    } else {
      GivenBackCovers(s, GaveBack(s, a), a, v);
    }
  }

  lemma AdoptCovers(s: State, u: string, v: string)
    requires CoveredAt(s, v)
    ensures CoveredAt(InPhase(Entered(s, u, Adopting), u, Starting), v)
  {
    var t := InPhase(Entered(s, u, Adopting), u, Starting);
    if v == u { assert BootsAt(t, |s.attempts|, v); } else { MoreCovers(s, t, v); }
  }

  // --- the steps that do not ----------------------------------------------------------------

  // A hold that ends leaves its server's start uncounted exactly when the server is
  // still starting, as it is when boot_timeout has passed, and nothing else of it boots.
  lemma HoldEndsCovered(s: State, a: nat)
    requires LineStands(s) && Covered(s) && a < |s.attempts| && s.attempts[a].stage.Holding?
    ensures var v := s.attempts[a].server;
      Covered(Released(s, a)) <==> (Is(s, v, Starting) ==> BootsBeside(s, a, v))
  {
    var u, t := s.attempts[a].server, Released(s, a);
    if Is(s, u, Starting) && !BootsBeside(s, a, u) {
      HoldWasTheOnlyBoot(s, a);
      assert !CoveredAt(t, u);
    } else {
      forall v
        ensures CoveredAt(t, v)
      {
        assert CoveredAt(s, v);
        HoldEndsCovers(s, a, v);
      }
    }
  }

  lemma HoldEndsCovers(s: State, a: nat, v: string)
    requires LineStands(s) && CoveredAt(s, v) && a < |s.attempts| && s.attempts[a].stage.Holding?
    requires s.attempts[a].server == v && Is(s, v, Starting) ==> BootsBeside(s, a, v)
    ensures CoveredAt(Released(s, a), v)
  {
    if s.attempts[a].server == v && Is(s, v, Starting) {
      var b: nat :| b != a && BootsAt(s, b, v);
      assert BootsAt(GaveBack(s, a), b, v);
      PassedCovers(GaveBack(s, a), v);
    } else {
      GivenBackCovers(s, GaveBack(s, a), a, v);
    }
  }

  lemma HoldWasTheOnlyBoot(s: State, a: nat)
    requires LineStands(s) && a < |s.attempts| && s.attempts[a].stage.Holding?
    requires !BootsBeside(s, a, s.attempts[a].server)
    ensures !HasBoot(Released(s, a), s.attempts[a].server)
  {
    var t, v := Released(s, a), s.attempts[a].server;
    forall b: nat
      ensures !BootsAt(t, b, v)
    {
      assert b != a ==> !BootsAt(s, b, v);
    }
  }

  // A re-attached server starts uncounted exactly when it is still starting and no
  // slot is free, or somebody is ahead, and nothing else of it boots.
  lemma AdoptionEndsCovered(s: State, a: nat)
    requires Covered(s) && a < |s.attempts| && s.attempts[a].stage.Adopting?
    ensures var v := s.attempts[a].server;
      Covered(Adopted(s, a, true)) <==> (Is(s, v, Starting) && Locked(s) ==> BootsBeside(s, a, v))
  {
    var u, t := s.attempts[a].server, Adopted(s, a, true);
    if Is(s, u, Starting) && Locked(s) && !BootsBeside(s, a, u) {
      AdoptionWasTheOnlyBoot(s, a);
      assert !CoveredAt(t, u);
    } else {
      forall v
        ensures CoveredAt(t, v)
      {
        assert CoveredAt(s, v);
        AdoptionEndsCovers(s, a, true, v);
      }
    }
  }

  lemma AdoptionEndsCovers(s: State, a: nat, ok: bool, v: string)
    requires CoveredAt(s, v) && a < |s.attempts| && s.attempts[a].stage.Adopting?
    requires ok && s.attempts[a].server == v && Is(s, v, Starting) && Locked(s) ==> BootsBeside(s, a, v)
    ensures CoveredAt(Adopted(s, a, ok), v)
  {
    var t := Adopted(s, a, ok);
    if ok && s.attempts[a].server == v && Is(s, v, Starting) && Locked(s) {
      var b: nat :| b != a && BootsAt(s, b, v);
      assert BootsAt(t, b, v);
    } else {
      OneMovesCovers(s, t, a, v);
    }
  }

  lemma AdoptionWasTheOnlyBoot(s: State, a: nat)
    requires a < |s.attempts| && s.attempts[a].stage.Adopting? && Locked(s)
    requires !BootsBeside(s, a, s.attempts[a].server)
    ensures !HasBoot(Adopted(s, a, true), s.attempts[a].server)
  {
    var t, v := Adopted(s, a, true), s.attempts[a].server;
    forall b: nat
      ensures !BootsAt(t, b, v)
    {
      assert b != a ==> !BootsAt(s, b, v);
    }
  }

  // --- over every run ------------------------------------------------------------------------

  // Every step but these: a hold that ends while its server still starts, an adoption
  // of a starting server that ends with no slot to take, and news that a server
  // starts, which no code but a launch or an adoption makes.
  ghost predicate IsTimely(s: State, step: Step) {
    match step
    case HoldEnds(a) =>
      a < |s.attempts| && s.attempts[a].stage.Holding? && Is(s, s.attempts[a].server, Starting) ==>
        BootsBeside(s, a, s.attempts[a].server)
    case AdoptEnds(a, ok) =>
      ok && a < |s.attempts| && s.attempts[a].stage.Adopting? && Is(s, s.attempts[a].server, Starting) && Locked(s) ==>
        BootsBeside(s, a, s.attempts[a].server)
    case Exit(v, phase) => phase != Starting
    case Becomes(v, phase) => phase != Starting
    case _ => true
  }

  lemma PowerStartStepCovers(s: State, u: string, v: string)
    requires Inv(s) && CoveredAt(s, v)
    ensures CoveredAt(Next(s, PowerStart(u)), v)
  {
    if u !in s.lock { EndsAtOnceCovers(s, u, true, v); }
  }

  lemma PowerStopStepCovers(s: State, u: string, again: bool, v: string)
    requires Inv(s) && CoveredAt(s, v)
    ensures CoveredAt(Next(s, PowerStop(u, again)), v)
  {
    if u !in s.lock { StopCovers(s, u, again, v); }
  }

  lemma RestoreStepCovers(s: State, u: string, again: bool, v: string)
    requires Inv(s) && CoveredAt(s, v)
    ensures CoveredAt(Next(s, Restore(u, again)), v)
  {
    if u !in s.lock {
      if u in s.running { StopCovers(s, u, again, v); } else { EnteredCovers(s, u, Ending(false), v); }
    }
  }

  lemma StopEndsStepCovers(s: State, a: nat, v: string)
    requires Inv(s) && CoveredAt(s, v)
    ensures CoveredAt(Next(s, StopEnds(a)), v)
  {
    if a < |s.attempts| && s.attempts[a].stage.Ending? { EndedCovers(s, a, v); }
  }

  lemma ChecksStepCovers(s: State, a: nat, ok: bool, v: string)
    requires Inv(s) && CoveredAt(s, v)
    ensures CoveredAt(Next(s, Checks(a, ok)), v)
  {
    if a < |s.attempts| && s.attempts[a].stage.Checking? {
      StartCheckedCovers(s, a, ok, v);
    } else if a < |s.attempts| && s.attempts[a].stage.Rechecking? {
      RecheckedCovers(s, a, ok, v);
    }
  }

  lemma LaunchEndsStepCovers(s: State, a: nat, ok: bool, v: string)
    requires Inv(s) && CoveredAt(s, v)
    ensures CoveredAt(Next(s, LaunchEnds(a, ok)), v)
  {
    if a < |s.attempts| && IsLaunching(s.attempts[a]) { LaunchEndedCovers(s, a, ok, v); }
  }

  lemma ResumeStepCovers(s: State, a: nat, v: string)
    requires Inv(s) && CoveredAt(s, v)
    ensures CoveredAt(Next(s, Resume(a)), v)
  {
    if a < |s.attempts| { ResumedCovers(s, a, v); }
  }

  lemma GetLockStepCovers(s: State, a: nat, v: string)
    requires Inv(s) && CoveredAt(s, v)
    ensures CoveredAt(Next(s, GetLock(a)), v)
  {
    if a < |s.attempts| && s.attempts[a].stage.Locking? { GotLockCovers(s, a, v); }
  }

  lemma HoldEndsStepCovers(s: State, a: nat, v: string)
    requires Inv(s) && CoveredAt(s, v) && IsTimely(s, HoldEnds(a))
    ensures CoveredAt(Next(s, HoldEnds(a)), v)
  {
    if a < |s.attempts| && s.attempts[a].stage.Holding? { HoldEndsCovers(s, a, v); }
  }

  lemma DeleteStepCovers(s: State, u: string, v: string)
    requires Inv(s) && CoveredAt(s, v)
    ensures CoveredAt(Next(s, Delete(u)), v)
  {
    if u in s.queued { CancelCovers(s, u, v); }
  }

  lemma AdoptStepCovers(s: State, u: string, v: string)
    requires Inv(s) && CoveredAt(s, v)
    ensures CoveredAt(Next(s, Adopt(u)), v)
  {
    if u !in s.lock && u !in s.running { AdoptCovers(s, u, v); }
  }

  lemma AdoptEndsStepCovers(s: State, a: nat, ok: bool, v: string)
    requires Inv(s) && CoveredAt(s, v) && IsTimely(s, AdoptEnds(a, ok))
    ensures CoveredAt(Next(s, AdoptEnds(a, ok)), v)
  {
    if a < |s.attempts| && s.attempts[a].stage.Adopting? { AdoptionEndsCovers(s, a, ok, v); }
  }

  lemma NewsCovers(s: State, u: string, phase: Phase, v: string)
    requires Inv(s) && CoveredAt(s, v) && phase != Starting
    ensures CoveredAt(Next(s, Exit(u, phase)), v) && CoveredAt(Next(s, Becomes(u, phase)), v)
  {
    MoreCovers(s, Next(s, Exit(u, phase)), v);
    MoreCovers(s, Next(s, Becomes(u, phase)), v);
  }

  lemma StepCovers(s: State, step: Step, v: string)
    requires Inv(s) && CoveredAt(s, v) && IsTimely(s, step)
    ensures CoveredAt(Next(s, step), v)
  {
    match step {
      case PowerStart(u) => PowerStartStepCovers(s, u, v);
      case PowerStop(u, again) => PowerStopStepCovers(s, u, again, v);
      case Restore(u, again) => RestoreStepCovers(s, u, again, v);
      case StopEnds(a) => StopEndsStepCovers(s, a, v);
      case Checks(a, ok) => ChecksStepCovers(s, a, ok, v);
      case LaunchEnds(a, ok) => LaunchEndsStepCovers(s, a, ok, v);
      case Resume(a) => ResumeStepCovers(s, a, v);
      case GetLock(a) => GetLockStepCovers(s, a, v);
      case HoldEnds(a) => HoldEndsStepCovers(s, a, v);
      case Delete(u) => DeleteStepCovers(s, u, v);
      case Adopt(u) => AdoptStepCovers(s, u, v);
      case AdoptEnds(a, ok) => AdoptEndsStepCovers(s, a, ok, v);
      case Exit(u, phase) => NewsCovers(s, u, phase, v);
      case Becomes(u, phase) => NewsCovers(s, u, phase, v);
    }
  }

  ghost predicate IsTimelyAt(slots: nat, steps: seq<Step>, i: nat)
    requires i < |steps|
  {
    IsTimely(After(slots, steps[..i]), steps[i])
  }

  ghost predicate AllTimely(slots: nat, steps: seq<Step>) {
    forall i :: 0 <= i < |steps| ==> IsTimelyAt(slots, steps, i)
  }

  lemma TimelySoFar(slots: nat, steps: seq<Step>)
    requires AllTimely(slots, steps) && steps != []
    ensures AllTimely(slots, steps[..|steps| - 1])
    ensures IsTimely(After(slots, steps[..|steps| - 1]), steps[|steps| - 1])
  {
    var init := steps[..|steps| - 1];
    forall i | 0 <= i < |init|
      ensures IsTimelyAt(slots, init, i)
    {
      assert init[..i] == steps[..i] && init[i] == steps[i];
      assert IsTimelyAt(slots, steps, i);
    }
    assert IsTimelyAt(slots, steps, |init|);
  }

  // In every run of timely steps, some attempt answers for each server that starts.
  lemma {:induction false} EveryStartIsCovered(slots: nat, steps: seq<Step>, v: string)
    requires AllTimely(slots, steps)
    ensures CoveredAt(After(slots, steps), v)
  {
    if steps != [] {
      TimelySoFar(slots, steps);
      EveryStartIsCovered(slots, steps[..|steps| - 1], v);
      StepCovers(After(slots, steps[..|steps| - 1]), steps[|steps| - 1], v);
    }
  }

  // --- counting servers ----------------------------------------------------------------------

  // The servers of the attempts that hold a slot.
  function Servers(xs: seq<Attempt>): set<string> {
    if xs == [] then {}
    else Servers(xs[..|xs| - 1]) + if HoldsSlot(xs[|xs| - 1]) then {xs[|xs| - 1].server} else {}
  }

  lemma {:induction false} ServersAreBounded(xs: seq<Attempt>)
    ensures |Servers(xs)| <= Held(xs)
  {
    if xs != [] {
      var init, x := xs[..|xs| - 1], xs[|xs| - 1];
      ServersAreBounded(init);
      if HoldsSlot(x) { OneMoreAtMost(Servers(init), x.server); }
    }
  }

  lemma OneMoreAtMost(vs: set<string>, v: string)
    ensures |vs + {v}| <= |vs| + 1
  {
    if v in vs { assert vs + {v} == vs; }
  }

  lemma {:induction false} IsAmongServers(xs: seq<Attempt>, a: nat)
    requires a < |xs| && HoldsSlot(xs[a])
    ensures xs[a].server in Servers(xs)
  {
    if a < |xs| - 1 { IsAmongServers(xs[..|xs| - 1], a); }
  }

  lemma SubsetIsSmaller(a: set<string>, b: set<string>)
    requires a <= b
    ensures |a| <= |b|
  {
    assert |b| == |a| + |b - a| by { assert b == a + (b - a); }
  }

  ghost predicate IsAdopted(s: State, v: string) {
    exists a :: 0 <= a < |s.attempts| && s.attempts[a].server == v && s.attempts[a].stage.Adopting?
  }

  lemma StartHasASlot(s: State, v: string)
    requires CoveredAt(s, v) && Is(s, v, Starting) && !IsAdopted(s, v)
    ensures v in Servers(s.attempts)
  {
    var a: nat :| BootsAt(s, a, v);
    IsAmongServers(s.attempts, a);
  }

  // So with timely steps the node keeps its word: never more servers starting than
  // max_concurrent_boots, those just being re-attached aside.
  lemma NoMoreStartThanSlots(slots: nat, steps: seq<Step>, vs: set<string>)
    requires AllTimely(slots, steps)
    requires forall v :: v in vs ==> Is(After(slots, steps), v, Starting) && !IsAdopted(After(slots, steps), v)
    ensures |vs| <= slots
  {
    var s := After(slots, steps);
    forall v | v in vs
      ensures v in Servers(s.attempts)
    {
      EveryStartIsCovered(slots, steps, v);
      StartHasASlot(s, v);
    }
    SubsetIsSmaller(vs, Servers(s.attempts));
    ServersAreBounded(s.attempts);
    NoSlotIsLost(slots, steps);
  }
}
