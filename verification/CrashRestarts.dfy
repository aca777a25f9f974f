// What the supervisor makes of a server's exit (agent/servers.py, `_exited`): a
// stop that was asked for, a clean stop of its own, or a crash, which is followed
// by a restart unless it is one of too many.

module CrashRestarts {
  import opened Prelude

  const BACKOFF: seq<nat> := [5, 15, 45]
  const LOOP_WINDOW: real := 600.0
  const LOOP_COUNT: nat := 3
  const REMEMBERED: nat := 10

  // One exit, with the settings in force when it comes.
  datatype Exit = Exit(
    code: Option<int>, oom: bool, now: real,
    asked: bool,               // `srv.stopping`
    wasUp: bool,               // the state was "running"
    ignored: set<int>, restarts: bool)

  datatype Outcome = Stopped | StoppedItself | Crash(recent: nat, restartIn: Option<nat>) | CrashLoop(recent: nat)

  predicate StopsItself(e: Exit) {
    e.wasUp && e.code.Some? && !e.oom && e.code.value in e.ignored
  }

  predicate IsCrash(e: Exit) { !e.asked && !StopsItself(e) }

  predicate IsRecent(t: real, now: real) { now - t < LOOP_WINDOW }

  function Recent(times: seq<real>, now: real): seq<real> {
    if times == [] then []
    else
      var rest := Recent(times[..|times| - 1], now);
      if IsRecent(times[|times| - 1], now) then rest + [times[|times| - 1]] else rest
  }

  // `crashes` is a deque of the last ten crash times.
  function CrashesAfter(crashes: seq<real>, e: Exit): seq<real> {
    if IsCrash(e) then Last(crashes + [e.now], REMEMBERED) else crashes
  }

  function Verdict(recent: nat, restarts: bool): Outcome
    requires recent > 0
  {
    if recent >= LOOP_COUNT then CrashLoop(recent)
    else if restarts then Crash(recent, Some(BACKOFF[if recent < |BACKOFF| then recent - 1 else |BACKOFF| - 1]))
    else Crash(recent, None)
  }

  function OutcomeOf(crashes: seq<real>, e: Exit): Outcome {
    if e.asked then Stopped
    else if StopsItself(e) then StoppedItself
    else
      assert Last(crashes + [e.now], REMEMBERED) != [];
      Verdict(|Recent(Last(crashes + [e.now], REMEMBERED), e.now)|, e.restarts)
  }

  // --- a server's exits, one after another -----------------------------------------

  function Remembered(trace: seq<Exit>): seq<real> {
    if trace == [] then [] else CrashesAfter(Remembered(trace[..|trace| - 1]), trace[|trace| - 1])
  }

  function OutcomeAt(trace: seq<Exit>, i: nat): Outcome
    requires i < |trace|
  {
    OutcomeOf(Remembered(trace[..i]), trace[i])
  }

  predicate Restarts(trace: seq<Exit>, i: nat)
    requires i < |trace|
  {
    OutcomeAt(trace, i).Crash? && OutcomeAt(trace, i).restartIn.Some?
  }

  predicate InOrder(trace: seq<Exit>) {
    forall i, j :: 0 <= i <= j < |trace| ==> trace[i].now <= trace[j].now
  }

  // How many of the exits were crashes in the ten minutes up to `now`: what the
  // decision is meant to rest on, with nothing forgotten.
  function CrashCount(trace: seq<Exit>, now: real): nat {
    if trace == [] then 0
    else
      var e := trace[|trace| - 1];
      CrashCount(trace[..|trace| - 1], now) + if IsCrash(e) && now - e.now < 600.0 then 1 else 0
  }

  function CrashTimes(trace: seq<Exit>): seq<real> {
    if trace == [] then []
    else
      var rest := CrashTimes(trace[..|trace| - 1]);
      if IsCrash(trace[|trace| - 1]) then rest + [trace[|trace| - 1].now] else rest
  }

  lemma {:induction false} RemembersTheLastTen(trace: seq<Exit>)
    ensures Remembered(trace) == Last(CrashTimes(trace), REMEMBERED)
  {
    if trace != [] {
      var init, e := trace[..|trace| - 1], trace[|trace| - 1];
      RemembersTheLastTen(init);
      LastOfAppend(CrashTimes(init), [e.now], REMEMBERED);
    }
  }

  lemma {:induction false} CountsTheTimes(trace: seq<Exit>, now: real)
    ensures CrashCount(trace, now) == |Recent(CrashTimes(trace), now)|
  {
    if trace != [] {
      var init, e := trace[..|trace| - 1], trace[|trace| - 1];
      CountsTheTimes(init, now);
      if IsCrash(e) {
        var times := CrashTimes(init) + [e.now];
        assert times[..|times| - 1] == CrashTimes(init);
      }
    }
  }

  ghost predicate Sorted(times: seq<real>) {
    forall i, j :: 0 <= i <= j < |times| ==> times[i] <= times[j]
  }

  lemma {:induction false} TimesAreSorted(trace: seq<Exit>)
    requires InOrder(trace)
    ensures Sorted(CrashTimes(trace))
    ensures trace != [] ==> forall t :: t in CrashTimes(trace) ==> t <= trace[|trace| - 1].now
  {
    if trace != [] {
      var init := trace[..|trace| - 1];
      TimesAreSorted(init);
      forall t | t in CrashTimes(trace)
        ensures t <= trace[|trace| - 1].now
      {
        if t in CrashTimes(init) { assert t <= init[|init| - 1].now <= trace[|trace| - 1].now; }
      }
      assert forall i :: 0 <= i < |CrashTimes(trace)| ==> CrashTimes(trace)[i] in CrashTimes(trace);
    }
  }

  // In order, the recent times are the newest ones, from `p` on.
  ghost predicate RecentFrom(times: seq<real>, now: real, p: nat) {
    && p <= |times|
    && (forall i :: 0 <= i < p ==> !IsRecent(times[i], now))
    && (forall i :: p <= i < |times| ==> IsRecent(times[i], now))
  }

  lemma {:induction false} RecentBegins(times: seq<real>, now: real) returns (p: nat)
    requires Sorted(times)
    ensures RecentFrom(times, now, p)
  {
    p := |times|;
    while p > 0 && IsRecent(times[p - 1], now)
      invariant p <= |times|
      invariant forall i :: p <= i < |times| ==> IsRecent(times[i], now)
    {
      p := p - 1;
    }
    if p > 0 { assert forall i :: 0 <= i < p ==> times[i] <= times[p - 1]; }
  }

  lemma {:induction false} RecentSize(times: seq<real>, now: real, p: nat)
    requires RecentFrom(times, now, p)
    ensures |Recent(times, now)| == |times| - p
  {
    if times != [] { RecentSize(times[..|times| - 1], now, if p == |times| then p - 1 else p); }
  }

  // What is forgotten is only ever the eleventh recent crash or older.
  lemma ForgettingIsHarmless(times: seq<real>, now: real)
    requires Sorted(times)
    ensures |Recent(Last(times, REMEMBERED), now)|
         == if |Recent(times, now)| <= REMEMBERED then |Recent(times, now)| else REMEMBERED
  {
    var p := RecentBegins(times, now);
    RecentSize(times, now, p);
    var cut := if |times| <= REMEMBERED then 0 else |times| - REMEMBERED;
    RecentSize(Last(times, REMEMBERED), now, if p <= cut then 0 else p - cut);
  }

  // With a clock that never goes back, ten remembered crashes decide exactly as
  // all of them would: a crash is restarted when it is the first or the second
  // in ten minutes, after 5 or 15 seconds, and not when it is the third or more.
  // (So the third delay, 45 seconds, is never used.)
  lemma CrashesAreCounted(trace: seq<Exit>, i: nat)
    requires InOrder(trace) && i < |trace| && IsCrash(trace[i])
    ensures var n, out := CrashCount(trace[..i + 1], trace[i].now), OutcomeAt(trace, i);
      && n >= 1
      && (out.CrashLoop? <==> n >= 3)
      && (out.Crash? <==> n < 3)
      && (Restarts(trace, i) <==> trace[i].restarts && n < 3)
      && (Restarts(trace, i) ==> out.restartIn.value == if n == 1 then 5 else 15)
  {
    var now, past := trace[i].now, trace[..i + 1];
    assert past[..i] == trace[..i];
    RemembersTheLastTen(past);
    TimesAreSorted(past);
    CountsTheTimes(past, now);
    ForgettingIsHarmless(CrashTimes(past), now);
    assert Remembered(past) == Last(Remembered(trace[..i]) + [now], REMEMBERED);
  }

  lemma {:induction false} CountGrows(trace: seq<Exit>, i: nat, j: nat, now: real)
    requires i <= j <= |trace|
    ensures CrashCount(trace[..i], now) <= CrashCount(trace[..j], now)
    ensures i < j && IsCrash(trace[i]) && IsRecent(trace[i].now, now) ==>
      CrashCount(trace[..i], now) < CrashCount(trace[..j], now)
    decreases j - i
  {
    if i < j {
      CountGrows(trace, i + 1, j, now);
      assert trace[..i + 1][..i] == trace[..i];
    }
  }

  // No ten minutes ever see a third automatic restart.
  lemma AtMostTwoRestartsInAWindow(trace: seq<Exit>, i: nat, j: nat, k: nat)
    requires InOrder(trace) && i < j < k < |trace|
    requires Restarts(trace, i) && Restarts(trace, j) && Restarts(trace, k)
    ensures trace[k].now - trace[i].now >= LOOP_WINDOW
  {
    if trace[k].now - trace[i].now < LOOP_WINDOW {
      var now := trace[k].now;
      assert trace[i].now <= trace[j].now <= now;
      CountGrows(trace, i, j, now);
      CountGrows(trace, j, k, now);
      CountGrows(trace, k, k + 1, now);
      CrashesAreCounted(trace, k);
    }
  }

  // Over every run: an exit is a stop exactly when it was asked for; a clean stop of its
  // own exactly when a server that was up, and was not killed for its memory, ends with a
  // code it counts as clean; and a crash otherwise. Only crashes are remembered.
  lemma WhichExitsAreCrashes(trace: seq<Exit>, i: nat)
    requires i < |trace|
    ensures var out, e := OutcomeAt(trace, i), trace[i];
      && (out.Stopped? <==> e.asked)
      && (out.StoppedItself? <==> !e.asked && e.wasUp && !e.oom && e.code.Some? && e.code.value in e.ignored)
      && (out.Crash? || out.CrashLoop? <==>
            !e.asked && (!e.wasUp || e.oom || e.code.None? || e.code.value !in e.ignored))
      && (if out.Crash? || out.CrashLoop? then
            Remembered(trace[..i + 1]) == Last(Remembered(trace[..i]) + [e.now], 10)
          else Remembered(trace[..i + 1]) == Remembered(trace[..i]))
  {
    assert trace[..i + 1][..i] == trace[..i];
  }

  // --- the class ---------------------------------------------------------------------

  datatype Phase = Offline | Starting | Running | Stopping | Crashed | Installing

  class Server {
    var crashes: seq<real>
    var phase: Phase
    var up: bool                 // `running is not None`
    var stopping: bool
    var asked: bool              // last_exit["asked"]

    constructor ()
      ensures crashes == Remembered([]) && !up && phase == Offline
    {
      crashes, phase, up, stopping, asked := [], Offline, false, false, false;
    }

    method CountRecent(now: real) returns (recent: nat)
      ensures recent == |Recent(crashes, now)|
    {
      recent := 0;
      var n := 0;
      while n < |crashes|
        invariant n <= |crashes|
        invariant recent == |Recent(crashes[..n], now)|
      {
        assert crashes[..n + 1][..n] == crashes[..n];
        if now - crashes[n] < LOOP_WINDOW { recent := recent + 1; }
        n := n + 1;
      }
      assert crashes[..n] == crashes;
    }

    // `_exited`. A restart is scheduled when the outcome says so.
    method Exited(code: Option<int>, oom: bool, now: real, ignored: set<int>, restarts: bool) returns (out: Outcome)
      modifies this
      ensures var e := Exit(code, oom, now, old(stopping), old(phase) == Running, ignored, restarts);
        && out == OutcomeOf(old(crashes), e)
        && crashes == CrashesAfter(old(crashes), e)
        && asked == !IsCrash(e)
        && phase == (if IsCrash(e) then Crashed else Offline)
      ensures !up && stopping == old(stopping)
      ensures phase == Crashed <==>
        !old(stopping) && (old(phase) != Running || oom || code.None? || code.value !in ignored)
    {
      var wasUp := phase == Running;
      up := false;
      asked := stopping;
      if stopping {
        phase := Offline;
        return Stopped;
      }
      if wasUp && code.Some? && !oom && code.value in ignored {
        phase := Offline;
        asked := true;
        return StoppedItself;
      }
      Remember(now);
      phase := Crashed;
      out := Judge(now, restarts);
    }

    method Remember(now: real)
      modifies `crashes
      ensures crashes == Last(old(crashes) + [now], REMEMBERED)
    {
      crashes := crashes + [now];
      if |crashes| > REMEMBERED { crashes := crashes[|crashes| - REMEMBERED..]; }
    }

    method Judge(now: real, restarts: bool) returns (out: Outcome)
      requires Recent(crashes, now) != []
      ensures out == Verdict(|Recent(crashes, now)|, restarts)
    {
      var recent := CountRecent(now);
      if recent >= LOOP_COUNT { return CrashLoop(recent); }
      if !restarts { return Crash(recent, None); }
      out := Crash(recent, Some(BACKOFF[if recent < |BACKOFF| then recent - 1 else |BACKOFF| - 1]));
    }
  }
}
