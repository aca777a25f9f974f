// A server's lock as the node has it: whoever finds it held waits in line for it, a
// queued start goes from the queue to that line in one stretch, and the first in line
// is the next to have it. Every run of this node is a run of the boot queue, where
// whoever waits may be next; what it adds is which stops are lost.

module BootDoors {
  import opened Prelude
  import opened BootQueue
  import opened BootPromises
  import opened BootLimits

  // What somebody waits for a server's lock to do.
  datatype Wait = ForStart | ForStop(again: bool) | ForRestore(again: bool) | ForQueued(a: nat)

  datatype Node = Node(boot: State, doors: map<string, seq<Wait>>)

  function Door(n: Node, v: string): seq<Wait> { if v in n.doors then n.doors[v] else [] }

  // A lock that is free and that nobody waits for is had at once.
  predicate IsOpen(n: Node, v: string) { v !in n.boot.lock && Door(n, v) == [] }

  function Joins(n: Node, v: string, what: Wait): Node { n.(doors := n.doors[v := Door(n, v) + [what]]) }

  function StepOf(v: string, what: Wait): Step {
    match what
    case ForStart => PowerStart(v)
    case ForStop(again) => PowerStop(v, again)
    case ForRestore(again) => Restore(v, again)
    case ForQueued(a) => GetLock(a)
  }

  // A request for a server's lock, the lock's coming to the first in line, and
  // everything else.
  datatype Event = Ask(v: string, what: Wait) | Turn(v: string) | Go(step: Step)

  predicate NeedsLock(step: Step) { step.PowerStart? || step.PowerStop? || step.Restore? || step.GetLock? }

  predicate LeavesQueue(s: State, t: State, a: nat) {
    a < |s.attempts| && a < |t.attempts| && !s.attempts[a].stage.Locking? && t.attempts[a].stage.Locking?
  }

  // `_start_queued`: out of the queue and to the lock, which it has at once if it can.
  ghost function Resumes(n: Node, a: nat): Node
    requires Inv(n.boot)
  {
    var t := Next(n.boot, Resume(a));
    NextKeeps(n.boot, Resume(a));
    if !LeavesQueue(n.boot, t, a) then n.(boot := t)
    else if IsOpen(n.(boot := t), t.attempts[a].server) then n.(boot := Next(t, GetLock(a)))
    else Joins(n.(boot := t), t.attempts[a].server, ForQueued(a))
  }

  ghost function Happens(n: Node, e: Event): Node
    requires Inv(n.boot)
  {
    match e
    case Ask(v, what) =>
      if what.ForQueued? then n
      else if IsOpen(n, v) then n.(boot := Next(n.boot, StepOf(v, what)))
      else Joins(n, v, what)
    case Turn(v) =>
      if v in n.boot.lock || Door(n, v) == [] then n
      else Node(Next(n.boot, StepOf(v, Door(n, v)[0])), n.doors[v := Door(n, v)[1..]])
    case Go(step) =>
      if step.Resume? then Resumes(n, step.a)
      else if NeedsLock(step) || (step.Adopt? && !IsOpen(n, step.v)) then n
      else n.(boot := Next(n.boot, step))
  }

  lemma HappensKeeps(n: Node, e: Event)
    requires Inv(n.boot)
    ensures Inv(Happens(n, e).boot)
  {
    match e {
      case Ask(v, what) => NextKeeps(n.boot, StepOf(v, what));
      case Turn(v) => if Door(n, v) != [] { NextKeeps(n.boot, StepOf(v, Door(n, v)[0])); }
      case Go(step) =>
        NextKeeps(n.boot, step);
        if step.Resume? { NextKeeps(Next(n.boot, step), GetLock(step.a)); }
    }
  }

  ghost function NodeAfter(slots: nat, events: seq<Event>): (n: Node)
    ensures Inv(n.boot)
  {
    if events == [] then Node(After(slots, []), map[])
    else
      var n := NodeAfter(slots, events[..|events| - 1]);
      HappensKeeps(n, events[|events| - 1]);
      Happens(n, events[|events| - 1])
  }

  // --- a run of the node is a run of the boot queue ----------------------------------------

  ghost function StepsOf(n: Node, e: Event): seq<Step>
    requires Inv(n.boot)
  {
    match e
    case Ask(v, what) => if !what.ForQueued? && IsOpen(n, v) then [StepOf(v, what)] else []
    case Turn(v) => if v in n.boot.lock || Door(n, v) == [] then [] else [StepOf(v, Door(n, v)[0])]
    case Go(step) =>
      if step.Resume? then
        var t := Next(n.boot, step);
        if LeavesQueue(n.boot, t, step.a) && IsOpen(n.(boot := t), t.attempts[step.a].server)
        then [step] + [GetLock(step.a)] else [step]
      else if NeedsLock(step) || (step.Adopt? && !IsOpen(n, step.v)) then []
      else [step]
  }

  lemma HappensInSteps(slots: nat, steps: seq<Step>, n: Node, e: Event)
    requires After(slots, steps) == n.boot
    ensures After(slots, steps + StepsOf(n, e)) == Happens(n, e).boot
  {
    StepsOfHappens(n, e);
    RunsOn(slots, steps, StepsOf(n, e), n.boot, Happens(n, e).boot);
  }

  // `t` is `s` some steps on, two at most.
  ghost predicate FewOn(s: State, more: seq<Step>, t: State)
    requires Inv(s)
  {
    || (more == [] && t == s)
    || (|more| == 1 && t == Next(s, more[0]))
    || (|more| == 2 && Inv(Next(s, more[0])) && t == Next(Next(s, more[0]), more[1]))
  }

  lemma RunsOn(slots: nat, steps: seq<Step>, more: seq<Step>, s: State, t: State)
    requires After(slots, steps) == s && FewOn(s, more, t)
    ensures After(slots, steps + more) == t
  {
    if more == [] {
      assert steps + more == steps;
    } else if |more| == 1 {
      OneOn(slots, steps, more);
    } else {
      TwoOn(slots, steps, more);
    }
  }

  lemma OneOn(slots: nat, steps: seq<Step>, more: seq<Step>)
    requires |more| == 1
    ensures After(slots, steps + more) == Next(After(slots, steps), more[0])
  {
    assert more == [more[0]];
    AfterOneMore(slots, steps, more[0]);
  }

  lemma TwoOn(slots: nat, steps: seq<Step>, more: seq<Step>)
    requires |more| == 2
    ensures var s := Next(After(slots, steps), more[0]);
      Inv(s) && After(slots, steps + more) == Next(s, more[1])
  {
    assert steps + more == steps + [more[0]] + [more[1]];
    AfterTwoMore(slots, steps, more[0], more[1]);
  }

  lemma AfterTwoMore(slots: nat, steps: seq<Step>, one: Step, two: Step)
    ensures After(slots, steps + [one] + [two]) == Next(After(slots, steps + [one]), two)
    ensures After(slots, steps + [one]) == Next(After(slots, steps), one)
  {
    AfterOneMore(slots, steps, one);
    AfterOneMore(slots, steps + [one], two);
  }

  lemma StepsOfHappens(n: Node, e: Event)
    requires Inv(n.boot)
    ensures FewOn(n.boot, StepsOf(n, e), Happens(n, e).boot)
  {
    if e.Go? && e.step.Resume? { ResumeStepsOfHappens(n, e.step.a); }
  }

  lemma ResumeStepsOfHappens(n: Node, a: nat)
    requires Inv(n.boot)
    ensures FewOn(n.boot, StepsOf(n, Go(Resume(a))), Resumes(n, a).boot)
  {
    NextKeeps(n.boot, Resume(a));
  }

  // So whatever holds after every run of the boot queue holds after every run of the
  // node: the slots, the queue, the bounds.
  lemma {:induction false} EveryNodeRunIsARun(slots: nat, events: seq<Event>) returns (steps: seq<Step>)
    ensures After(slots, steps) == NodeAfter(slots, events).boot
  {
    if events == [] { return []; }
    var init, e := events[..|events| - 1], events[|events| - 1];
    steps := EveryNodeRunIsARun(slots, init);
    HappensInSteps(slots, steps, NodeAfter(slots, init), e);
    steps := steps + StepsOf(NodeAfter(slots, init), e);
  }

  // --- who is on the way from the queue to the lock ---------------------------------------

  predicate KeptOne(x: Attempt, y: Attempt) { y.server == x.server && (y.stage.Locking? <==> x.stage.Locking?) }

  // But for one attempt, nobody comes to wait for a lock as a queued start, or ceases to.
  ghost predicate KeptBut(s: State, t: State, a: nat) {
    && |s.attempts| <= |t.attempts|
    && (forall b :: 0 <= b < |s.attempts| && b != a ==> KeptOne(s.attempts[b], t.attempts[b]))
    && (forall b :: |s.attempts| <= b < |t.attempts| ==> !t.attempts[b].stage.Locking?)
    && (a < |s.attempts| ==> t.attempts[a].server == s.attempts[a].server)
  }

  ghost predicate Kept(s: State, t: State) {
    && |s.attempts| <= |t.attempts|
    && (forall b :: 0 <= b < |s.attempts| ==> KeptOne(s.attempts[b], t.attempts[b]))
    && (forall b :: |s.attempts| <= b < |t.attempts| ==> !t.attempts[b].stage.Locking?)
  }

  lemma KeptOn(s: State, t: State, u: State)
    requires Kept(s, t) && Kept(t, u)
    ensures Kept(s, u)
  {}

  lemma KeptButOn(s: State, t: State, u: State, a: nat)
    requires KeptBut(s, t, a) && Kept(t, u)
    ensures KeptBut(s, u, a)
  {}

  lemma OneKept(s: State, t: State, a: nat)
    requires a < |s.attempts| == |t.attempts| && t.attempts == s.attempts[a := t.attempts[a]]
    requires KeptOne(s.attempts[a], t.attempts[a])
    ensures Kept(s, t)
  {}

  lemma OneMoreKept(s: State, t: State, x: Attempt)
    requires t.attempts == s.attempts + [x] && !x.stage.Locking?
    ensures Kept(s, t)
  {}

  lemma WokenKept(s: State)
    requires LineStands(s) && s.free > 0
    ensures Kept(s, Woken(s))
  {
    if s.line != [] { OneKept(s, Woken(s), s.line[0]); }
  }

  lemma PassedKept(s: State, t: State)
    requires LineStands(t) && Kept(s, t)
    ensures Kept(s, Passed(t))
  {
    WokenKept(t.(free := t.free + 1));
  }

  lemma GivenBackKept(s: State, t: State, a: nat)
    requires LineStands(s) && a < |s.attempts| && HoldsSlot(s.attempts[a]) && !s.attempts[a].stage.Locking?
    requires t == s.(attempts := GaveBack(s, a).attempts, lock := t.lock)
    ensures LineStands(t) && Kept(s, Passed(t))
  {
    OneKept(s, t, a);
    PassedKept(s, t);
  }

  lemma EndedKept(s: State, a: nat)
    requires a < |s.attempts| && s.attempts[a].stage.Ending?
    ensures Kept(s, StopEnded(s, a))
  {
    OneKept(s, StopEnded(s, a), a);
  }

  lemma EndsAtOnceKept(s: State, v: string, again: bool)
    ensures Kept(s, StopEnded(Entered(s, v, Ending(again)), |s.attempts|))
  {
    var t := Entered(s, v, Ending(again));
    OneMoreKept(s, t, t.attempts[|s.attempts|]);
    EndedKept(t, |s.attempts|);
    KeptOn(s, t, StopEnded(t, |s.attempts|));
  }

  lemma CancelKept(s: State, v: string)
    requires QueueStands(s) && v in s.queued
    ensures Kept(s, Cancelled(s, v))
  {
    OneKept(s, Cancelled(s, v), s.queued[v]);
  }

  lemma StopKept(s: State, v: string, again: bool)
    requires QueueStands(s)
    ensures Kept(s, StopBegun(s, v, again))
  {
    if v in s.queued {
      var t := InPhase(Cancelled(s, v), v, Offline);
      CancelKept(s, v);
      EndsAtOnceKept(t, v, again);
      KeptOn(s, t, StopBegun(s, v, again));
    } else if v in s.running {
      OneMoreKept(s, StopBegun(s, v, again), StopBegun(s, v, again).attempts[|s.attempts|]);
    } else {
      EndsAtOnceKept(s, v, again);
    }
  }

  lemma StartCheckedKept(s: State, a: nat, ok: bool)
    requires a < |s.attempts| && s.attempts[a].stage.Checking?
    ensures Kept(s, StartChecked(s, a, ok))
  {
    if ok && !Locked(s) {
      OneKept(s, StartChecked(s, a, ok), a);
    } else {
      OneKept(s, Left(s, a), a);
      if ok {
        var t := StartChecked(s, a, ok);
        OneMoreKept(Left(s, a), t, t.attempts[|s.attempts|]);
        KeptOn(s, Left(s, a), t);
      }
    }
  }

  lemma RecheckedKept(s: State, a: nat, ok: bool)
    requires LineStands(s) && a < |s.attempts| && s.attempts[a].stage.Rechecking?
    ensures Kept(s, Rechecked(s, a, ok))
  {
    if ok {
      OneKept(s, Rechecked(s, a, ok), a);
    } else {
      GivenBackKept(s, Unlocked(GaveBack(s, a), s.attempts[a].server), a);
    }
  }

  lemma LaunchEndedKept(s: State, a: nat, ok: bool)
    requires LineStands(s) && a < |s.attempts| && IsLaunching(s.attempts[a])
    ensures Kept(s, LaunchEnded(s, a, ok))
  {
    if ok {
      OneKept(s, LaunchEnded(s, a, ok), a);
    } else {
      GivenBackKept(s, Unlocked(GaveBack(s, a), s.attempts[a].server), a);
    }
  }

  lemma OneKeptBut(s: State, t: State, a: nat)
    requires a < |s.attempts| == |t.attempts| && t.attempts == s.attempts[a := t.attempts[a]]
    requires t.attempts[a].server == s.attempts[a].server
    ensures KeptBut(s, t, a)
  {}

  lemma GrantedKept(s: State, a: nat)
    requires LineStands(s) && a < |s.attempts| && s.attempts[a].stage.Granted?
    ensures KeptBut(s, Resumed(s, a), a)
  {
    var t := Unqueued(Moved(s, a, Locking), s.attempts[a].server);
    OneKeptBut(s, t, a);
    if t.free > 0 { WokenKept(t); }
    KeptButOn(s, t, Resumed(s, a), a);
  }

  lemma ResumedKept(s: State, a: nat)
    requires LineStands(s) && a < |s.attempts|
    ensures KeptBut(s, Resumed(s, a), a)
  {
    if s.attempts[a].stage.Created? {
      OneKeptBut(s, Resumed(s, a), a);
    } else if s.attempts[a].stage.Granted? {
      GrantedKept(s, a);
    } else if s.attempts[a].stage.Revoked? {
      GivenBackKept(s, GaveBack(s, a), a);
    }
  }

  lemma GotLockKept(s: State, a: nat)
    requires LineStands(s) && a < |s.attempts| && s.attempts[a].stage.Locking?
    ensures KeptBut(s, GotLock(s, a), a) && !GotLock(s, a).attempts[a].stage.Locking?
  {
    if !(Is(s, s.attempts[a].server, InQueue) && s.attempts[a].server !in s.running) {
      var t := GaveBack(s, a);
      PassedKept(t, t);
      KeptButOn(s, t, Passed(t), a);
    }
  }

  lemma PowerStartStepKept(s: State, v: string)
    requires Inv(s)
    ensures Kept(s, Next(s, PowerStart(v)))
  {
    if v !in s.lock { EndsAtOnceKept(s, v, true); }
  }

  lemma PowerStopStepKept(s: State, v: string, again: bool)
    requires Inv(s)
    ensures Kept(s, Next(s, PowerStop(v, again)))
  {
    if v !in s.lock { StopKept(s, v, again); }
  }

  lemma RestoreStepKept(s: State, v: string, again: bool)
    requires Inv(s)
    ensures Kept(s, Next(s, Restore(v, again)))
  {
    if v !in s.lock {
      if v in s.running {
        StopKept(s, v, again);
      } else {
        OneMoreKept(s, RestoreBegun(s, v, again), RestoreBegun(s, v, again).attempts[|s.attempts|]);
      }
    }
  }

  lemma StopEndsStepKept(s: State, a: nat)
    requires Inv(s)
    ensures Kept(s, Next(s, StopEnds(a)))
  {
    if a < |s.attempts| && s.attempts[a].stage.Ending? { EndedKept(s, a); }
  }

  lemma ChecksStepKept(s: State, a: nat, ok: bool)
    requires Inv(s)
    ensures Kept(s, Next(s, Checks(a, ok)))
  {
    if a < |s.attempts| && s.attempts[a].stage.Checking? {
      StartCheckedKept(s, a, ok);
    } else if a < |s.attempts| && s.attempts[a].stage.Rechecking? {
      RecheckedKept(s, a, ok);
    }
  }

  lemma LaunchEndsStepKept(s: State, a: nat, ok: bool)
    requires Inv(s)
    ensures Kept(s, Next(s, LaunchEnds(a, ok)))
  {
    if a < |s.attempts| && IsLaunching(s.attempts[a]) { LaunchEndedKept(s, a, ok); }
  }

  lemma HoldEndsStepKept(s: State, a: nat)
    requires Inv(s)
    ensures Kept(s, Next(s, HoldEnds(a)))
  {
    if a < |s.attempts| && s.attempts[a].stage.Holding? { GivenBackKept(s, GaveBack(s, a), a); }
  }

  lemma DeleteStepKept(s: State, v: string)
    requires Inv(s)
    ensures Kept(s, Next(s, Delete(v)))
  {
    if v in s.queued { CancelKept(s, v); }
  }

  lemma AdoptStepKept(s: State, v: string)
    requires Inv(s)
    ensures Kept(s, Next(s, Adopt(v)))
  {
    if v !in s.lock && v !in s.running { OneMoreKept(s, Next(s, Adopt(v)), Next(s, Adopt(v)).attempts[|s.attempts|]); }
  }

  lemma AdoptEndsStepKept(s: State, a: nat, ok: bool)
    requires Inv(s)
    ensures Kept(s, Next(s, AdoptEnds(a, ok)))
  {
    if a < |s.attempts| && s.attempts[a].stage.Adopting? { OneKept(s, Adopted(s, a, ok), a); }
  }

  // Only `Resume` and `GetLock` bring anybody to a lock's line, or away from it.
  lemma StepKept(s: State, step: Step)
    requires Inv(s) && !step.Resume? && !step.GetLock?
    ensures Kept(s, Next(s, step))
  {
    match step {
      case PowerStart(v) => PowerStartStepKept(s, v);
      case PowerStop(v, again) => PowerStopStepKept(s, v, again);
      case Restore(v, again) => RestoreStepKept(s, v, again);
      case StopEnds(a) => StopEndsStepKept(s, a);
      case Checks(a, ok) => ChecksStepKept(s, a, ok);
      case LaunchEnds(a, ok) => LaunchEndsStepKept(s, a, ok);
      case HoldEnds(a) => HoldEndsStepKept(s, a);
      case Delete(v) => DeleteStepKept(s, v);
      case Adopt(v) => AdoptStepKept(s, v);
      case AdoptEnds(a, ok) => AdoptEndsStepKept(s, a, ok);
      case Exit(v, phase) =>
      case Becomes(v, phase) =>
      case _ =>
    }
  }

  // --- the line for a lock ------------------------------------------------------------------

  predicate IsLocking(s: State, a: nat, v: string) {
    a < |s.attempts| && s.attempts[a].server == v && s.attempts[a].stage.Locking?
  }

  ghost predicate NoneTwice(line: seq<Wait>) {
    forall i, j :: 0 <= i < j < |line| && line[i].ForQueued? ==> line[i] != line[j]
  }

  // In line for a server's lock are starts of it that are out of the queue, each once.
  ghost predicate LineOf(n: Node, v: string) {
    && NoneTwice(Door(n, v))
    && forall a :: ForQueued(a) in Door(n, v) ==> IsLocking(n.boot, a, v)
  }

  ghost predicate InLine(n: Node, a: nat) {
    a < |n.boot.attempts| && n.boot.attempts[a].stage.Locking? ==> ForQueued(a) in Door(n, n.boot.attempts[a].server)
  }

  // And every start that is out of the queue without the lock is in line for it.
  ghost predicate DoorInv(n: Node) {
    && (forall v :: LineOf(n, v))
    && forall a: nat :: InLine(n, a)
  }

  // The same but for one start, on its way in.
  ghost predicate DoorInvBut(n: Node, a: nat) {
    && (forall v :: LineOf(n, v) && ForQueued(a) !in Door(n, v))
    && forall b: nat :: b != a ==> InLine(n, b)
  }

  lemma KeptKeepsDoors(n: Node, t: State)
    requires DoorInv(n) && Kept(n.boot, t)
    ensures DoorInv(n.(boot := t))
  {
    var m := n.(boot := t);
    forall v
      ensures LineOf(m, v)
    {
      assert LineOf(n, v);
    }
    forall a: nat
      ensures InLine(m, a)
    {
      assert InLine(n, a);
    }
  }

  lemma LeavingIsBut(n: Node, t: State, a: nat)
    requires DoorInv(n) && KeptBut(n.boot, t, a) && a < |n.boot.attempts| && !n.boot.attempts[a].stage.Locking?
    ensures DoorInvBut(n.(boot := t), a)
  {
    var m := n.(boot := t);
    forall v
      ensures LineOf(m, v) && ForQueued(a) !in Door(m, v)
    {
      assert LineOf(n, v);
    }
    forall b: nat | b != a
      ensures InLine(m, b)
    {
      assert InLine(n, b);
    }
  }

  lemma ButIsIn(n: Node, t: State, a: nat)
    requires DoorInvBut(n, a) && KeptBut(n.boot, t, a) && a < |n.boot.attempts| && !t.attempts[a].stage.Locking?
    ensures DoorInv(n.(boot := t))
  {
    var m := n.(boot := t);
    forall v
      ensures LineOf(m, v)
    {
      assert LineOf(n, v) && ForQueued(a) !in Door(n, v);
    }
    forall b: nat
      ensures InLine(m, b)
    {
      if b != a { assert InLine(n, b); }
    }
  }

  lemma JoinedLine(n: Node, v: string, what: Wait)
    requires LineOf(n, v) && what !in Door(n, v)
    requires what.ForQueued? ==> IsLocking(n.boot, what.a, v)
    ensures LineOf(Joins(n, v, what), v)
  {}

  lemma JoinsKeepsDoors(n: Node, v: string, what: Wait)
    requires DoorInv(n) && !what.ForQueued?
    ensures DoorInv(Joins(n, v, what))
  {
    var m := Joins(n, v, what);
    forall u
      ensures LineOf(m, u)
    {
      assert LineOf(n, u);
    }
    forall a: nat
      ensures InLine(m, a)
    {
      assert InLine(n, a);
    }
  }

  lemma JoinsTheLine(n: Node, a: nat)
    requires a < |n.boot.attempts| && n.boot.attempts[a].stage.Locking? && DoorInvBut(n, a)
    ensures DoorInv(Joins(n, n.boot.attempts[a].server, ForQueued(a)))
  {
    var v := n.boot.attempts[a].server;
    var m := Joins(n, v, ForQueued(a));
    forall u
      ensures LineOf(m, u)
    {
      assert LineOf(n, u);
      if u == v { JoinedLine(n, v, ForQueued(a)); }
    }
    forall b: nat
      ensures InLine(m, b)
    {
      if b != a { assert InLine(n, b); }
    }
  }

  function Called(n: Node, v: string): Node
    requires Door(n, v) != []
  { n.(doors := n.doors[v := Door(n, v)[1..]]) }

  lemma CalledLine(n: Node, v: string, u: string)
    requires Door(n, v) != [] && LineOf(n, u)
    ensures LineOf(Called(n, v), u)
  {
    var line, rest := Door(n, v), Door(Called(n, v), v);
    assert forall i :: 0 <= i < |rest| ==> rest[i] == line[i + 1];
  }

  lemma StillInLine(n: Node, v: string, a: nat)
    requires Door(n, v) != [] && InLine(n, a) && Door(n, v)[0] != ForQueued(a)
    ensures InLine(Called(n, v), a)
  {
    var line := Door(n, v);
    assert line == [line[0]] + line[1..];
  }

  lemma RequestIsCalled(n: Node, v: string)
    requires DoorInv(n) && Door(n, v) != [] && !Door(n, v)[0].ForQueued?
    ensures DoorInv(Called(n, v))
  {
    forall u
      ensures LineOf(Called(n, v), u)
    {
      assert LineOf(n, u);
      CalledLine(n, v, u);
    }
    forall a: nat
      ensures InLine(Called(n, v), a)
    {
      assert InLine(n, a);
      StillInLine(n, v, a);
    }
  }

  lemma StartIsCalled(n: Node, v: string)
    requires DoorInv(n) && Door(n, v) != [] && Door(n, v)[0].ForQueued?
    ensures DoorInvBut(Called(n, v), Door(n, v)[0].a) && IsLocking(n.boot, Door(n, v)[0].a, v)
  {
    var a := Door(n, v)[0].a;
    assert LineOf(n, v) && Door(n, v)[0] in Door(n, v);
    forall u
      ensures LineOf(Called(n, v), u) && ForQueued(a) !in Door(Called(n, v), u)
    {
      assert LineOf(n, u);
      CalledLine(n, v, u);
      GoneFromLine(n, v, u);
    }
    forall b: nat | b != a
      ensures InLine(Called(n, v), b)
    {
      assert InLine(n, b);
      StillInLine(n, v, b);
    }
  }

  lemma GoneFromLine(n: Node, v: string, u: string)
    requires LineOf(n, v) && LineOf(n, u) && Door(n, v) != [] && Door(n, v)[0].ForQueued?
    ensures Door(n, v)[0] !in Door(Called(n, v), u)
  {
    var line := Door(n, v);
    assert line[0] in line;
    assert forall i :: 0 <= i < |line[1..]| ==> line[1..][i] == line[i + 1];
  }

  // --- over every run of the node -----------------------------------------------------------

  lemma StartComesIn(n: Node, a: nat)
    requires Inv(n.boot) && DoorInvBut(n, a) && a < |n.boot.attempts| && n.boot.attempts[a].stage.Locking?
    requires n.boot.attempts[a].server !in n.boot.lock
    ensures DoorInv(n.(boot := Next(n.boot, GetLock(a))))
  {
    GotLockKept(n.boot, a);
    ButIsIn(n, GotLock(n.boot, a), a);
  }

  lemma ResumesKeepsDoors(n: Node, a: nat)
    requires Inv(n.boot) && DoorInv(n)
    ensures DoorInv(Resumes(n, a))
  {
    var t := Next(n.boot, Resume(a));
    NextKeeps(n.boot, Resume(a));
    if LeavesQueue(n.boot, t, a) {
      ResumedKept(n.boot, a);
      LeavingIsBut(n, t, a);
      if IsOpen(n.(boot := t), t.attempts[a].server) {
        StartComesIn(n.(boot := t), a);
      } else {
        JoinsTheLine(n.(boot := t), a);
      }
    } else {
      StayingIsKept(n.boot, a);
      KeptKeepsDoors(n, t);
    }
  }

  lemma StayingIsKept(s: State, a: nat)
    requires Inv(s) && !LeavesQueue(s, Next(s, Resume(a)), a)
    ensures Kept(s, Next(s, Resume(a)))
  {
    if a < |s.attempts| {
      ResumedKept(s, a);
      if s.attempts[a].stage.Locking? { NothingToResume(s, a); }
    }
  }

  lemma NothingToResume(s: State, a: nat)
    requires LineStands(s) && a < |s.attempts| && s.attempts[a].stage.Locking?
    ensures Resumed(s, a) == s
  {}

  lemma TurnKeepsDoors(n: Node, v: string)
    requires Inv(n.boot) && DoorInv(n)
    ensures DoorInv(Happens(n, Turn(v)))
  {
    if v !in n.boot.lock && Door(n, v) != [] {
      var what := Door(n, v)[0];
      if what.ForQueued? {
        StartIsCalled(n, v);
        StartComesIn(Called(n, v), what.a);
      } else {
        RequestIsCalled(n, v);
        StepKept(n.boot, StepOf(v, what));
        KeptKeepsDoors(Called(n, v), Next(n.boot, StepOf(v, what)));
      }
    }
  }

  lemma AskKeepsDoors(n: Node, v: string, what: Wait)
    requires Inv(n.boot) && DoorInv(n)
    ensures DoorInv(Happens(n, Ask(v, what)))
  {
    if !what.ForQueued? {
      if IsOpen(n, v) {
        StepKept(n.boot, StepOf(v, what));
        KeptKeepsDoors(n, Next(n.boot, StepOf(v, what)));
      } else {
        JoinsKeepsDoors(n, v, what);
      }
    }
  }

  lemma HappensKeepsDoors(n: Node, e: Event)
    requires Inv(n.boot) && DoorInv(n)
    ensures DoorInv(Happens(n, e))
  {
    match e {
      case Ask(v, what) => AskKeepsDoors(n, v, what);
      case Turn(v) => TurnKeepsDoors(n, v);
      case Go(step) =>
        if step.Resume? {
          ResumesKeepsDoors(n, step.a);
        } else if !step.GetLock? {
          StepKept(n.boot, step);
          KeptKeepsDoors(n, Next(n.boot, step));
        }
    }
  }

  lemma {:induction false} EveryRunKeepsDoors(slots: nat, events: seq<Event>)
    ensures DoorInv(NodeAfter(slots, events))
  {
    if events != [] {
      EveryRunKeepsDoors(slots, events[..|events| - 1]);
      HappensKeepsDoors(NodeAfter(slots, events[..|events| - 1]), events[|events| - 1]);
    }
  }

  // First come, first served: whatever happens, those in line stay in their order, one
  // leaves it only from its head, and whoever comes goes to its end.
  lemma FirstComeFirstServed(n: Node, e: Event, v: string)
    requires Inv(n.boot)
    ensures var line, later := Door(n, v), Door(Happens(n, e), v);
      || later == line
      || (line != [] && v !in n.boot.lock && later == line[1..])
      || (exists what :: later == line + [what])
  {}

  // --- which stops are lost ------------------------------------------------------------------

  // A start of `v` that nobody has stopped and that has not had the lock.
  predicate IsComing(s: State, a: nat, v: string) {
    a < |s.attempts| && s.attempts[a].server == v && (IsPending(s.attempts[a]) || s.attempts[a].stage.Locking?)
  }

  // When a stop's turn for the lock comes, the starts of its server it passes by are
  // exactly those behind it in the line; it cancels all the others.
  lemma StopPassesByExactlyThoseBehind(slots: nat, events: seq<Event>, v: string, a: nat)
    requires var n := NodeAfter(slots, events);
      v !in n.boot.lock && Door(n, v) != [] && Door(n, v)[0].ForStop? && IsComing(n.boot, a, v)
    ensures var n := NodeAfter(slots, events);
      var s := Happens(n, Turn(v)).boot;
      && a < |s.attempts|
      && (s.attempts[a].cancelled <==> ForQueued(a) !in Door(n, v)[1..])
      && (!s.attempts[a].cancelled ==> s.attempts[a] == n.boot.attempts[a])
  {
    EveryRunKeepsDoors(slots, events);
    StopPassesThemBy(NodeAfter(slots, events), v, a);
  }

  lemma StopPassesThemBy(n: Node, v: string, a: nat)
    requires Inv(n.boot) && DoorInv(n)
    requires v !in n.boot.lock && Door(n, v) != [] && Door(n, v)[0].ForStop? && IsComing(n.boot, a, v)
    ensures var s := Happens(n, Turn(v)).boot;
      && a < |s.attempts|
      && (s.attempts[a].cancelled <==> ForQueued(a) !in Door(n, v)[1..])
      && (!s.attempts[a].cancelled ==> s.attempts[a] == n.boot.attempts[a])
  {
    var again := Door(n, v)[0].again;
    IsBehind(n, v, a);
    StopReachesExactlyTheQueued(n.boot, v, again, a);
    if n.boot.attempts[a].stage.Locking? { StopPassesBy(n.boot, v, again, a); }
  }

  lemma IsBehind(n: Node, v: string, a: nat)
    requires DoorInv(n) && Door(n, v) != [] && !Door(n, v)[0].ForQueued? && IsComing(n.boot, a, v)
    ensures ForQueued(a) in Door(n, v)[1..] <==> n.boot.attempts[a].stage.Locking?
  {
    var line := Door(n, v);
    assert LineOf(n, v) && InLine(n, a);
    assert line == [line[0]] + line[1..];
  }

  // A stop that need not wait for the lock passes nobody by.
  lemma AStopAtOnceReachesAll(slots: nat, events: seq<Event>, v: string, again: bool, a: nat)
    requires IsOpen(NodeAfter(slots, events), v) && IsComing(NodeAfter(slots, events).boot, a, v)
    ensures var s := Happens(NodeAfter(slots, events), Ask(v, ForStop(again))).boot;
      a < |s.attempts| && s.attempts[a].cancelled
  {
    var n := NodeAfter(slots, events);
    EveryRunKeepsDoors(slots, events);
    assert InLine(n, a);
    StopReachesExactlyTheQueued(n.boot, v, again, a);
  }

  // --- a run that shows it --------------------------------------------------------------------

  lemma NodeOneMore(slots: nat, events: seq<Event>, e: Event, n: Node, m: Node)
    requires NodeAfter(slots, events) == n && Happens(n, e) == m
    ensures NodeAfter(slots, events + [e]) == m
  {
    assert (events + [e])[..|events|] == events;
  }

  lemma ThenAsks(slots: nat, events: seq<Event>, v: string, what: Wait, n: Node, t: State)
    requires NodeAfter(slots, events) == n && IsOpen(n, v) && !what.ForQueued? && Next(n.boot, StepOf(v, what)) == t
    ensures NodeAfter(slots, events + [Ask(v, what)]) == n.(boot := t)
  {
    NodeOneMore(slots, events, Ask(v, what), n, n.(boot := t));
  }

  lemma ThenWaits(slots: nat, events: seq<Event>, v: string, what: Wait, n: Node)
    requires NodeAfter(slots, events) == n && !IsOpen(n, v) && !what.ForQueued?
    ensures NodeAfter(slots, events + [Ask(v, what)]) == Joins(n, v, what)
  {
    NodeOneMore(slots, events, Ask(v, what), n, Joins(n, v, what));
  }

  lemma ThenGoes(slots: nat, events: seq<Event>, step: Step, n: Node, t: State)
    requires NodeAfter(slots, events) == n && Next(n.boot, step) == t
    requires !NeedsLock(step) && !step.Adopt?
    requires step.Resume? ==> !LeavesQueue(n.boot, t, step.a)
    ensures NodeAfter(slots, events + [Go(step)]) == n.(boot := t)
  {
    NodeOneMore(slots, events, Go(step), n, n.(boot := t));
  }

  lemma ThenLeavesQueue(slots: nat, events: seq<Event>, a: nat, v: string, n: Node, t: State)
    requires NodeAfter(slots, events) == n && Next(n.boot, Resume(a)) == t
    requires LeavesQueue(n.boot, t, a) && t.attempts[a].server == v && v in t.lock
    ensures NodeAfter(slots, events + [Go(Resume(a))]) == Joins(n.(boot := t), v, ForQueued(a))
  {
    NodeOneMore(slots, events, Go(Resume(a)), n, Joins(n.(boot := t), v, ForQueued(a)));
  }

  lemma ThenTurns(slots: nat, events: seq<Event>, v: string, n: Node, t: State)
    requires NodeAfter(slots, events) == n && v !in n.boot.lock && Door(n, v) != []
    requires Next(n.boot, StepOf(v, Door(n, v)[0])) == t
    ensures NodeAfter(slots, events + [Turn(v)]) == Called(n, v).(boot := t)
  {
    NodeOneMore(slots, events, Turn(v), n, Called(n, v).(boot := t));
  }

  // The last in line has its turn.
  lemma ThenStartTurns(slots: nat, events: seq<Event>, v: string, a: nat, n: Node, t: State)
    requires NodeAfter(slots, events) == n && v !in n.boot.lock && Door(n, v) == [ForQueued(a)]
    requires Next(n.boot, GetLock(a)) == t
    ensures NodeAfter(slots, events + [Turn(v)]) == Node(t, n.doors[v := []])
  {
    ThenTurns(slots, events, v, n, t);
    assert Door(n, v)[1..] == [];
  }

  // On one slot: a server waits for another's to come free; a restore of it has its
  // lock; a stop of it waits for the lock; the start, handed the slot, waits behind.
  function StopWaiting(v: string): map<string, seq<Wait>> { map[v := [ForStop(false)]] }

  function BothWaiting(v: string): map<string, seq<Wait>> { map[v := [ForStop(false), ForQueued(2)]] }

  function StartWaiting(v: string): map<string, seq<Wait>> { map[v := [ForQueued(2)]] }

  function OtherChecking(u: string, v: string): State {
    var s := OneLaunching(u);
    s.(attempts := s.attempts + [Attempt(v, Checking, 0, 0, 0, false, None)], lock := map[u := 0, v := 1])
  }

  function OtherQueued(u: string, v: string): State {
    var x, y := Attempt(u, Launching, 1, 0, 1, false, None), Attempt(v, Over, 0, 0, 0, false, None);
    State(0, [], [x, y, Attempt(v, Created, 0, 0, 0, false, None)], map[v := 2], map[u := 0],
          map[u := Starting, v := InQueue], {}, 0, 0)
  }

  function OtherWaiting(u: string, v: string): State {
    var s := OtherQueued(u, v);
    s.(line := [2], tickets := 1, attempts := s.attempts[2 := Attempt(v, Waiting, 0, 0, 0, false, Some(0))])
  }

  function OtherRestored(u: string, v: string): State {
    var s := OtherWaiting(u, v);
    s.(attempts := s.attempts + [Attempt(v, Ending(false), 0, 0, 0, false, None)], lock := map[u := 0, v := 3])
  }

  function FirstFailed(u: string, v: string): State {
    var x, y := Attempt(u, Over, 1, 1, 1, false, None), Attempt(v, Over, 0, 0, 0, false, None);
    var z, w := Attempt(v, Granted, 1, 0, 0, false, Some(0)), Attempt(v, Ending(false), 0, 0, 0, false, None);
    State(0, [], [x, y, z, w], map[v := 2], map[v := 3], map[u := Offline, v := InQueue], {}, 1, 1)
  }

  function OutOfTheQueue(u: string, v: string): State {
    var s := FirstFailed(u, v);
    s.(attempts := s.attempts[2 := Attempt(v, Locking, 1, 0, 0, false, Some(0))], queued := map[])
  }

  function RestoreOver(u: string, v: string): State {
    var s := OutOfTheQueue(u, v);
    s.(attempts := s.attempts[3 := Attempt(v, Over, 0, 0, 0, false, None)], lock := map[])
  }

  function StopOver(u: string, v: string): State {
    var s := RestoreOver(u, v);
    s.(attempts := s.attempts + [Attempt(v, Over, 0, 0, 0, false, None)])
  }

  function LockedAnyway(u: string, v: string): State {
    var s := StopOver(u, v);
    s.(attempts := s.attempts[2 := Attempt(v, Rechecking, 1, 0, 0, false, Some(0))], lock := map[v := 2])
  }

  function LaunchedAnyway(u: string, v: string): State {
    var s := LockedAnyway(u, v);
    s.(attempts := s.attempts[2 := Attempt(v, LaunchingQueued, 1, 0, 1, false, Some(0))],
       phase := map[u := Offline, v := Starting])
  }

  lemma OtherAsks(u: string, v: string)
    requires u != v && LineStands(OneLaunching(u)) && QueueStands(OneLaunching(u))
    ensures Next(OneLaunching(u), PowerStart(v)) == OtherChecking(u, v)
    ensures LineStands(OtherChecking(u, v)) && QueueStands(OtherChecking(u, v))
  {
    assert StartBegun(Entered(OneLaunching(u), v, Ending(true)), 1) == OtherChecking(u, v);
  }

  lemma OtherQueues(u: string, v: string)
    requires u != v && LineStands(OtherChecking(u, v)) && QueueStands(OtherChecking(u, v))
    ensures Next(OtherChecking(u, v), Checks(1, true)) == OtherQueued(u, v)
    ensures LineStands(OtherQueued(u, v)) && QueueStands(OtherQueued(u, v))
  {
    assert StartChecked(OtherChecking(u, v), 1, true) == OtherQueued(u, v);
  }

  lemma OtherJoins(u: string, v: string)
    requires u != v && LineStands(OtherQueued(u, v)) && QueueStands(OtherQueued(u, v))
    ensures Next(OtherQueued(u, v), Resume(2)) == OtherWaiting(u, v)
    ensures LineStands(OtherWaiting(u, v)) && QueueStands(OtherWaiting(u, v))
  {
    assert Resumed(OtherQueued(u, v), 2) == OtherWaiting(u, v);
  }

  lemma RestoreBegins(u: string, v: string)
    requires u != v && LineStands(OtherWaiting(u, v)) && QueueStands(OtherWaiting(u, v))
    ensures Next(OtherWaiting(u, v), Restore(v, false)) == OtherRestored(u, v)
    ensures LineStands(OtherRestored(u, v)) && QueueStands(OtherRestored(u, v))
  {
    assert RestoreBegun(OtherWaiting(u, v), v, false) == OtherRestored(u, v);
  }

  function SlotBack(u: string, v: string): State {
    var s := OtherRestored(u, v);
    s.(attempts := s.attempts[0 := Attempt(u, Over, 1, 1, 1, false, None)], lock := map[v := 3])
  }

  lemma FirstGivesBack(u: string, v: string)
    requires u != v
    ensures Unlocked(GaveBack(OtherRestored(u, v), 0), u) == SlotBack(u, v)
    ensures LineStands(SlotBack(u, v))
  {}

  lemma OtherIsHanded(u: string, v: string)
    requires u != v && LineStands(SlotBack(u, v))
    ensures InPhase(Passed(SlotBack(u, v)), u, Offline) == FirstFailed(u, v)
  {}

  lemma FirstFails(u: string, v: string)
    requires u != v && LineStands(OtherRestored(u, v)) && QueueStands(OtherRestored(u, v))
    ensures Next(OtherRestored(u, v), LaunchEnds(0, false)) == FirstFailed(u, v)
    ensures LineStands(FirstFailed(u, v)) && QueueStands(FirstFailed(u, v))
  {
    FirstGivesBack(u, v);
    OtherIsHanded(u, v);
  }

  lemma OtherComesOut(u: string, v: string)
    requires u != v && LineStands(FirstFailed(u, v)) && QueueStands(FirstFailed(u, v))
    ensures Next(FirstFailed(u, v), Resume(2)) == OutOfTheQueue(u, v)
    ensures LineStands(OutOfTheQueue(u, v)) && QueueStands(OutOfTheQueue(u, v))
  {
    assert Resumed(FirstFailed(u, v), 2) == OutOfTheQueue(u, v);
  }

  lemma RestoreEnds(u: string, v: string)
    requires u != v && LineStands(OutOfTheQueue(u, v)) && QueueStands(OutOfTheQueue(u, v))
    ensures Next(OutOfTheQueue(u, v), StopEnds(3)) == RestoreOver(u, v)
    ensures LineStands(RestoreOver(u, v)) && QueueStands(RestoreOver(u, v))
  {
    assert StopEnded(OutOfTheQueue(u, v), 3) == RestoreOver(u, v);
  }

  lemma StopComesTooLate(u: string, v: string)
    requires u != v && LineStands(RestoreOver(u, v)) && QueueStands(RestoreOver(u, v))
    ensures Next(RestoreOver(u, v), PowerStop(v, false)) == StopOver(u, v)
    ensures LineStands(StopOver(u, v)) && QueueStands(StopOver(u, v))
  {
    assert StopBegun(RestoreOver(u, v), v, false) == StopOver(u, v);
  }

  lemma LocksAnyway(u: string, v: string)
    requires u != v && LineStands(StopOver(u, v)) && QueueStands(StopOver(u, v))
    ensures Next(StopOver(u, v), GetLock(2)) == LockedAnyway(u, v)
    ensures LineStands(LockedAnyway(u, v)) && QueueStands(LockedAnyway(u, v))
  {
    assert GotLock(StopOver(u, v), 2) == LockedAnyway(u, v);
  }

  lemma LaunchesAnyway(u: string, v: string)
    requires u != v && LineStands(LockedAnyway(u, v)) && QueueStands(LockedAnyway(u, v))
    ensures Next(LockedAnyway(u, v), Checks(2, true)) == LaunchedAnyway(u, v)
    ensures LineStands(LaunchedAnyway(u, v)) && QueueStands(LaunchedAnyway(u, v))
  {
    assert Rechecked(LockedAnyway(u, v), 2, true) == LaunchedAnyway(u, v);
  }

  lemma EventFirstAsks(slots: nat, events: seq<Event>, u: string)
    requires NodeAfter(slots, events) == Node(Start(1), map[])
    ensures NodeAfter(slots, events + [Ask(u, ForStart)]) == Node(OneStarting(u), map[])
  {
    FirstAsks(u);
    ThenAsks(slots, events, u, ForStart, Node(Start(1), map[]), OneStarting(u));
  }

  lemma EventFirstLaunches(slots: nat, events: seq<Event>, u: string)
    requires NodeAfter(slots, events) == Node(OneStarting(u), map[])
    ensures NodeAfter(slots, events + [Go(Checks(0, true))]) == Node(OneLaunching(u), map[])
  {
    FirstLaunches(u);
    ThenGoes(slots, events, Checks(0, true), Node(OneStarting(u), map[]), OneLaunching(u));
  }

  lemma EventOtherAsks(slots: nat, events: seq<Event>, u: string, v: string)
    requires u != v && NodeAfter(slots, events) == Node(OneLaunching(u), map[])
    ensures NodeAfter(slots, events + [Ask(v, ForStart)]) == Node(OtherChecking(u, v), map[])
  {
    OtherAsks(u, v);
    ThenAsks(slots, events, v, ForStart, Node(OneLaunching(u), map[]), OtherChecking(u, v));
  }

  lemma EventOtherQueues(slots: nat, events: seq<Event>, u: string, v: string)
    requires u != v && NodeAfter(slots, events) == Node(OtherChecking(u, v), map[])
    ensures NodeAfter(slots, events + [Go(Checks(1, true))]) == Node(OtherQueued(u, v), map[])
  {
    OtherQueues(u, v);
    ThenGoes(slots, events, Checks(1, true), Node(OtherChecking(u, v), map[]), OtherQueued(u, v));
  }

  lemma EventOtherJoins(slots: nat, events: seq<Event>, u: string, v: string)
    requires u != v && NodeAfter(slots, events) == Node(OtherQueued(u, v), map[])
    ensures NodeAfter(slots, events + [Go(Resume(2))]) == Node(OtherWaiting(u, v), map[])
  {
    OtherJoins(u, v);
    ThenGoes(slots, events, Resume(2), Node(OtherQueued(u, v), map[]), OtherWaiting(u, v));
  }

  lemma EventRestore(slots: nat, events: seq<Event>, u: string, v: string)
    requires u != v && NodeAfter(slots, events) == Node(OtherWaiting(u, v), map[])
    ensures NodeAfter(slots, events + [Ask(v, ForRestore(false))]) == Node(OtherRestored(u, v), map[])
  {
    RestoreBegins(u, v);
    ThenAsks(slots, events, v, ForRestore(false), Node(OtherWaiting(u, v), map[]), OtherRestored(u, v));
  }

  lemma EventStop(slots: nat, events: seq<Event>, u: string, v: string)
    requires u != v && NodeAfter(slots, events) == Node(OtherRestored(u, v), map[])
    ensures NodeAfter(slots, events + [Ask(v, ForStop(false))]) == Node(OtherRestored(u, v), StopWaiting(v))
  {
    ThenWaits(slots, events, v, ForStop(false), Node(OtherRestored(u, v), map[]));
    assert [] + [ForStop(false)] == [ForStop(false)];
  }

  lemma EventFirstFails(slots: nat, events: seq<Event>, u: string, v: string)
    requires u != v && NodeAfter(slots, events) == Node(OtherRestored(u, v), StopWaiting(v))
    ensures NodeAfter(slots, events + [Go(LaunchEnds(0, false))]) == Node(FirstFailed(u, v), StopWaiting(v))
  {
    FirstFails(u, v);
    ThenGoes(slots, events, LaunchEnds(0, false), Node(OtherRestored(u, v), StopWaiting(v)), FirstFailed(u, v));
  }

  lemma OtherLeavesQueue(u: string, v: string)
    requires u != v
    ensures LeavesQueue(FirstFailed(u, v), OutOfTheQueue(u, v), 2)
    ensures OutOfTheQueue(u, v).attempts[2].server == v && v in OutOfTheQueue(u, v).lock
  {}

  lemma BothWait(s: State, v: string)
    ensures Joins(Node(s, StopWaiting(v)), v, ForQueued(2)) == Node(s, BothWaiting(v))
  {
    assert [ForStop(false)] + [ForQueued(2)] == [ForStop(false), ForQueued(2)];
  }

  lemma EventOtherComesOut(slots: nat, events: seq<Event>, u: string, v: string)
    requires u != v && NodeAfter(slots, events) == Node(FirstFailed(u, v), StopWaiting(v))
    ensures NodeAfter(slots, events + [Go(Resume(2))]) == Node(OutOfTheQueue(u, v), BothWaiting(v))
  {
    var n, t := Node(FirstFailed(u, v), StopWaiting(v)), OutOfTheQueue(u, v);
    OtherComesOut(u, v);
    OtherLeavesQueue(u, v);
    BothWait(t, v);
    ThenLeavesQueue(slots, events, 2, v, n, t);
  }

  lemma EventRestoreEnds(slots: nat, events: seq<Event>, u: string, v: string)
    requires u != v && NodeAfter(slots, events) == Node(OutOfTheQueue(u, v), BothWaiting(v))
    ensures NodeAfter(slots, events + [Go(StopEnds(3))]) == Node(RestoreOver(u, v), BothWaiting(v))
  {
    RestoreEnds(u, v);
    ThenGoes(slots, events, StopEnds(3), Node(OutOfTheQueue(u, v), BothWaiting(v)), RestoreOver(u, v));
  }

  lemma EventStopTurns(slots: nat, events: seq<Event>, u: string, v: string)
    requires u != v && NodeAfter(slots, events) == Node(RestoreOver(u, v), BothWaiting(v))
    ensures NodeAfter(slots, events + [Turn(v)]) == Node(StopOver(u, v), StartWaiting(v))
  {
    StopComesTooLate(u, v);
    ThenTurns(slots, events, v, Node(RestoreOver(u, v), BothWaiting(v)), StopOver(u, v));
    assert [ForStop(false), ForQueued(2)][1..] == [ForQueued(2)];
  }

  lemma LockIsFree(u: string, v: string)
    ensures StopOver(u, v).lock == map[]
  {}

  lemma OnlyStartWaits(s: State, v: string)
    ensures Door(Node(s, StartWaiting(v)), v) == [ForQueued(2)]
    ensures StartWaiting(v)[v := []] == map[v := []]
  {}

  lemma EventStartTurns(slots: nat, events: seq<Event>, u: string, v: string)
    requires u != v && NodeAfter(slots, events) == Node(StopOver(u, v), StartWaiting(v))
    ensures NodeAfter(slots, events + [Turn(v)]) == Node(LockedAnyway(u, v), map[v := []])
  {
    LocksAnyway(u, v);
    LockIsFree(u, v);
    OnlyStartWaits(StopOver(u, v), v);
    ThenStartTurns(slots, events, v, 2, Node(StopOver(u, v), StartWaiting(v)), LockedAnyway(u, v));
  }

  lemma EventLaunches(slots: nat, events: seq<Event>, u: string, v: string)
    requires u != v && NodeAfter(slots, events) == Node(LockedAnyway(u, v), map[v := []])
    ensures NodeAfter(slots, events + [Go(Checks(2, true))]) == Node(LaunchedAnyway(u, v), map[v := []])
  {
    LaunchesAnyway(u, v);
    ThenGoes(slots, events, Checks(2, true), Node(LockedAnyway(u, v), map[v := []]), LaunchedAnyway(u, v));
  }

  function Queueing(u: string, v: string): seq<Event> {
    [] + [Ask(u, ForStart)] + [Go(Checks(0, true))] + [Ask(v, ForStart)] + [Go(Checks(1, true))] + [Go(Resume(2))]
  }

  lemma OtherIsInLine(slots: nat, u: string, v: string)
    requires slots == 1 && u != v
    ensures NodeAfter(slots, Queueing(u, v)) == Node(OtherWaiting(u, v), map[])
  {
    var a := [] + [Ask(u, ForStart)];
    EventFirstAsks(slots, [], u);
    EventFirstLaunches(slots, a, u);
    EventOtherAsks(slots, a + [Go(Checks(0, true))], u, v);
    EventOtherQueues(slots, a + [Go(Checks(0, true))] + [Ask(v, ForStart)], u, v);
    EventOtherJoins(slots, a + [Go(Checks(0, true))] + [Ask(v, ForStart)] + [Go(Checks(1, true))], u, v);
  }

  lemma StopIsAskedFor(slots: nat, events: seq<Event>, u: string, v: string)
    requires u != v && NodeAfter(slots, events) == Node(OtherWaiting(u, v), map[])
    ensures NodeAfter(slots, events + [Ask(v, ForRestore(false))] + [Ask(v, ForStop(false))])
         == Node(OtherRestored(u, v), StopWaiting(v))
  {
    EventRestore(slots, events, u, v);
    EventStop(slots, events + [Ask(v, ForRestore(false))], u, v);
  }

  lemma StopIsOver(slots: nat, events: seq<Event>, u: string, v: string)
    requires u != v && NodeAfter(slots, events) == Node(OtherRestored(u, v), StopWaiting(v))
    ensures NodeAfter(slots, events + [Go(LaunchEnds(0, false))] + [Go(Resume(2))] + [Go(StopEnds(3))] + [Turn(v)])
         == Node(StopOver(u, v), StartWaiting(v))
  {
    var a := events + [Go(LaunchEnds(0, false))];
    EventFirstFails(slots, events, u, v);
    EventOtherComesOut(slots, a, u, v);
    EventRestoreEnds(slots, a + [Go(Resume(2))], u, v);
    EventStopTurns(slots, a + [Go(Resume(2))] + [Go(StopEnds(3))], u, v);
  }

  lemma StartLaunches(slots: nat, events: seq<Event>, u: string, v: string)
    requires u != v && NodeAfter(slots, events) == Node(StopOver(u, v), StartWaiting(v))
    ensures NodeAfter(slots, events + [Turn(v)] + [Go(Checks(2, true))]) == Node(LaunchedAnyway(u, v), map[v := []])
  {
    EventStartTurns(slots, events, u, v);
    EventLaunches(slots, events + [Turn(v)], u, v);
  }

  function StopAskedFor(u: string, v: string): seq<Event> {
    Queueing(u, v) + [Ask(v, ForRestore(false))] + [Ask(v, ForStop(false))]
  }

  function StopDone(u: string, v: string): seq<Event> {
    StopAskedFor(u, v) + [Go(LaunchEnds(0, false))] + [Go(Resume(2))] + [Go(StopEnds(3))] + [Turn(v)]
  }

  lemma AStopWaits(slots: nat, u: string, v: string)
    requires slots == 1 && u != v
    ensures NodeAfter(slots, StopAskedFor(u, v)) == Node(OtherRestored(u, v), StopWaiting(v))
    ensures OtherRestored(u, v).queued == map[v := 2] && StopAskedFor(u, v) <= StopDone(u, v)
  {
    OtherIsInLine(slots, u, v);
    StopIsAskedFor(slots, Queueing(u, v), u, v);
  }

  lemma AStopIsDone(slots: nat, u: string, v: string)
    requires slots == 1 && u != v
    ensures NodeAfter(slots, StopDone(u, v)) == Node(StopOver(u, v), StartWaiting(v))
  {
    AStopWaits(slots, u, v);
    StopIsOver(slots, StopAskedFor(u, v), u, v);
  }

  // The stop of `v`, asked for while its start was in the queue (`AStopWaits`), is over;
  // then that start launches `v`.
  lemma AStopIsLost(slots: nat, u: string, v: string)
    requires slots == 1 && u != v
    ensures NodeAfter(slots, StopDone(u, v) + [Turn(v)] + [Go(Checks(2, true))])
         == Node(LaunchedAnyway(u, v), map[v := []])
    ensures LaunchedAnyway(u, v).attempts[2].launched == 1
  {
    AStopIsDone(slots, u, v);
    StartLaunches(slots, StopDone(u, v), u, v);
  }
}
