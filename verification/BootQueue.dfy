// The supervisor's boot slots (agent/servers.py): a semaphore of
// max_concurrent_boots slots, starts that find no slot and queue, and the stops,
// restarts, deletions, failed launches, timeouts and adoptions that interleave
// with them.
//
// Every stretch of code between two awaits is one step. An attempt is one start,
// stop or adoption; a start keeps its number, and so its slot, from the acquire to
// the release, through the launch and the hold after it.

module BootQueue {
  import opened Prelude

  datatype Phase = Offline | InQueue | Starting | Running | Stopping | Crashed | Installing

  datatype Stage =
    | Created              // a queued start whose task has not run yet
    | Waiting              // in the semaphore's line
    | Granted              // handed a slot, not yet resumed
    | Revoked              // handed a slot, then cancelled, not yet resumed
    | Locking              // out of the queue, waiting for the server's lock
    | Rechecking           // a queued start, holding the lock, in its checks
    | LaunchingQueued      // the same, in its launch
    | Checking             // a start asked for by power, holding the lock, in its checks
    | Launching            // the same, in its launch
    | Holding              // up to the server being up, gone or slow: `_hold_slot`
    | Ending(again: bool)  // a stop, a restart or a restore, up to the server's exit or the files' being back
    | Adopting             // re-attaching to a server that kept running
    | Over

  // An attempt, and what happened to it: acquires, releases, launches, whether a
  // stop or a deletion took it out of the queue, and its place in the line.
  datatype Attempt = Attempt(
    server: string, stage: Stage,
    acquired: nat, released: nat, launched: nat, cancelled: bool, ticket: Option<nat>)

  predicate IsPending(x: Attempt) { x.stage.Created? || x.stage.Waiting? || x.stage.Granted? }

  predicate HoldsSlot(x: Attempt) {
    || x.stage.Granted? || x.stage.Revoked? || x.stage.Locking? || x.stage.Rechecking?
    || x.stage.LaunchingQueued? || x.stage.Launching? || x.stage.Holding?
  }

  predicate HoldsLock(x: Attempt) {
    || x.stage.Rechecking? || x.stage.LaunchingQueued? || x.stage.Checking? || x.stage.Launching?
    || x.stage.Ending? || x.stage.Adopting?
  }

  predicate IsLaunching(x: Attempt) { x.stage.LaunchingQueued? || x.stage.Launching? }

  datatype State = State(
    free: nat, line: seq<nat>, attempts: seq<Attempt>,
    queued: map<string, nat>, lock: map<string, nat>,
    phase: map<string, Phase>, running: set<string>,
    tickets: nat, called: nat)

  function Start(slots: nat): State {
    State(slots, [], [], map[], map[], map[], {}, 0, 0)
  }

  // Somebody handed a slot who has not resumed is still in the semaphore's list.
  predicate SomebodyAhead(s: State) {
    exists a :: 0 <= a < |s.attempts| && IsListed(s.attempts[a])
  }

  predicate IsListed(x: Attempt) { x.stage.Waiting? || x.stage.Granted? || x.stage.Revoked? }

  // `boot_slots.locked()`.
  predicate Locked(s: State) { s.free == 0 || SomebodyAhead(s) }

  function WithoutOne(xs: seq<nat>, gone: nat): (r: seq<nat>)
    ensures forall x :: x in r <==> x in xs && x != gone
  {
    if xs == [] then []
    else
      var rest := WithoutOne(xs[..|xs| - 1], gone);
      if xs[|xs| - 1] == gone then rest else rest + [xs[|xs| - 1]]
  }

  // --- the semaphore ---------------------------------------------------------------

  function Put(s: State, a: nat, x: Attempt): State
    requires a < |s.attempts|
  { s.(attempts := s.attempts[a := x]) }

  function Moved(s: State, a: nat, stage: Stage): State
    requires a < |s.attempts|
  { Put(s, a, s.attempts[a].(stage := stage)) }

  // `acquire` with a slot free.
  function Taken(s: State, a: nat, stage: Stage): State
    requires a < |s.attempts| && s.free > 0
  {
    var x := s.attempts[a];
    Put(s, a, x.(stage := stage, acquired := x.acquired + 1)).(free := s.free - 1)
  }

  // `acquire` in line.
  function Joined(s: State, a: nat): State
    requires a < |s.attempts|
  {
    Put(s, a, s.attempts[a].(stage := Waiting, ticket := Some(s.tickets)))
      .(line := s.line + [a], tickets := s.tickets + 1)
  }

  ghost predicate LineStands(s: State) {
    forall i :: 0 <= i < |s.line| ==> s.line[i] < |s.attempts| && s.attempts[s.line[i]].stage.Waiting?
  }

  // `_wake_up_next`, with a slot free.
  function Woken(s: State): State
    requires LineStands(s) && s.free > 0
  {
    if s.line == [] then s
    else
      var x := s.attempts[s.line[0]];
      Put(s, s.line[0], x.(stage := Granted, acquired := x.acquired + 1))
        .(free := s.free - 1, line := s.line[1..], called := if x.ticket.Some? then x.ticket.value + 1 else s.called)
  }

  // `release`: to the head of the line, or back.
  function Passed(s: State): State
    requires LineStands(s)
  {
    Woken(s.(free := s.free + 1))
  }

  // The end of a wait in line: whoever was handed a slot hands on any other.
  function Onward(s: State): State
    requires LineStands(s)
  {
    if s.free > 0 then Woken(s) else s
  }

  function GaveBack(s: State, a: nat): State
    requires a < |s.attempts|
  {
    var x := s.attempts[a];
    Put(s, a, x.(stage := Over, released := x.released + 1))
  }

  function Released(s: State, a: nat): State
    requires LineStands(s) && a < |s.attempts| && !s.attempts[a].stage.Waiting?
  {
    Passed(GaveBack(s, a))
  }

  // --- the queue and the lock ---------------------------------------------------------

  function Unlocked(s: State, v: string): State { s.(lock := s.lock - {v}) }

  function Unqueued(s: State, v: string): State { s.(queued := s.queued - {v}) }

  function InPhase(s: State, v: string, phase: Phase): State { s.(phase := s.phase[v := phase]) }

  predicate Is(s: State, v: string, phase: Phase) { v in s.phase && s.phase[v] == phase }

  // `cancel()` on a queued start.
  function Struck(s: State, a: nat): State
    requires a < |s.attempts|
  {
    var x := s.attempts[a].(cancelled := true);
    if x.stage.Granted? then Put(s, a, x.(stage := Revoked))
    else Put(s, a, x.(stage := Over)).(line := WithoutOne(s.line, a))
  }

  // An attempt that ends with the server's lock and no slot.
  function Left(s: State, a: nat): State
    requires a < |s.attempts|
  { Unlocked(Moved(s, a, Over), s.attempts[a].server) }

  // `queued.pop(...)`, and `cancel()` on what it held.
  function Cancelled(s: State, v: string): State
    requires v in s.queued && s.queued[v] < |s.attempts|
  { Unqueued(Struck(s, s.queued[v]), v) }

  // A power request that has the server's lock, as a new attempt.
  function Entered(s: State, v: string, stage: Stage): State {
    s.(attempts := s.attempts + [Attempt(v, stage, 0, 0, 0, false, None)], lock := s.lock[v := |s.attempts|])
  }

  function Enqueued(s: State, v: string): State {
    s.(attempts := s.attempts + [Attempt(v, Created, 0, 0, 0, false, None)], queued := s.queued[v := |s.attempts|])
  }

  // `_start` up to its first await.
  function StartBegun(s: State, a: nat): State
    requires a < |s.attempts|
  {
    var v := s.attempts[a].server;
    if v in s.running || v in s.queued then Left(s, a) else Moved(s, a, Checking)
  }

  function Launched(s: State, a: nat, stage: Stage): State
    requires a < |s.attempts|
  {
    var x := s.attempts[a];
    InPhase(Put(s, a, x.(stage := stage, launched := x.launched + 1)), x.server, Starting)
  }

  function StartChecked(s: State, a: nat, ok: bool): State
    requires a < |s.attempts|
  {
    var v := s.attempts[a].server;
    if !ok then Left(s, a)
    else if Locked(s) then InPhase(Enqueued(Left(s, a), v), v, InQueue)
    else Launched(Taken(s, a, Checking), a, Launching)
  }

  // `_launch` returns, or fails (or is cancelled) and its slot goes back.
  function LaunchEnded(s: State, a: nat, ok: bool): State
    requires LineStands(s) && a < |s.attempts| && !s.attempts[a].stage.Waiting?
  {
    var v := s.attempts[a].server;
    if ok then Unlocked(Moved(s, a, Holding), v).(running := s.running + {v})
    else InPhase(Passed(Unlocked(GaveBack(s, a), v)), v, Offline)
  }

  // `_start_queued` up to the server's lock: its first stretch, or after the wait.
  function Resumed(s: State, a: nat): State
    requires LineStands(s) && a < |s.attempts|
  {
    var v := s.attempts[a].server;
    var stage := s.attempts[a].stage;
    if stage.Created? && Locked(s) then Joined(s, a)
    else if stage.Created? then Unqueued(Taken(s, a, Locking), v)
    else if stage.Granted? then Onward(Unqueued(Moved(s, a, Locking), v))
    else if stage.Revoked? then Released(s, a)
    else s
  }

  // The server's lock comes to a queued start.
  function GotLock(s: State, a: nat): State
    requires LineStands(s) && a < |s.attempts| && !s.attempts[a].stage.Waiting?
  {
    var v := s.attempts[a].server;
    if !Is(s, v, InQueue) || v in s.running then Released(s, a)
    else Moved(s, a, Rechecking).(lock := s.lock[v := a])
  }

  function Rechecked(s: State, a: nat, ok: bool): State
    requires LineStands(s) && a < |s.attempts| && !s.attempts[a].stage.Waiting?
  {
    var v := s.attempts[a].server;
    if ok then Launched(s, a, LaunchingQueued) else InPhase(Passed(Unlocked(GaveBack(s, a), v)), v, Offline)
  }

  function StopBegun(s: State, v: string, again: bool): State
    requires v in s.queued ==> s.queued[v] < |s.attempts|
  {
    var t := if v in s.queued then InPhase(Cancelled(s, v), v, Offline) else s;
    var u := Entered(t, v, Ending(again));
    if v !in s.queued && v in s.running then InPhase(u, v, Stopping) else StopEnded(u, |t.attempts|)
  }

  function StopEnded(s: State, a: nat): State
    requires a < |s.attempts| && s.attempts[a].stage.Ending?
  {
    if s.attempts[a].stage.again then StartBegun(s, a) else Left(s, a)
  }

  // A restore stops a running server as a stop does, and leaves the queue alone; it
  // has the server's lock until the files are back.
  function RestoreBegun(s: State, v: string, again: bool): State
    requires v in s.queued ==> s.queued[v] < |s.attempts|
  {
    if v in s.running then StopBegun(s, v, again) else Entered(s, v, Ending(false))
  }

  // A server found running, re-attached or not; it counts against the slots
  // only when one is free and nobody is ahead.
  function Adopted(s: State, a: nat, ok: bool): State
    requires a < |s.attempts|
  {
    var v := s.attempts[a].server;
    if !ok then InPhase(Left(s, a), v, Offline)
    else
      var t := s.(running := s.running + {v});
      if Is(s, v, Starting) && !Locked(s) then Unlocked(Taken(t, a, Holding), v) else Left(t, a)
  }

  // --- runs -----------------------------------------------------------------------

  datatype Step =
    | PowerStart(v: string)
    | PowerStop(v: string, again: bool)
    | Restore(v: string, again: bool)    // of a backup, with a start after it or not
    | StopEnds(a: nat)
    | Checks(a: nat, ok: bool)
    | LaunchEnds(a: nat, ok: bool)
    | Resume(a: nat)
    | GetLock(a: nat)
    | HoldEnds(a: nat)           // up, gone, or boot_timeout passed
    | Delete(v: string)
    | Adopt(v: string)
    | AdoptEnds(a: nat, ok: bool)
    | Exit(v: string, phase: Phase)
    | Becomes(v: string, phase: Phase)   // "Done" logged, an install begins or ends

  ghost predicate QueueStands(s: State) {
    forall v :: v in s.queued ==>
      s.queued[v] < |s.attempts| && s.attempts[s.queued[v]].server == v && IsPending(s.attempts[s.queued[v]])
  }

  ghost function Next(s: State, step: Step): State
    requires LineStands(s) && QueueStands(s)
  {
    match step
    case PowerStart(v) => if v in s.lock then s else StartBegun(Entered(s, v, Ending(true)), |s.attempts|)
    case PowerStop(v, again) => if v in s.lock then s else StopBegun(s, v, again)
    case Restore(v, again) => if v in s.lock then s else RestoreBegun(s, v, again)
    case StopEnds(a) => if a < |s.attempts| && s.attempts[a].stage.Ending? then StopEnded(s, a) else s
    case Checks(a, ok) =>
      if a < |s.attempts| && s.attempts[a].stage.Checking? then StartChecked(s, a, ok)
      else if a < |s.attempts| && s.attempts[a].stage.Rechecking? then Rechecked(s, a, ok) else s
    case LaunchEnds(a, ok) => if a < |s.attempts| && IsLaunching(s.attempts[a]) then LaunchEnded(s, a, ok) else s
    case Resume(a) => if a < |s.attempts| then Resumed(s, a) else s
    case GetLock(a) =>
      if a < |s.attempts| && s.attempts[a].stage.Locking? && s.attempts[a].server !in s.lock then GotLock(s, a) else s
    case HoldEnds(a) => if a < |s.attempts| && s.attempts[a].stage.Holding? then Released(s, a) else s
    case Delete(v) => if v in s.queued then Cancelled(s, v) else s
    case Adopt(v) =>
      if v in s.lock || v in s.running then s else InPhase(Entered(s, v, Adopting), v, Starting)
    case AdoptEnds(a, ok) => if a < |s.attempts| && s.attempts[a].stage.Adopting? then Adopted(s, a, ok) else s
    case Exit(v, phase) => InPhase(s, v, phase).(running := s.running - {v})
    case Becomes(v, phase) => InPhase(s, v, phase)
  }

  // --- what every step keeps ----------------------------------------------------------

  // A slot is acquired at most once and given back at most once, at the very end;
  // an attempt launches at most once, with a slot, and never after being
  // taken out of the queue.
  predicate Proper(x: Attempt) {
    && x.acquired == x.released + (if HoldsSlot(x) then 1 else 0)
    && x.acquired <= 1 && x.launched <= 1
    && (x.released == 1 || x.stage.Over? || HoldsSlot(x) || x.acquired == 0)
    && (x.released == 1 ==> x.stage.Over?)
    && (x.launched == 1 ==> x.acquired == 1 && !x.cancelled && (IsLaunching(x) || x.stage.Holding? || x.stage.Over?))
    && (IsLaunching(x) ==> x.launched == 1)
    && (x.cancelled ==> x.stage.Revoked? || x.stage.Over?)
    && (x.stage.Waiting? ==> x.ticket.Some?)
    && (x.stage.Created? || x.stage.Checking? || x.stage.Ending? || x.stage.Adopting? ==> x.ticket.None?)
  }

  ghost predicate AllProper(s: State) {
    forall a :: 0 <= a < |s.attempts| ==> Proper(s.attempts[a])
  }

  // `queued` holds exactly the starts that can still be cancelled.
  ghost predicate QueueInv(s: State) {
    && QueueStands(s)
    && (forall a :: 0 <= a < |s.attempts| && IsPending(s.attempts[a]) ==>
          s.attempts[a].server in s.queued && s.queued[s.attempts[a].server] == a)
    && (forall a :: 0 <= a < |s.attempts| && s.attempts[a].stage.Checking? ==> s.attempts[a].server !in s.queued)
  }

  // A server's lock is held by exactly one attempt at a time.
  ghost predicate LockInv(s: State) {
    && (forall v :: v in s.lock ==>
          s.lock[v] < |s.attempts| && s.attempts[s.lock[v]].server == v && HoldsLock(s.attempts[s.lock[v]]))
    && (forall a :: 0 <= a < |s.attempts| && HoldsLock(s.attempts[a]) ==>
          s.attempts[a].server in s.lock && s.lock[s.attempts[a].server] == a)
  }

  predicate TicketIn(x: Attempt, from: nat, to: nat) { x.ticket.Some? && from <= x.ticket.value < to }

  ghost predicate AllListed(s: State) {
    forall a :: 0 <= a < |s.attempts| && s.attempts[a].stage.Waiting? ==> a in s.line
  }

  ghost predicate InTicketOrder(s: State) {
    && (forall i :: 0 <= i < |s.line| ==>
          s.line[i] < |s.attempts| && TicketIn(s.attempts[s.line[i]], s.called, s.tickets))
    && (forall i, j :: 0 <= i < j < |s.line| ==>
          s.attempts[s.line[i]].ticket.value < s.attempts[s.line[j]].ticket.value)
  }

  ghost predicate ServedFirst(s: State) {
    forall a :: 0 <= a < |s.attempts| && s.attempts[a].ticket.Some? && s.attempts[a].acquired > 0 ==>
      s.attempts[a].ticket.value < s.called
  }

  predicate InHandoff(x: Attempt) { x.stage.Granted? || x.stage.Revoked? }

  ghost predicate Handoff(s: State) {
    exists a :: 0 <= a < |s.attempts| && InHandoff(s.attempts[a])
  }

  // The line holds exactly the waiting, in the order of their tickets, behind
  // everybody called.
  ghost predicate LineCore(s: State) {
    && LineStands(s)
    && s.called <= s.tickets
    && AllListed(s)
    && InTicketOrder(s)
    && ServedFirst(s)
  }

  // Nobody waits beside a free slot, but while somebody handed a slot is still
  // to resume, and to hand that one on.
  ghost predicate LineInv(s: State) {
    && LineCore(s)
    && (s.free > 0 && s.line != [] ==> Handoff(s))
  }

  // A step that neither joins the line nor leaves it.
  ghost predicate LineLeftAlone(s: State, t: State, a: nat) {
    && t.line == s.line && t.tickets == s.tickets && t.called == s.called
    && |s.attempts| <= |t.attempts|
    && (forall b :: 0 <= b < |s.attempts| && b != a ==> t.attempts[b] == s.attempts[b])
    && (a < |s.attempts| ==> SamePlace(s.attempts[a], t.attempts[a]))
    && (forall b :: |s.attempts| <= b < |t.attempts| ==> !t.attempts[b].stage.Waiting? && t.attempts[b].ticket.None?)
  }

  predicate SamePlace(x: Attempt, y: Attempt) {
    && !x.stage.Waiting? && !y.stage.Waiting?
    && y.ticket == x.ticket
    && (y.ticket.Some? ==> y.acquired == x.acquired)
  }

  lemma SameLine(s: State, t: State)
    requires LineInv(s) && t.free == s.free && t.line == s.line && t.attempts == s.attempts
    requires t.tickets == s.tickets && t.called == s.called
    ensures LineInv(t)
  {}

  lemma LeftAlone(s: State, t: State, a: nat)
    requires LineCore(s) && LineLeftAlone(s, t, a)
    ensures LineCore(t)
  {}

  lemma StillHanded(s: State, t: State, a: nat)
    requires LineInv(s) && LineLeftAlone(s, t, a)
    requires t.free <= s.free && (a < |s.attempts| && InHandoff(s.attempts[a]) ==> InHandoff(t.attempts[a]))
    ensures LineInv(t)
  {
    LeftAlone(s, t, a);
    if t.free > 0 && t.line != [] {
      var b :| 0 <= b < |s.attempts| && InHandoff(s.attempts[b]);
      assert InHandoff(t.attempts[b]);
    }
  }

  lemma WokenKeepsLine(s: State)
    requires LineCore(s) && AllProper(s) && s.free > 0
    ensures LineInv(Woken(s))
  {
    if s.line != [] { HeadIsCalled(s); }
  }

  lemma HeadIsCalled(s: State)
    requires LineCore(s) && AllProper(s) && s.line != [] && s.free > 0
    ensures LineInv(Woken(s))
  {
    assert InHandoff(Woken(s).attempts[s.line[0]]);
    HeadLeavesOrder(s);
    HeadLeavesListed(s);
    HeadIsServed(s);
  }

  lemma HeadLeavesOrder(s: State)
    requires LineCore(s) && s.line != [] && s.free > 0
    ensures LineStands(Woken(s)) && InTicketOrder(Woken(s)) && Woken(s).called <= Woken(s).tickets
  {
    var t := Woken(s);
    forall i | 0 <= i < |t.line|
      ensures t.line[i] == s.line[i + 1] && t.line[i] != s.line[0]
    {}
  }

  lemma HeadLeavesListed(s: State)
    requires LineStands(s) && AllListed(s) && s.line != [] && s.free > 0
    ensures AllListed(Woken(s))
  {
    var t := Woken(s);
    forall a | 0 <= a < |t.attempts| && t.attempts[a].stage.Waiting?
      ensures a in t.line
    {
      assert a in s.line;
    }
  }

  lemma HeadIsServed(s: State)
    requires LineCore(s) && s.line != [] && s.free > 0
    ensures ServedFirst(Woken(s))
  {
    assert TicketIn(s.attempts[s.line[0]], s.called, s.tickets);
  }

  // Locked means nobody would be served at once.
  lemma LockedOut(s: State)
    requires LineInv(s) && Locked(s) && s.free > 0
    ensures Handoff(s)
  {
    var a :| 0 <= a < |s.attempts| && IsListed(s.attempts[a]);
    if s.attempts[a].stage.Waiting? { assert a in s.line; } else { assert InHandoff(s.attempts[a]); }
  }

  lemma NobodyAhead(s: State)
    requires LineInv(s) && !Locked(s)
    ensures s.free > 0 && s.line == [] && !Handoff(s)
  {
  }

  lemma JoinedKeepsOrder(s: State, a: nat)
    requires LineCore(s) && AllProper(s) && a < |s.attempts| && s.attempts[a].stage.Created?
    ensures LineCore(Joined(s, a))
  {
    var t := Joined(s, a);
    assert t.line[|s.line|] == a;
    JoinedIsListed(s, a);
  }

  lemma JoinedIsListed(s: State, a: nat)
    requires AllListed(s) && a < |s.attempts|
    ensures AllListed(Joined(s, a))
  {
    var t := Joined(s, a);
    assert t.line[|s.line|] == a;
    forall b | 0 <= b < |t.attempts| && t.attempts[b].stage.Waiting?
      ensures b in t.line
    {
      assert b != a ==> b in s.line;
    }
  }

  lemma JoinedKeepsLine(s: State, a: nat)
    requires LineInv(s) && AllProper(s) && a < |s.attempts| && s.attempts[a].stage.Created? && Locked(s)
    ensures LineInv(Joined(s, a))
  {
    var t := Joined(s, a);
    JoinedKeepsOrder(s, a);
    if t.free > 0 {
      LockedOut(s);
      var b :| 0 <= b < |s.attempts| && InHandoff(s.attempts[b]);
      assert InHandoff(t.attempts[b]);
    }
  }

  lemma {:induction false} WithoutOneIs(xs: seq<nat>, gone: nat, k: nat)
    requires k < |xs| && xs[k] == gone && forall i :: 0 <= i < |xs| && i != k ==> xs[i] != gone
    ensures WithoutOne(xs, gone) == xs[..k] + xs[k + 1..]
  {
    var init := xs[..|xs| - 1];
    if k == |init| {
      NothingGone(init, gone);
    } else {
      WithoutOneIs(init, gone, k);
    }
  }

  lemma {:induction false} NothingGone(xs: seq<nat>, gone: nat)
    requires gone !in xs
    ensures WithoutOne(xs, gone) == xs
  {
    if xs != [] { NothingGone(xs[..|xs| - 1], gone); }
  }

  lemma StruckKeepsLine(s: State, a: nat)
    requires LineInv(s) && AllProper(s) && a < |s.attempts| && IsPending(s.attempts[a])
    ensures LineInv(Struck(s, a))
  {
    if s.attempts[a].stage.Waiting? {
      WaiterStruck(s, a);
    } else {
      NothingGone(s.line, a);
      StillHanded(s, Struck(s, a), a);
    }
  }

  lemma WaiterStruck(s: State, a: nat)
    requires LineInv(s) && AllProper(s) && a < |s.attempts| && s.attempts[a].stage.Waiting?
    ensures LineInv(Struck(s, a))
  {
    var t := Struck(s, a);
    assert a in s.line;
    WaiterStruckCore(s, a);
    if t.free > 0 && t.line != [] {
      var b :| 0 <= b < |s.attempts| && InHandoff(s.attempts[b]);
      assert InHandoff(t.attempts[b]);
    }
  }

  lemma WaiterStruckCore(s: State, a: nat)
    requires LineCore(s) && AllProper(s) && a < |s.attempts| && s.attempts[a].stage.Waiting?
    ensures LineCore(Struck(s, a))
  {
    assert a in s.line;
    var k :| 0 <= k < |s.line| && s.line[k] == a;
    WithoutOneIs(s.line, a, k);
    PlacesAfter(s, a, k);
    StruckIsListed(s, a);
  }

  lemma StruckIsListed(s: State, a: nat)
    requires AllListed(s) && a < |s.attempts| && s.attempts[a].stage.Waiting?
    ensures AllListed(Struck(s, a))
  {}

  lemma PlacesAfter(s: State, a: nat, k: nat)
    requires LineStands(s) && InTicketOrder(s) && k < |s.line| && s.line[k] == a && s.attempts[a].stage.Waiting?
    requires WithoutOne(s.line, a) == s.line[..k] + s.line[k + 1..]
    ensures LineStands(Struck(s, a)) && InTicketOrder(Struck(s, a))
  {
    var t := Struck(s, a);
    forall i | 0 <= i < |t.line|
      ensures t.line[i] == s.line[if i < k then i else i + 1] && t.line[i] != a
    {}
  }

  lemma GiverLeavesTheLine(s: State, a: nat)
    requires AllProper(s) && a < |s.attempts| && HoldsSlot(s.attempts[a])
    ensures LineLeftAlone(s, GaveBack(s, a), a) && AllProper(GaveBack(s, a))
  {}

  lemma GaveBackKeepsLine(s: State, a: nat)
    requires LineInv(s) && AllProper(s) && a < |s.attempts| && HoldsSlot(s.attempts[a])
    ensures LineStands(GaveBack(s, a)) && LineInv(Passed(GaveBack(s, a)))
  {
    var t := GaveBack(s, a);
    GiverLeavesTheLine(s, a);
    LeftAlone(s, t, a);
    FreeKeepsCore(t);
    WokenKeepsLine(t.(free := t.free + 1));
  }

  lemma FreeKeepsCore(s: State)
    requires LineCore(s) && AllProper(s)
    ensures LineCore(s.(free := s.free + 1)) && AllProper(s.(free := s.free + 1))
  {}

  lemma UnlockedKeepsLine(s: State, a: nat, v: string)
    requires LineInv(s) && AllProper(s) && a < |s.attempts| && HoldsSlot(s.attempts[a])
    ensures LineStands(Unlocked(GaveBack(s, a), v)) && LineInv(Passed(Unlocked(GaveBack(s, a), v)))
  {
    GaveBackKeepsLine(s, a);
    PassedUnlocks(GaveBack(s, a), v);
    SameLine(Passed(GaveBack(s, a)), Unlocked(Passed(GaveBack(s, a)), v));
  }

  lemma PassedUnlocks(s: State, v: string)
    requires LineStands(s)
    ensures LineStands(Unlocked(s, v)) && Passed(Unlocked(s, v)) == Unlocked(Passed(s), v)
  {}

  lemma FailedKeepsLine(s: State, a: nat, v: string)
    requires LineInv(s) && AllProper(s) && a < |s.attempts| && HoldsSlot(s.attempts[a])
    ensures LineStands(Unlocked(GaveBack(s, a), v))
    ensures LineInv(InPhase(Passed(Unlocked(GaveBack(s, a), v)), v, Offline))
  {
    UnlockedKeepsLine(s, a, v);
    SameLine(Passed(Unlocked(GaveBack(s, a), v)), InPhase(Passed(Unlocked(GaveBack(s, a), v)), v, Offline));
  }

  lemma GrantedResumesKeepsLine(s: State, a: nat)
    requires LineInv(s) && AllProper(s) && QueueStands(s) && a < |s.attempts| && s.attempts[a].stage.Granted?
    ensures LineInv(Resumed(s, a))
  {
    var t := Unqueued(Moved(s, a, Locking), s.attempts[a].server);
    LeftAlone(s, t, a);
    if t.free > 0 { WokenKeepsLine(t); }
  }

  // What an attempt is doing agrees with its history, the queue and the locks.
  ghost predicate Core(s: State) { AllProper(s) && QueueInv(s) && LockInv(s) && LineStands(s) }

  ghost predicate CoreButLine(s: State) { AllProper(s) && QueueInv(s) && LockInv(s) }

  function LockAfter(lock: map<string, nat>, a: nat, x: Attempt, y: Attempt): map<string, nat> {
    if HoldsLock(x) && !HoldsLock(y) then lock - {x.server}
    else if !HoldsLock(x) && HoldsLock(y) then lock[x.server := a]
    else lock
  }

  // A step that moves one attempt on, and the queue and the locks with it.
  ghost predicate MovesOn(s: State, t: State, a: nat) {
    && a < |s.attempts| == |t.attempts|
    && var x, y := s.attempts[a], t.attempts[a];
    && t.attempts == s.attempts[a := y]
    && y.server == x.server && Proper(y)
    && (IsPending(y) ==> IsPending(x))
    && t.queued == (if IsPending(x) && !IsPending(y) then s.queued - {x.server} else s.queued)
    && (y.stage.Checking? ==> x.server !in s.queued)
    && t.lock == LockAfter(s.lock, a, x, y)
    && (HoldsLock(y) && !HoldsLock(x) ==> x.server !in s.lock)
  }

  lemma MovesOnCore(s: State, t: State, a: nat)
    requires CoreButLine(s) && MovesOn(s, t, a)
    ensures CoreButLine(t)
  {
    MovesOnQueue(s, t, a);
    MovesOnLock(s, t, a);
  }

  lemma MovesOnQueue(s: State, t: State, a: nat)
    requires QueueInv(s) && MovesOn(s, t, a)
    ensures QueueInv(t)
  {}

  lemma MovesOnLock(s: State, t: State, a: nat)
    requires LockInv(s) && MovesOn(s, t, a)
    ensures LockInv(t)
  {}

  lemma WokenCore(s: State)
    requires CoreButLine(s) && LineStands(s) && s.free > 0
    ensures CoreButLine(Woken(s))
  {
    if s.line != [] { MovesOnCore(s, Woken(s), s.line[0]); }
  }

  lemma PassedCore(s: State)
    requires CoreButLine(s) && LineStands(s)
    ensures CoreButLine(Passed(s))
  {
    assert CoreButLine(s.(free := s.free + 1));
    WokenCore(s.(free := s.free + 1));
  }

  // An attempt ends and its slot goes on.
  ghost predicate GivesUp(s: State, t: State, a: nat) {
    && a < |s.attempts| && !IsPending(s.attempts[a]) && HoldsSlot(s.attempts[a])
    && t == s.(attempts := t.attempts, lock := t.lock)
    && t.attempts == GaveBack(s, a).attempts
    && t.lock == LockAfter(s.lock, a, s.attempts[a], t.attempts[a])
  }

  lemma SlotBackMoves(s: State, t: State, a: nat)
    requires GivesUp(s, t, a) && LineStands(s) && Proper(s.attempts[a])
    ensures LineStands(t) && MovesOn(s, t, a)
  {
    assert !s.attempts[a].stage.Waiting?;
  }

  lemma SlotBackCore(s: State, t: State, a: nat)
    requires Core(s) && GivesUp(s, t, a) && LineStands(t)
    ensures CoreButLine(Passed(t))
  {
    SlotBackMoves(s, t, a);
    MovesOnCore(s, t, a);
    PassedCore(t);
  }

  lemma EnqueuedCore(s: State, v: string)
    requires CoreButLine(s) && v !in s.queued
    requires forall a :: 0 <= a < |s.attempts| && s.attempts[a].stage.Checking? ==> s.attempts[a].server != v
    ensures CoreButLine(Enqueued(s, v))
  {
    EnqueuedQueues(s, v);
    EnqueuedLocks(s, v);
  }

  lemma EnqueuedQueues(s: State, v: string)
    requires QueueInv(s) && v !in s.queued
    requires forall a :: 0 <= a < |s.attempts| && s.attempts[a].stage.Checking? ==> s.attempts[a].server != v
    ensures QueueInv(Enqueued(s, v))
  {}

  lemma EnqueuedLocks(s: State, v: string)
    requires LockInv(s)
    ensures LockInv(Enqueued(s, v))
  {}

  lemma StartBegunMoves(s: State, a: nat)
    requires LockInv(s) && a < |s.attempts| && s.attempts[a].stage.Ending? && Proper(s.attempts[a])
    ensures MovesOn(s, StartBegun(s, a), a)
  {}

  lemma StartBegunCore(s: State, a: nat)
    requires Core(s) && a < |s.attempts| && s.attempts[a].stage.Ending?
    ensures CoreButLine(StartBegun(s, a))
  {
    StartBegunMoves(s, a);
    MovesOnCore(s, StartBegun(s, a), a);
  }

  lemma StartCheckedCore(s: State, a: nat, ok: bool)
    requires Core(s) && a < |s.attempts| && s.attempts[a].stage.Checking?
    ensures CoreButLine(StartChecked(s, a, ok))
  {
    if ok && !Locked(s) {
      MovesOnCore(s, StartChecked(s, a, ok), a);
    } else {
      MovesOnCore(s, Left(s, a), a);
      if ok { EnqueuedCore(Left(s, a), s.attempts[a].server); }
    }
  }

  // The fields no attempt, queue or lock speaks of.
  lemma PhaseCore(s: State, t: State)
    requires CoreButLine(s) && t.attempts == s.attempts && t.queued == s.queued && t.lock == s.lock
    ensures CoreButLine(t)
  {}

  // A launch or a check that failed, or was cancelled.
  lemma FailedCore(s: State, a: nat)
    requires Core(s) && a < |s.attempts| && (IsLaunching(s.attempts[a]) || s.attempts[a].stage.Rechecking?)
    ensures LineStands(Unlocked(GaveBack(s, a), s.attempts[a].server))
    ensures CoreButLine(InPhase(Passed(Unlocked(GaveBack(s, a), s.attempts[a].server)), s.attempts[a].server, Offline))
  {
    var t := Unlocked(GaveBack(s, a), s.attempts[a].server);
    SlotBackMoves(s, t, a);
    SlotBackCore(s, t, a);
    PhaseCore(Passed(t), InPhase(Passed(t), s.attempts[a].server, Offline));
  }

  lemma LaunchEndedMoves(s: State, a: nat)
    requires LineStands(s) && a < |s.attempts| && IsLaunching(s.attempts[a]) && Proper(s.attempts[a])
    ensures MovesOn(s, LaunchEnded(s, a, true), a)
  {}

  lemma LaunchEndedCore(s: State, a: nat, ok: bool)
    requires Core(s) && a < |s.attempts| && IsLaunching(s.attempts[a])
    ensures CoreButLine(LaunchEnded(s, a, ok))
  {
    if ok {
      LaunchEndedMoves(s, a);
      MovesOnCore(s, LaunchEnded(s, a, ok), a);
    } else {
      FailedCore(s, a);
    }
  }

  // What the queue and an attempt's history say of it.
  ghost predicate Placed(s: State, a: nat) {
    && a < |s.attempts| && Proper(s.attempts[a])
    && (IsPending(s.attempts[a]) ==> s.attempts[a].server in s.queued && s.queued[s.attempts[a].server] == a)
  }

  lemma CreatedMoves(s: State, a: nat)
    requires Placed(s, a) && s.attempts[a].stage.Created? && LineStands(s)
    ensures MovesOn(s, Resumed(s, a), a)
  {}

  lemma GrantedMoves(s: State, a: nat)
    requires Placed(s, a) && s.attempts[a].stage.Granted? && LineStands(s)
    ensures MovesOn(s, Unqueued(Moved(s, a, Locking), s.attempts[a].server), a)
    ensures LineStands(Unqueued(Moved(s, a, Locking), s.attempts[a].server))
  {}

  lemma GrantedResumesCore(s: State, a: nat)
    requires Core(s) && Placed(s, a) && s.attempts[a].stage.Granted?
    ensures CoreButLine(Resumed(s, a))
  {
    var t := Unqueued(Moved(s, a, Locking), s.attempts[a].server);
    GrantedMoves(s, a);
    MovesOnCore(s, t, a);
    OnwardCore(t);
  }

  lemma OnwardCore(s: State)
    requires CoreButLine(s) && LineStands(s)
    ensures CoreButLine(Onward(s))
  {
    if s.free > 0 { WokenCore(s); }
  }

  lemma ResumedCore(s: State, a: nat)
    requires Core(s) && a < |s.attempts|
    ensures CoreButLine(Resumed(s, a))
  {
    assert Placed(s, a);
    if s.attempts[a].stage.Created? {
      CreatedMoves(s, a);
      MovesOnCore(s, Resumed(s, a), a);
    } else if s.attempts[a].stage.Granted? {
      GrantedResumesCore(s, a);
    } else if s.attempts[a].stage.Revoked? {
      SlotBackCore(s, GaveBack(s, a), a);
    }
  }

  lemma GotLockCore(s: State, a: nat)
    requires Core(s) && a < |s.attempts| && s.attempts[a].stage.Locking? && s.attempts[a].server !in s.lock
    ensures CoreButLine(GotLock(s, a))
  {
    if Is(s, s.attempts[a].server, InQueue) && s.attempts[a].server !in s.running {
      MovesOnCore(s, GotLock(s, a), a);
    } else {
      SlotBackCore(s, GaveBack(s, a), a);
    }
  }

  lemma RecheckedMoves(s: State, a: nat)
    requires LineStands(s) && a < |s.attempts| && s.attempts[a].stage.Rechecking? && Proper(s.attempts[a])
    ensures MovesOn(s, Rechecked(s, a, true), a)
  {}

  lemma RecheckedCore(s: State, a: nat, ok: bool)
    requires Core(s) && a < |s.attempts| && s.attempts[a].stage.Rechecking?
    ensures CoreButLine(Rechecked(s, a, ok))
  {
    if ok {
      RecheckedMoves(s, a);
      MovesOnCore(s, Rechecked(s, a, ok), a);
    } else {
      FailedCore(s, a);
    }
  }

  lemma CancelledMoves(s: State, v: string)
    requires v in s.queued && Placed(s, s.queued[v])
    requires s.attempts[s.queued[v]].server == v && IsPending(s.attempts[s.queued[v]])
    ensures MovesOn(s, Cancelled(s, v), s.queued[v])
  {}

  lemma CancelledCore(s: State, v: string)
    requires Core(s) && v in s.queued
    ensures CoreButLine(Cancelled(s, v))
  {
    CancelledMoves(s, v);
    MovesOnCore(s, Cancelled(s, v), s.queued[v]);
  }

  lemma EnteredLocks(s: State, v: string, stage: Stage)
    requires LockInv(s) && v !in s.lock && (stage.Ending? || stage.Adopting?)
    ensures LockInv(Entered(s, v, stage))
  {}

  lemma EnteredQueues(s: State, v: string, stage: Stage)
    requires QueueInv(s) && (stage.Ending? || stage.Adopting?)
    ensures QueueInv(Entered(s, v, stage))
  {}

  lemma EnteredProper(s: State, v: string, stage: Stage)
    requires AllProper(s) && (stage.Ending? || stage.Adopting?)
    ensures AllProper(Entered(s, v, stage))
  {}

  lemma EnteredCore(s: State, v: string, stage: Stage)
    requires Core(s) && v !in s.lock && (stage.Ending? || stage.Adopting?)
    ensures CoreButLine(Entered(s, v, stage))
  {
    EnteredLocks(s, v, stage);
    EnteredQueues(s, v, stage);
    EnteredProper(s, v, stage);
  }

  lemma AdoptedCore(s: State, a: nat, ok: bool)
    requires Core(s) && a < |s.attempts| && s.attempts[a].stage.Adopting?
    ensures CoreButLine(Adopted(s, a, ok))
  {
    AdoptedMoves(s, a, ok);
    MovesOnCore(s, Adopted(s, a, ok), a);
  }

  lemma AdoptedMoves(s: State, a: nat, ok: bool)
    requires a < |s.attempts| && s.attempts[a].stage.Adopting? && Proper(s.attempts[a])
    ensures MovesOn(s, Adopted(s, a, ok), a)
  {}

  lemma StartBegunKeepsLine(s: State, a: nat)
    requires LineInv(s) && Core(s)
    requires a < |s.attempts| && s.attempts[a].stage.Ending?
    ensures LineInv(StartBegun(s, a))
  {
    StillHanded(s, StartBegun(s, a), a);
  }

  lemma StartCheckedKeepsLine(s: State, a: nat, ok: bool)
    requires LineInv(s) && Core(s)
    requires a < |s.attempts| && s.attempts[a].stage.Checking?
    ensures LineInv(StartChecked(s, a, ok))
  {
    if ok && !Locked(s) { NobodyAhead(s); }
    StillHanded(s, StartChecked(s, a, ok), a);
  }

  lemma LaunchEndedKeepsLine(s: State, a: nat, ok: bool)
    requires LineInv(s) && Core(s)
    requires a < |s.attempts| && IsLaunching(s.attempts[a])
    ensures LineInv(LaunchEnded(s, a, ok))
  {
    if ok {
      StillHanded(s, LaunchEnded(s, a, ok), a);
    } else {
      FailedKeepsLine(s, a, s.attempts[a].server);
    }
  }

  lemma CreatedResumesKeepsLine(s: State, a: nat)
    requires LineInv(s) && Core(s)
    requires a < |s.attempts| && s.attempts[a].stage.Created?
    ensures LineInv(Resumed(s, a))
  {
    if Locked(s) {
      JoinedKeepsLine(s, a);
    } else {
      NobodyAhead(s);
      LeftAlone(s, Resumed(s, a), a);
    }
  }

  lemma ResumedKeepsLine(s: State, a: nat)
    requires LineInv(s) && Core(s)
    requires a < |s.attempts|
    ensures LineInv(Resumed(s, a))
  {
    if s.attempts[a].stage.Created? {
      CreatedResumesKeepsLine(s, a);
    } else if s.attempts[a].stage.Granted? {
      GrantedResumesKeepsLine(s, a);
    } else if s.attempts[a].stage.Revoked? {
      GaveBackKeepsLine(s, a);
    }
  }

  lemma GotLockKeepsLine(s: State, a: nat)
    requires LineInv(s) && Core(s)
    requires a < |s.attempts| && s.attempts[a].stage.Locking? && s.attempts[a].server !in s.lock
    ensures LineInv(GotLock(s, a))
  {
    if Is(s, s.attempts[a].server, InQueue) && s.attempts[a].server !in s.running {
      StillHanded(s, GotLock(s, a), a);
    } else {
      GaveBackKeepsLine(s, a);
    }
  }

  lemma RecheckedKeepsLine(s: State, a: nat, ok: bool)
    requires LineInv(s) && Core(s)
    requires a < |s.attempts| && s.attempts[a].stage.Rechecking?
    ensures LineInv(Rechecked(s, a, ok))
  {
    if ok {
      StillHanded(s, Rechecked(s, a, ok), a);
    } else {
      FailedKeepsLine(s, a, s.attempts[a].server);
    }
  }

  lemma CancelledKeepsLine(s: State, v: string)
    requires LineInv(s) && Core(s)
    requires v in s.queued
    ensures LineInv(Cancelled(s, v))
  {
    StruckKeepsLine(s, s.queued[v]);
  }

  lemma EnteredKeepsLine(s: State, v: string, stage: Stage)
    requires LineInv(s) && Core(s)
    requires v !in s.lock && (stage.Ending? || stage.Adopting?)
    ensures LineInv(Entered(s, v, stage))
  {
    StillHanded(s, Entered(s, v, stage), |s.attempts|);
  }

  lemma AdoptedKeepsLine(s: State, a: nat, ok: bool)
    requires LineInv(s) && Core(s)
    requires a < |s.attempts| && s.attempts[a].stage.Adopting?
    ensures LineInv(Adopted(s, a, ok))
  {
    if ok && Is(s, s.attempts[a].server, Starting) && !Locked(s) { NobodyAhead(s); }
    StillHanded(s, Adopted(s, a, ok), a);
  }

  ghost predicate Inv(s: State) { CoreButLine(s) && LineInv(s) }

  // The fields no invariant speaks of.
  lemma OtherFields(s: State, t: State)
    requires Inv(s) && t == s.(phase := t.phase, running := t.running)
    ensures Inv(t)
  {
    SameLine(s, t);
  }

  lemma StartBegunKeeps(s: State, a: nat)
    requires Inv(s) && a < |s.attempts| && s.attempts[a].stage.Ending?
    ensures Inv(StartBegun(s, a))
  {
    StartBegunCore(s, a);
    StartBegunKeepsLine(s, a);
  }

  lemma StartCheckedKeeps(s: State, a: nat, ok: bool)
    requires Inv(s) && a < |s.attempts| && s.attempts[a].stage.Checking?
    ensures Inv(StartChecked(s, a, ok))
  {
    StartCheckedCore(s, a, ok);
    StartCheckedKeepsLine(s, a, ok);
  }

  lemma LaunchEndedKeeps(s: State, a: nat, ok: bool)
    requires Inv(s) && a < |s.attempts| && IsLaunching(s.attempts[a])
    ensures Inv(LaunchEnded(s, a, ok))
  {
    LaunchEndedCore(s, a, ok);
    LaunchEndedKeepsLine(s, a, ok);
  }

  lemma ResumedKeeps(s: State, a: nat)
    requires Inv(s) && a < |s.attempts|
    ensures Inv(Resumed(s, a))
  {
    ResumedCore(s, a);
    ResumedKeepsLine(s, a);
  }

  lemma GotLockKeeps(s: State, a: nat)
    requires Inv(s) && a < |s.attempts| && s.attempts[a].stage.Locking? && s.attempts[a].server !in s.lock
    ensures Inv(GotLock(s, a))
  {
    GotLockCore(s, a);
    GotLockKeepsLine(s, a);
  }

  lemma RecheckedKeeps(s: State, a: nat, ok: bool)
    requires Inv(s) && a < |s.attempts| && s.attempts[a].stage.Rechecking?
    ensures Inv(Rechecked(s, a, ok))
  {
    RecheckedCore(s, a, ok);
    RecheckedKeepsLine(s, a, ok);
  }

  lemma CancelledKeeps(s: State, v: string)
    requires Inv(s) && v in s.queued
    ensures Inv(Cancelled(s, v))
  {
    CancelledCore(s, v);
    CancelledKeepsLine(s, v);
  }

  lemma EnteredKeeps(s: State, v: string, stage: Stage)
    requires Inv(s) && v !in s.lock && (stage.Ending? || stage.Adopting?)
    ensures Inv(Entered(s, v, stage))
  {
    EnteredCore(s, v, stage);
    EnteredKeepsLine(s, v, stage);
  }

  lemma AdoptedKeeps(s: State, a: nat, ok: bool)
    requires Inv(s) && a < |s.attempts| && s.attempts[a].stage.Adopting?
    ensures Inv(Adopted(s, a, ok))
  {
    AdoptedCore(s, a, ok);
    AdoptedKeepsLine(s, a, ok);
  }

  lemma StopEndedKeeps(s: State, a: nat)
    requires Inv(s) && a < |s.attempts| && s.attempts[a].stage.Ending?
    ensures Inv(StopEnded(s, a))
  {
    if s.attempts[a].stage.again { StartBegunKeeps(s, a); } else { LeftKeeps(s, a); }
  }

  lemma LeftKeeps(s: State, a: nat)
    requires Inv(s) && a < |s.attempts| && s.attempts[a].stage.Ending?
    ensures Inv(Left(s, a))
  {
    MovesOnCore(s, Left(s, a), a);
    StillHanded(s, Left(s, a), a);
  }

  lemma StopBegunKeeps(s: State, v: string, again: bool)
    requires Inv(s) && v !in s.lock
    ensures Inv(StopBegun(s, v, again))
  {
    var t := s;
    if v in s.queued {
      CancelledKeeps(s, v);
      t := InPhase(Cancelled(s, v), v, Offline);
      OtherFields(Cancelled(s, v), t);
    }
    EnteredKeeps(t, v, Ending(again));
    var u := Entered(t, v, Ending(again));
    if v !in s.queued && v in s.running {
      OtherFields(u, InPhase(u, v, Stopping));
    } else {
      StopEndedKeeps(u, |t.attempts|);
    }
  }

  lemma HoldEndedKeeps(s: State, a: nat)
    requires Inv(s) && a < |s.attempts| && s.attempts[a].stage.Holding?
    ensures Inv(Released(s, a))
  {
    SlotBackCore(s, GaveBack(s, a), a);
    GaveBackKeepsLine(s, a);
  }

  lemma PowerStartKeeps(s: State, v: string)
    requires Inv(s)
    ensures Inv(Next(s, PowerStart(v)))
  {
    if v !in s.lock {
      EnteredKeeps(s, v, Ending(true));
      StartBegunKeeps(Entered(s, v, Ending(true)), |s.attempts|);
    }
  }

  lemma PowerStopKeeps(s: State, v: string, again: bool)
    requires Inv(s)
    ensures Inv(Next(s, PowerStop(v, again)))
  {
    if v !in s.lock { StopBegunKeeps(s, v, again); }
  }

  lemma RestoreKeeps(s: State, v: string, again: bool)
    requires Inv(s)
    ensures Inv(Next(s, Restore(v, again)))
  {
    if v !in s.lock {
      if v in s.running { StopBegunKeeps(s, v, again); } else { EnteredKeeps(s, v, Ending(false)); }
    }
  }

  lemma StopEndsKeeps(s: State, a: nat)
    requires Inv(s)
    ensures Inv(Next(s, StopEnds(a)))
  {
    if a < |s.attempts| && s.attempts[a].stage.Ending? { StopEndedKeeps(s, a); }
  }

  lemma ChecksKeeps(s: State, a: nat, ok: bool)
    requires Inv(s)
    ensures Inv(Next(s, Checks(a, ok)))
  {
    if a < |s.attempts| && s.attempts[a].stage.Checking? {
      StartCheckedKeeps(s, a, ok);
    } else if a < |s.attempts| && s.attempts[a].stage.Rechecking? {
      RecheckedKeeps(s, a, ok);
    }
  }

  lemma LaunchEndsKeeps(s: State, a: nat, ok: bool)
    requires Inv(s)
    ensures Inv(Next(s, LaunchEnds(a, ok)))
  {
    if a < |s.attempts| && IsLaunching(s.attempts[a]) { LaunchEndedKeeps(s, a, ok); }
  }

  lemma ResumeKeeps(s: State, a: nat)
    requires Inv(s)
    ensures Inv(Next(s, Resume(a)))
  {
    if a < |s.attempts| { ResumedKeeps(s, a); }
  }

  lemma GetLockKeeps(s: State, a: nat)
    requires Inv(s)
    ensures Inv(Next(s, GetLock(a)))
  {
    if a < |s.attempts| && s.attempts[a].stage.Locking? && s.attempts[a].server !in s.lock { GotLockKeeps(s, a); }
  }

  lemma HoldEndsKeeps(s: State, a: nat)
    requires Inv(s)
    ensures Inv(Next(s, HoldEnds(a)))
  {
    if a < |s.attempts| && s.attempts[a].stage.Holding? { HoldEndedKeeps(s, a); }
  }

  lemma DeleteKeeps(s: State, v: string)
    requires Inv(s)
    ensures Inv(Next(s, Delete(v)))
  {
    if v in s.queued { CancelledKeeps(s, v); }
  }

  lemma AdoptKeeps(s: State, v: string)
    requires Inv(s)
    ensures Inv(Next(s, Adopt(v)))
  {
    if v !in s.lock && v !in s.running {
      EnteredKeeps(s, v, Adopting);
      OtherFields(Entered(s, v, Adopting), Next(s, Adopt(v)));
    }
  }

  lemma AdoptEndsKeeps(s: State, a: nat, ok: bool)
    requires Inv(s)
    ensures Inv(Next(s, AdoptEnds(a, ok)))
  {
    if a < |s.attempts| && s.attempts[a].stage.Adopting? { AdoptedKeeps(s, a, ok); }
  }

  lemma NewsKeeps(s: State, v: string, phase: Phase)
    requires Inv(s)
    ensures Inv(Next(s, Exit(v, phase))) && Inv(Next(s, Becomes(v, phase)))
  {
    OtherFields(s, Next(s, Exit(v, phase)));
    OtherFields(s, Next(s, Becomes(v, phase)));
  }

  lemma NextKeeps(s: State, step: Step)
    requires Inv(s)
    ensures Inv(Next(s, step))
  {
    match step {
      case PowerStart(v) => PowerStartKeeps(s, v);
      case PowerStop(v, again) => PowerStopKeeps(s, v, again);
      case Restore(v, again) => RestoreKeeps(s, v, again);
      case StopEnds(a) => StopEndsKeeps(s, a);
      case Checks(a, ok) => ChecksKeeps(s, a, ok);
      case LaunchEnds(a, ok) => LaunchEndsKeeps(s, a, ok);
      case Resume(a) => ResumeKeeps(s, a);
      case GetLock(a) => GetLockKeeps(s, a);
      case HoldEnds(a) => HoldEndsKeeps(s, a);
      case Delete(v) => DeleteKeeps(s, v);
      case Adopt(v) => AdoptKeeps(s, v);
      case AdoptEnds(a, ok) => AdoptEndsKeeps(s, a, ok);
      case Exit(v, phase) => NewsKeeps(s, v, phase);
      case Becomes(v, phase) => NewsKeeps(s, v, phase);
    }
  }

  ghost function After(slots: nat, steps: seq<Step>): (s: State)
    ensures Inv(s)
  {
    if steps == [] then Start(slots)
    else
      var s := After(slots, steps[..|steps| - 1]);
      NextKeeps(s, steps[|steps| - 1]);
      Next(s, steps[|steps| - 1])
  }
}
