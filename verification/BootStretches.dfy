// What becomes of a start at each stretch of its way, in every state there is: into the
// queue, along the line, out of it, up or failed, and its slot given back.

module BootStretches {
  import opened Prelude
  import opened BootQueue

  ghost predicate IsIn(s: State, a: nat, v: string, stage: Stage) {
    a < |s.attempts| && s.attempts[a].server == v && s.attempts[a].stage == stage
  }

  // Over, with everything it took given back.
  ghost predicate IsDone(s: State, a: nat) {
    a < |s.attempts| && s.attempts[a].stage.Over? && s.attempts[a].released == s.attempts[a].acquired
  }

  ghost predicate HasLock(s: State, v: string, a: nat) { v in s.lock && s.lock[v] == a }

  // A request to start: for a server that runs or is queued it comes to nothing, and for
  // any other it goes to its checks, with the lock.
  lemma AStartBegins(s: State, v: string)
    requires Inv(s) && v !in s.lock
    ensures var t, a := Next(s, PowerStart(v)), |s.attempts|;
      && t.queued == s.queued && t.running == s.running && t.phase == s.phase && t.free == s.free
      && if v in s.running || v in s.queued then IsDone(t, a) && v !in t.lock
         else IsIn(t, a, v, Checking) && HasLock(t, v, a)
  {}

  // Checked, with no slot to be had at once: it is over, and a start of the server is in
  // the queue in its place.
  lemma AStartIsQueued(s: State, a: nat)
    requires Inv(s) && a < |s.attempts| && s.attempts[a].stage.Checking? && Locked(s)
    ensures var t, v, b := Next(s, Checks(a, true)), s.attempts[a].server, |s.attempts|;
      && IsDone(t, a) && v !in t.lock && Is(t, v, InQueue)
      && IsIn(t, b, v, Created) && v in t.queued && t.queued[v] == b
  {
    assert Proper(s.attempts[a]);
  }

  // A queued start runs: it joins the line's end, or has a slot and leaves the queue for
  // the server's lock.
  lemma AQueuedStartRuns(s: State, a: nat)
    requires Inv(s) && a < |s.attempts| && s.attempts[a].stage.Created?
    ensures var t, v := Next(s, Resume(a)), s.attempts[a].server;
      if Locked(s) then IsIn(t, a, v, Waiting) && t.queued == s.queued && t.line == s.line + [a]
      else IsIn(t, a, v, Locking) && v !in t.queued && t.attempts[a].acquired == 1 && t.free == s.free - 1
  {
    assert Proper(s.attempts[a]);
  }

  // One handed a slot leaves the queue for the lock with it; one that was stopped
  // meanwhile gives it back.
  lemma OneHandedASlotResumes(s: State, a: nat)
    requires Inv(s) && a < |s.attempts| && s.attempts[a].stage.Granted?
    ensures IsIn(Next(s, Resume(a)), a, s.attempts[a].server, Locking)
    ensures s.attempts[a].server !in Next(s, Resume(a)).queued
  {
    var t := Unqueued(Moved(s, a, Locking), s.attempts[a].server);
    WokenLeaves(t, a);
  }

  lemma WokenLeaves(s: State, a: nat)
    requires LineStands(s) && a < |s.attempts| && !s.attempts[a].stage.Waiting?
    ensures Onward(s).queued == s.queued && a < |Onward(s).attempts| && Onward(s).attempts[a] == s.attempts[a]
    ensures var t := Passed(s);
      && a < |t.attempts| && t.attempts[a] == s.attempts[a]
      && t.lock == s.lock && t.queued == s.queued && t.running == s.running && t.phase == s.phase
  {}

  lemma ARevokedStartGivesBack(s: State, a: nat)
    requires Inv(s) && a < |s.attempts| && s.attempts[a].stage.Revoked?
    ensures IsDone(Next(s, Resume(a)), a) && Next(s, Resume(a)).attempts[a].released == 1
  {
    assert Proper(s.attempts[a]);
    WokenLeaves(GaveBack(s, a), a);
  }

  // A launch that succeeds leaves the server running, its lock free, and the slot held; one
  // that fails leaves it offline, its lock free, and the slot given back.
  lemma ALaunchSucceeds(s: State, a: nat)
    requires Inv(s) && a < |s.attempts| && IsLaunching(s.attempts[a])
    ensures var t, v := Next(s, LaunchEnds(a, true)), s.attempts[a].server;
      IsIn(t, a, v, Holding) && t.running == s.running + {v} && v !in t.lock && t.free == s.free && t.phase == s.phase
  {}

  lemma ALaunchFails(s: State, a: nat)
    requires Inv(s) && a < |s.attempts| && IsLaunching(s.attempts[a])
    ensures var t, v := Next(s, LaunchEnds(a, false)), s.attempts[a].server;
      && IsDone(t, a) && t.attempts[a].released == 1
      && t.running == s.running && v !in t.lock && Is(t, v, Offline)
  {
    assert Proper(s.attempts[a]);
    WokenLeaves(Unlocked(GaveBack(s, a), s.attempts[a].server), a);
  }

  // A hold's end gives the slot back and changes nothing of the server.
  lemma AHoldEnds(s: State, a: nat)
    requires Inv(s) && a < |s.attempts| && s.attempts[a].stage.Holding?
    ensures var t := Next(s, HoldEnds(a));
      && IsDone(t, a) && t.attempts[a].released == 1
      && t.running == s.running && t.lock == s.lock && t.phase == s.phase && t.queued == s.queued
  {
    assert Proper(s.attempts[a]);
    WokenLeaves(GaveBack(s, a), a);
  }

  // A server found running is starting, with its lock, until it is re-attached; then it
  // runs, and holds a slot exactly if it still starts and one is to be had at once; or it
  // is offline.
  lemma AnAdoptionBegins(s: State, v: string)
    requires Inv(s)
    ensures var t, a := Next(s, Adopt(v)), |s.attempts|;
      if v in s.lock || v in s.running then t == s
      else IsIn(t, a, v, Adopting) && HasLock(t, v, a) && Is(t, v, Starting) && t.running == s.running
  {}

  lemma AnAdoptionEnds(s: State, a: nat, ok: bool)
    requires Inv(s) && a < |s.attempts| && s.attempts[a].stage.Adopting?
    ensures var t, v := Next(s, AdoptEnds(a, ok)), s.attempts[a].server;
      && v !in t.lock && t.running == (if ok then s.running + {v} else s.running)
      && (if ok then t.phase == s.phase else Is(t, v, Offline))
      && if ok && Is(s, v, Starting) && !Locked(s) then IsIn(t, a, v, Holding) && t.free == s.free - 1
         else IsDone(t, a) && t.free == s.free
  {
    assert Proper(s.attempts[a]);
  }

  // The world outside: a server exits, and no longer runs; its state is what it is said
  // to become; and nobody's start is touched.
  lemma NewsComes(s: State, v: string, phase: Phase)
    requires Inv(s)
    ensures var t := Next(s, Exit(v, phase));
      Is(t, v, phase) && t.running == s.running - {v} && t == s.(phase := t.phase, running := t.running)
    ensures var t := Next(s, Becomes(v, phase)); Is(t, v, phase) && t == s.(phase := t.phase)
    ensures forall u :: u != v && u in s.phase ==>
      u in Next(s, Exit(v, phase)).phase && Next(s, Exit(v, phase)).phase[u] == s.phase[u]
  {}
}
