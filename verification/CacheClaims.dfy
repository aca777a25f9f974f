// The node's download cache (agent/downloads.py, Cache): who has claimed each
// file, by SHA-1, and what pruning may delete.
//
// A claim is counted, waits for the file's lock, holds it, and goes. The lock is
// an object kept only while somebody counts: here each lock made has a number.

module CacheClaims {
  import opened Prelude

  type Sha = string

  datatype Stage = Waiting | Inside | Gone

  // `fetch`: which fetch it is for; None for the rest of the node.
  datatype Claim = Claim(sha: Sha, lock: nat, stage: Stage, fetch: Option<nat>)

  datatype State = State(
    locks: map<Sha, nat>, users: map<Sha, nat>, holder: map<nat, nat>,
    claims: seq<Claim>, nextLock: nat)

  const Empty := State(map[], map[], map[], [], 0)

  function UsersOf(s: State, sha: Sha): nat { if sha in s.users then s.users[sha] else 0 }

  function LockFor(s: State, sha: Sha): nat { if sha in s.locks then s.locks[sha] else s.nextLock }

  function Claimed(s: State, sha: Sha, fetch: Option<nat>): State {
    s.(locks := s.locks[sha := LockFor(s, sha)],
       nextLock := if sha in s.locks then s.nextLock else s.nextLock + 1,
       users := s.users[sha := UsersOf(s, sha) + 1],
       claims := s.claims + [Claim(sha, LockFor(s, sha), Waiting, fetch)])
  }

  predicate CanEnter(s: State, c: nat) {
    c < |s.claims| && s.claims[c].stage.Waiting? && s.claims[c].lock !in s.holder
  }

  function Entered(s: State, c: nat): State
    requires CanEnter(s, c)
  {
    s.(holder := s.holder[s.claims[c].lock := c], claims := s.claims[c := s.claims[c].(stage := Inside)])
  }

  // The end of a claim, from inside its lock or (cancelled) from the wait for it.
  function Left(s: State, c: nat): State
    requires c < |s.claims|
  {
    var x := s.claims[c];
    var t := s.(holder := if x.stage.Inside? then s.holder - {x.lock} else s.holder,
                claims := s.claims[c := x.(stage := Gone)]);
    if UsersOf(s, x.sha) <= 1 then t.(users := s.users - {x.sha}, locks := s.locks - {x.sha})
    else t.(users := s.users[x.sha := s.users[x.sha] - 1])
  }

  // --- what every step keeps --------------------------------------------------------

  predicate IsLive(x: Claim, sha: Sha) { !x.stage.Gone? && x.sha == sha }

  // How many fetches want this file right now.
  function Live(claims: seq<Claim>, sha: Sha): nat {
    if claims == [] then 0
    else Live(claims[..|claims| - 1], sha) + if IsLive(claims[|claims| - 1], sha) then 1 else 0
  }

  lemma {:induction false} LivePut(claims: seq<Claim>, c: nat, x: Claim, sha: Sha)
    requires c < |claims|
    ensures Live(claims[c := x], sha) + (if IsLive(claims[c], sha) then 1 else 0)
         == Live(claims, sha) + (if IsLive(x, sha) then 1 else 0)
  {
    var init := claims[..|claims| - 1];
    if c < |init| {
      LivePut(init, c, x, sha);
      assert claims[c := x][..|claims| - 1] == init[c := x];
    } else {
      assert claims[c := x][..|claims| - 1] == init;
    }
  }

  lemma {:induction false} SomebodyLives(claims: seq<Claim>, c: nat)
    requires c < |claims| && !claims[c].stage.Gone?
    ensures Live(claims, claims[c].sha) > 0
  {
    LivePut(claims, c, claims[c].(stage := Gone), claims[c].sha);
  }

  // The counts are right, and kept only while somebody counts.
  ghost predicate Counted(s: State) {
    && s.locks.Keys == s.users.Keys
    && forall sha: Sha :: UsersOf(s, sha) == Live(s.claims, sha) && (sha in s.users ==> s.users[sha] > 0)
  }

  // Everybody who wants a file wants it through the same lock.
  ghost predicate OneLockEach(s: State) {
    && (forall c :: 0 <= c < |s.claims| && !s.claims[c].stage.Gone? ==>
          s.claims[c].sha in s.locks && s.locks[s.claims[c].sha] == s.claims[c].lock)
    && (forall sha :: sha in s.locks ==> s.locks[sha] < s.nextLock)
  }

  ghost predicate Held(s: State) {
    && (forall c :: 0 <= c < |s.claims| && s.claims[c].stage.Inside? ==>
          s.claims[c].lock in s.holder && s.holder[s.claims[c].lock] == c)
    && (forall l :: l in s.holder ==>
          && l < s.nextLock && s.holder[l] < |s.claims|
          && s.claims[s.holder[l]].stage.Inside? && s.claims[s.holder[l]].lock == l)
  }

  ghost predicate Inv(s: State) { Counted(s) && OneLockEach(s) && Held(s) }

  lemma ClaimedCounts(s: State, sha: Sha, fetch: Option<nat>)
    requires Inv(s)
    ensures Counted(Claimed(s, sha, fetch))
  {
    var t := Claimed(s, sha, fetch);
    assert t.claims[..|s.claims|] == s.claims;
  }

  lemma ClaimedLocks(s: State, sha: Sha, fetch: Option<nat>)
    requires Inv(s)
    ensures OneLockEach(Claimed(s, sha, fetch)) && Held(Claimed(s, sha, fetch))
  {}

  lemma ClaimedKeeps(s: State, sha: Sha, fetch: Option<nat>)
    requires Inv(s)
    ensures Inv(Claimed(s, sha, fetch))
  {
    ClaimedCounts(s, sha, fetch);
    ClaimedLocks(s, sha, fetch);
  }

  lemma EnteredKeeps(s: State, c: nat)
    requires Inv(s) && CanEnter(s, c)
    ensures Inv(Entered(s, c))
  {
    EnteredCounts(s, c);
  }

  lemma EnteredCounts(s: State, c: nat)
    requires Inv(s) && CanEnter(s, c)
    ensures Counted(Entered(s, c))
  {
    var t := Entered(s, c);
    forall sha: Sha
      ensures Live(t.claims, sha) == Live(s.claims, sha)
    {
      LivePut(s.claims, c, t.claims[c], sha);
    }
  }

  lemma LeftCounts(s: State, c: nat)
    requires Inv(s) && c < |s.claims| && !s.claims[c].stage.Gone?
    ensures Counted(Left(s, c))
    ensures forall sha: Sha ::
      Live(Left(s, c).claims, sha) == Live(s.claims, sha) - if sha == s.claims[c].sha then 1 else 0
  {
    var t := Left(s, c);
    SomebodyLives(s.claims, c);
    forall sha: Sha
      ensures Live(t.claims, sha) == Live(s.claims, sha) - if sha == s.claims[c].sha then 1 else 0
    {
      LivePut(s.claims, c, t.claims[c], sha);
    }
  }

  lemma LeftLocks(s: State, c: nat)
    requires Inv(s) && c < |s.claims| && !s.claims[c].stage.Gone?
    ensures OneLockEach(Left(s, c))
  {
    var t := Left(s, c);
    LeftCounts(s, c);
    forall d | 0 <= d < |t.claims| && !t.claims[d].stage.Gone?
      ensures t.claims[d].sha in t.locks && t.locks[t.claims[d].sha] == t.claims[d].lock
    {
      SomebodyLives(t.claims, d);
      assert s.claims[d] == t.claims[d];
    }
  }

  lemma LeftHolds(s: State, c: nat)
    requires Held(s) && c < |s.claims| && !s.claims[c].stage.Gone?
    ensures Held(Left(s, c))
  {}

  lemma LeftKeeps(s: State, c: nat)
    requires Inv(s) && c < |s.claims| && !s.claims[c].stage.Gone?
    ensures Inv(Left(s, c))
  {
    LeftCounts(s, c);
    LeftLocks(s, c);
    LeftHolds(s, c);
  }

  // Two claims inside are for two different files.
  lemma OneInsideEach(s: State, c: nat, d: nat)
    requires Inv(s) && c < |s.claims| && d < |s.claims|
    requires s.claims[c].stage.Inside? && s.claims[d].stage.Inside? && s.claims[c].sha == s.claims[d].sha
    ensures c == d
  {}
}
