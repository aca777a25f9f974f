// One `fetch_many` (agent/downloads.py): many files at once, through the shared
// cache, while the rest of the node claims, fills, prunes and damages that cache.
//
// SHA-1 is a parameter: nothing about it is used but that it is a function.

module DownloadRuns {
  import opened Prelude
  import C = CacheClaims

  type Sha = C.Sha
  type Bytes = seq<bv8>

  const ATTEMPTS: nat := 4

  datatype Item = Item(path: string, sha: Sha, size: nat, cacheOnly: bool)

  predicate Good(item: Item, b: Bytes, sha1: Bytes -> Sha) {
    |b| == item.size && sha1(b) == item.sha
  }

  // One attempt at a download: what arrived, an answer no retry fixes, or a fault.
  datatype Try = Arrived(body: Bytes) | Refusal | Fault

  // `_download`: what the attempts come to.
  function Downloaded(item: Item, tries: seq<Try>, sha1: Bytes -> Sha): (r: Option<Bytes>)
    ensures r.Some? ==> Good(item, r.value, sha1) && Arrived(r.value) in tries
  {
    if tries == [] || tries[0].Refusal? then None
    else if tries[0].Arrived? && Good(item, tries[0].body, sha1) then Some(tries[0].body)
    else Downloaded(item, tries[1..], sha1)
  }

  // How reading the cache's copy into the folder goes. Blocked: the jail or the
  // disk refused the write.
  datatype Copy = Missing | Read(body: Bytes) | Blocked

  // Where one file's fetch is. `again` is its second try.
  datatype Stage =
    | Queued
    | Claiming(c: nat, again: bool)
    | Looking(c: nat, again: bool)
    | Downloading(c: nat, again: bool)
    | Copying(anew: bool, again: bool)
    | Placed(anew: bool)
    | Failed

  datatype State = State(
    claims: C.State, cache: map<Sha, Bytes>, folder: map<string, Bytes>, stages: seq<Stage>,
    downloaded: nat, cached: nat, failed: nat)

  predicate HasClaim(g: Stage) { g.Claiming? || g.Looking? || g.Downloading? }

  predicate IsRunning(g: Stage) { HasClaim(g) || g.Copying? }

  function Count(stages: seq<Stage>, g: Stage -> bool): nat {
    if stages == [] then 0
    else Count(stages[..|stages| - 1], g) + if g(stages[|stages| - 1]) then 1 else 0
  }

  function Start(claims: C.State, cache: map<Sha, Bytes>, n: nat): State {
    State(claims, cache, map[], seq(n, i => Queued), 0, 0, 0)
  }

  datatype Step =
    | Begin(i: nat)
    | Enter(i: nat)
    | Look(i: nat)
    | Download(i: nat, tries: seq<Try>)
    | CopyIn(i: nat, copy: Copy)
    | OtherClaims(sha: Sha)
    | OtherEnters(c: nat)
    | OtherLeaves(c: nat)
    | CacheChanges(sha: Sha, body: Option<Bytes>)

  function At(s: State, i: nat, g: Stage): State
    requires i < |s.stages|
  { s.(stages := s.stages[i := g]) }

  function Claims(s: State, items: seq<Item>, i: nat, again: bool): State
    requires i < |s.stages| == |items|
  {
    At(s, i, Claiming(|s.claims.claims|, again)).(claims := C.Claimed(s.claims, items[i].sha, Some(i)))
  }

  function Leaves(s: State, c: nat): State
    requires c < |s.claims.claims|
  { s.(claims := C.Left(s.claims, c)) }

  function Fails(s: State, i: nat): State
    requires i < |s.stages|
  { At(s, i, Failed).(failed := s.failed + 1) }

  function Looked(s: State, items: seq<Item>, i: nat): State
    requires i < |s.stages| == |items| && s.stages[i].Looking? && s.stages[i].c < |s.claims.claims|
  {
    var Item(path, sha, size, cacheOnly) := items[i];
    var Looking(c, again) := s.stages[i];
    if sha in s.cache && |s.cache[sha]| == size then At(Leaves(s, c), i, Copying(false, again))
    else
      var t := s.(cache := s.cache - {sha});
      if cacheOnly then Fails(Leaves(t, c), i) else At(t, i, Downloading(c, again))
  }

  function Fetched(s: State, items: seq<Item>, i: nat, tries: seq<Try>, sha1: Bytes -> Sha): State
    requires i < |s.stages| == |items| && s.stages[i].Downloading? && s.stages[i].c < |s.claims.claims|
  {
    var Downloading(c, again) := s.stages[i];
    var got := Downloaded(items[i], if |tries| <= ATTEMPTS then tries else tries[..ATTEMPTS], sha1);
    if got.Some? then At(Leaves(s, c), i, Copying(true, again)).(cache := s.cache[items[i].sha := got.value])
    else Fails(Leaves(s, c), i)
  }

  function Copied(s: State, items: seq<Item>, i: nat, copy: Copy, sha1: Bytes -> Sha): State
    requires i < |s.stages| == |items| && s.stages[i].Copying?
  {
    var Copying(anew, again) := s.stages[i];
    if copy.Blocked? then Fails(s, i)
    else if copy.Read? && Good(items[i], copy.body, sha1) then
      var t := At(s, i, Placed(anew)).(folder := s.folder[items[i].path := copy.body]);
      if anew then t.(downloaded := s.downloaded + 1) else t.(cached := s.cached + 1)
    else
      var t := s.(cache := s.cache - {items[i].sha});
      if again then Fails(t, i) else Claims(t, items, i, true)
  }

  predicate IsOthers(s: State, c: nat) {
    c < |s.claims.claims| && s.claims.claims[c].fetch.None? && !s.claims.claims[c].stage.Gone?
  }

  ghost function Next(s: State, items: seq<Item>, gate: nat, step: Step, sha1: Bytes -> Sha): State
    requires Inv(s, items, gate, sha1)
  {
    match step
    case Begin(i) =>
      if i < |s.stages| && s.stages[i].Queued? && Count(s.stages, IsRunning) < gate then Claims(s, items, i, false)
      else s
    case Enter(i) =>
      if i < |s.stages| && s.stages[i].Claiming? && C.CanEnter(s.claims, s.stages[i].c) then
        At(s, i, Looking(s.stages[i].c, s.stages[i].again)).(claims := C.Entered(s.claims, s.stages[i].c))
      else s
    case Look(i) => if i < |s.stages| && s.stages[i].Looking? then Looked(s, items, i) else s
    case Download(i, tries) =>
      if i < |s.stages| && s.stages[i].Downloading? then Fetched(s, items, i, tries, sha1) else s
    case CopyIn(i, copy) =>
      if i < |s.stages| && s.stages[i].Copying? then Copied(s, items, i, copy, sha1) else s
    case OtherClaims(sha) => s.(claims := C.Claimed(s.claims, sha, None))
    case OtherEnters(c) =>
      if IsOthers(s, c) && C.CanEnter(s.claims, c) then s.(claims := C.Entered(s.claims, c)) else s
    case OtherLeaves(c) => if IsOthers(s, c) then Leaves(s, c) else s
    case CacheChanges(sha, body) =>
      s.(cache := if body.Some? then s.cache[sha := body.value] else s.cache - {sha})
  }

  // --- what every step keeps ---------------------------------------------------------

  // A fetch's stage and its claim agree, both ways round.
  ghost predicate ClaimsAgree(s: State, items: seq<Item>) {
    && C.Inv(s.claims)
    && |s.stages| == |items|
    && (forall i :: 0 <= i < |s.stages| && HasClaim(s.stages[i]) ==>
          s.stages[i].c < |s.claims.claims| && ClaimFits(s.claims.claims[s.stages[i].c], s.stages[i], items[i], i))
    && (forall c :: 0 <= c < |s.claims.claims| && !s.claims.claims[c].stage.Gone? ==>
          OwnerHasIt(s, s.claims.claims[c].fetch, c))
  }

  predicate ClaimFits(x: C.Claim, g: Stage, item: Item, i: nat) {
    x.fetch == Some(i) && x.sha == item.sha && (if g.Claiming? then x.stage.Waiting? else x.stage.Inside?)
  }

  predicate OwnerHasIt(s: State, fetch: Option<nat>, c: nat) {
    fetch.Some? ==> fetch.value < |s.stages| && HasClaim(s.stages[fetch.value]) && s.stages[fetch.value].c == c
  }

  // Nothing unverified is in the folder, and everything placed is.
  ghost predicate FolderIsVerified(s: State, items: seq<Item>, sha1: Bytes -> Sha) {
    && |s.stages| == |items|
    && (forall i :: 0 <= i < |items| && s.stages[i].Placed? ==>
          items[i].path in s.folder && Good(items[i], s.folder[items[i].path], sha1))
    && (forall p :: p in s.folder ==> PlacedAt(s, items, p))
  }

  ghost predicate PlacedAt(s: State, items: seq<Item>, p: string)
    requires |s.stages| == |items|
  {
    exists i :: 0 <= i < |items| && items[i].path == p && s.stages[i].Placed?
  }

  predicate WasDownloaded(g: Stage) { g == Placed(true) }
  predicate WasCached(g: Stage) { g == Placed(false) }
  predicate HasFailed(g: Stage) { g.Failed? }

  ghost predicate ProgressIsRight(s: State, gate: nat) {
    && s.downloaded == Count(s.stages, WasDownloaded)
    && s.cached == Count(s.stages, WasCached)
    && s.failed == Count(s.stages, HasFailed)
    && Count(s.stages, IsRunning) <= gate
  }

  // check_entries refuses a list that names a path twice.
  ghost predicate PathsDiffer(items: seq<Item>) {
    forall i, j :: 0 <= i < j < |items| ==> items[i].path != items[j].path
  }

  ghost predicate Inv(s: State, items: seq<Item>, gate: nat, sha1: Bytes -> Sha) {
    && PathsDiffer(items)
    && ClaimsAgree(s, items)
    && FolderIsVerified(s, items, sha1)
    && ProgressIsRight(s, gate)
  }

  lemma {:induction false} CountPut(stages: seq<Stage>, i: nat, g: Stage, p: Stage -> bool)
    requires i < |stages|
    ensures Count(stages[i := g], p) + (if p(stages[i]) then 1 else 0) == Count(stages, p) + (if p(g) then 1 else 0)
  {
    var init := stages[..|stages| - 1];
    if i < |init| {
      CountPut(init, i, g, p);
      assert stages[i := g][..|stages| - 1] == init[i := g];
    } else {
      assert stages[i := g][..|stages| - 1] == init;
    }
  }

  // One stage moves on, and the progress with it.
  lemma MovesProgress(s: State, t: State, i: nat, gate: nat)
    requires ProgressIsRight(s, gate) && i < |s.stages| == |t.stages| && t.stages == s.stages[i := t.stages[i]]
    requires IsRunning(s.stages[i]) || (s.stages[i].Queued? && Count(s.stages, IsRunning) < gate)
    requires t.downloaded == s.downloaded + if WasDownloaded(t.stages[i]) then 1 else 0
    requires t.cached == s.cached + if WasCached(t.stages[i]) then 1 else 0
    requires t.failed == s.failed + if HasFailed(t.stages[i]) then 1 else 0
    ensures ProgressIsRight(t, gate)
  {
    CountPut(s.stages, i, t.stages[i], WasDownloaded);
    CountPut(s.stages, i, t.stages[i], WasCached);
    CountPut(s.stages, i, t.stages[i], HasFailed);
    CountPut(s.stages, i, t.stages[i], IsRunning);
  }

  lemma MovesFolder(s: State, t: State, items: seq<Item>, i: nat, sha1: Bytes -> Sha)
    requires PathsDiffer(items) && FolderIsVerified(s, items, sha1)
    requires i < |s.stages| == |t.stages| && t.stages == s.stages[i := t.stages[i]] && !s.stages[i].Placed?
    requires if t.stages[i].Placed? then
        t.folder.Keys == s.folder.Keys + {items[i].path} && Good(items[i], t.folder[items[i].path], sha1)
        && forall p :: p in s.folder && p != items[i].path ==> t.folder[p] == s.folder[p]
      else t.folder == s.folder
    ensures FolderIsVerified(t, items, sha1)
  {
    forall p | p in t.folder
      ensures PlacedAt(t, items, p)
    {
      if p in s.folder {
        var j :| 0 <= j < |items| && items[j].path == p && s.stages[j].Placed?;
        assert t.stages[j].Placed?;
      } else {
        assert items[i].path == p && t.stages[i].Placed?;
      }
    }
  }

  lemma ClaimsAgain(s: State, items: seq<Item>, i: nat, again: bool)
    requires ClaimsAgree(s, items) && i < |s.stages| && !HasClaim(s.stages[i])
    ensures ClaimsAgree(Claims(s, items, i, again), items)
  {
    C.ClaimedKeeps(s.claims, items[i].sha, Some(i));
  }

  // A claim that ends leaves every other claim as it was.
  lemma OthersStay(s: C.State, c: nat, d: nat)
    requires c < |s.claims| && d < |s.claims| && d != c
    ensures C.Left(s, c).claims[d] == s.claims[d]
  {}

  lemma LeavesAgrees(s: State, items: seq<Item>, i: nat, g: Stage)
    requires ClaimsAgree(s, items) && i < |s.stages| && HasClaim(s.stages[i]) && !HasClaim(g)
    ensures ClaimsAgree(At(Leaves(s, s.stages[i].c), i, g), items)
  {
    var c, t := s.stages[i].c, At(Leaves(s, s.stages[i].c), i, g);
    C.LeftKeeps(s.claims, c);
    forall j | 0 <= j < |t.stages| && HasClaim(t.stages[j])
      ensures t.stages[j].c < |t.claims.claims| && ClaimFits(t.claims.claims[t.stages[j].c], t.stages[j], items[j], j)
    {
      OthersStay(s.claims, c, s.stages[j].c);
    }
    forall d | 0 <= d < |t.claims.claims| && !t.claims.claims[d].stage.Gone?
      ensures OwnerHasIt(t, t.claims.claims[d].fetch, d)
    {
      OthersStay(s.claims, c, d);
      assert OwnerHasIt(s, s.claims.claims[d].fetch, d);
    }
  }

  lemma EntersAgrees(s: State, items: seq<Item>, i: nat)
    requires ClaimsAgree(s, items) && i < |s.stages| && s.stages[i].Claiming? && C.CanEnter(s.claims, s.stages[i].c)
    ensures ClaimsAgree(At(s, i, Looking(s.stages[i].c, s.stages[i].again))
                          .(claims := C.Entered(s.claims, s.stages[i].c)), items)
  {
    C.EnteredKeeps(s.claims, s.stages[i].c);
  }

  lemma OtherClaimAgrees(s: State, items: seq<Item>, sha: Sha)
    requires ClaimsAgree(s, items)
    ensures ClaimsAgree(s.(claims := C.Claimed(s.claims, sha, None)), items)
  {
    C.ClaimedKeeps(s.claims, sha, None);
  }

  lemma OtherEntersAgrees(s: State, items: seq<Item>, c: nat)
    requires ClaimsAgree(s, items) && IsOthers(s, c) && C.CanEnter(s.claims, c)
    ensures ClaimsAgree(s.(claims := C.Entered(s.claims, c)), items)
  {
    C.EnteredKeeps(s.claims, c);
  }

  lemma OtherLeavesAgrees(s: State, items: seq<Item>, c: nat)
    requires ClaimsAgree(s, items) && IsOthers(s, c)
    ensures ClaimsAgree(Leaves(s, c), items)
  {
    C.LeftKeeps(s.claims, c);
  }

  // What the rest of the node does touches no stage and no file placed.
  lemma OthersKeep(s: State, t: State, items: seq<Item>, gate: nat, sha1: Bytes -> Sha)
    requires Inv(s, items, gate, sha1) && t == s.(claims := t.claims, cache := t.cache) && ClaimsAgree(t, items)
    ensures Inv(t, items, gate, sha1)
  {
    forall p | p in t.folder
      ensures PlacedAt(t, items, p)
    {
      assert PlacedAt(s, items, p);
    }
  }

  // A stage moves on with its claim.
  lemma MovesAgrees(s: State, t: State, items: seq<Item>, i: nat)
    requires ClaimsAgree(s, items) && i < |s.stages| == |t.stages| && t.stages == s.stages[i := t.stages[i]]
    requires t.claims == s.claims
    requires if s.stages[i].Looking? then t.stages[i] == Downloading(s.stages[i].c, s.stages[i].again)
      else !HasClaim(s.stages[i]) && !HasClaim(t.stages[i])
    ensures ClaimsAgree(t, items)
  {}

  lemma BeginKeeps(s: State, items: seq<Item>, gate: nat, i: nat, again: bool, sha1: Bytes -> Sha)
    requires Inv(s, items, gate, sha1) && i < |s.stages|
    requires s.stages[i].Copying? || (s.stages[i].Queued? && Count(s.stages, IsRunning) < gate)
    ensures Inv(Claims(s, items, i, again), items, gate, sha1)
  {
    var t := Claims(s, items, i, again);
    ClaimsAgain(s, items, i, again);
    MovesFolder(s, t, items, i, sha1);
    MovesProgress(s, t, i, gate);
  }

  lemma EnterKeeps(s: State, items: seq<Item>, gate: nat, i: nat, sha1: Bytes -> Sha)
    requires Inv(s, items, gate, sha1) && i < |s.stages| && s.stages[i].Claiming? && C.CanEnter(s.claims, s.stages[i].c)
    ensures Inv(Next(s, items, gate, Enter(i), sha1), items, gate, sha1)
  {
    var t := Next(s, items, gate, Enter(i), sha1);
    EntersAgrees(s, items, i);
    MovesFolder(s, t, items, i, sha1);
    MovesProgress(s, t, i, gate);
  }

  // One fetch moves on; its claim, the folder and the progress were seen to.
  lemma MovesKeep(s: State, t: State, items: seq<Item>, gate: nat, i: nat, sha1: Bytes -> Sha)
    requires Inv(s, items, gate, sha1) && ClaimsAgree(t, items)
    requires i < |s.stages| == |t.stages| && t.stages == s.stages[i := t.stages[i]] && IsRunning(s.stages[i])
    requires !t.stages[i].Placed? && t.folder == s.folder && t.downloaded == s.downloaded && t.cached == s.cached
    requires t.failed == s.failed + if HasFailed(t.stages[i]) then 1 else 0
    ensures Inv(t, items, gate, sha1)
  {
    MovesFolder(s, t, items, i, sha1);
    MovesProgress(s, t, i, gate);
  }

  lemma LookKeeps(s: State, items: seq<Item>, gate: nat, i: nat, sha1: Bytes -> Sha)
    requires Inv(s, items, gate, sha1) && i < |s.stages| && s.stages[i].Looking?
    ensures Inv(Looked(s, items, i), items, gate, sha1)
  {
    var t := Looked(s, items, i);
    LookAgrees(s, items, i);
    MovesKeep(s, t, items, gate, i, sha1);
  }

  lemma LookAgrees(s: State, items: seq<Item>, i: nat)
    requires ClaimsAgree(s, items) && i < |s.stages| && s.stages[i].Looking?
    ensures ClaimsAgree(Looked(s, items, i), items)
  {
    var t := Looked(s, items, i);
    if t.stages[i].Downloading? { MovesAgrees(s, t, items, i); } else { LeavesAgrees(s, items, i, t.stages[i]); }
  }

  lemma FetchAgrees(s: State, items: seq<Item>, i: nat, tries: seq<Try>, sha1: Bytes -> Sha)
    requires ClaimsAgree(s, items) && i < |s.stages| && s.stages[i].Downloading?
    ensures ClaimsAgree(Fetched(s, items, i, tries, sha1), items)
  {
    LeavesAgrees(s, items, i, Fetched(s, items, i, tries, sha1).stages[i]);
  }

  lemma FetchKeeps(s: State, items: seq<Item>, gate: nat, i: nat, tries: seq<Try>, sha1: Bytes -> Sha)
    requires Inv(s, items, gate, sha1) && i < |s.stages| && s.stages[i].Downloading?
    ensures Inv(Fetched(s, items, i, tries, sha1), items, gate, sha1)
  {
    FetchAgrees(s, items, i, tries, sha1);
    MovesKeep(s, Fetched(s, items, i, tries, sha1), items, gate, i, sha1);
  }

  lemma CopyKeeps(s: State, items: seq<Item>, gate: nat, i: nat, copy: Copy, sha1: Bytes -> Sha)
    requires Inv(s, items, gate, sha1) && i < |s.stages| && s.stages[i].Copying?
    ensures Inv(Copied(s, items, i, copy, sha1), items, gate, sha1)
  {
    if Copied(s, items, i, copy, sha1).stages[i].Claiming? {
      DropsAgain(s, items, gate, i, sha1);
    } else {
      CopyEndsKeeps(s, items, gate, i, copy, sha1);
    }
  }

  // The cache's copy is bad: it is dropped, and the file claimed once more.
  lemma DropsAgain(s: State, items: seq<Item>, gate: nat, i: nat, sha1: Bytes -> Sha)
    requires Inv(s, items, gate, sha1) && i < |s.stages| && s.stages[i].Copying?
    ensures Inv(Claims(s.(cache := s.cache - {items[i].sha}), items, i, true), items, gate, sha1)
  {
    var t := s.(cache := s.cache - {items[i].sha});
    OthersKeep(s, t, items, gate, sha1);
    BeginKeeps(t, items, gate, i, true, sha1);
  }

  lemma CopyEndsKeeps(s: State, items: seq<Item>, gate: nat, i: nat, copy: Copy, sha1: Bytes -> Sha)
    requires Inv(s, items, gate, sha1) && i < |s.stages| && s.stages[i].Copying?
    requires !Copied(s, items, i, copy, sha1).stages[i].Claiming?
    ensures Inv(Copied(s, items, i, copy, sha1), items, gate, sha1)
  {
    var t := Copied(s, items, i, copy, sha1);
    MovesAgrees(s, t, items, i);
    MovesFolder(s, t, items, i, sha1);
    MovesProgress(s, t, i, gate);
  }

  lemma CacheChangesKeep(s: State, items: seq<Item>, gate: nat, sha: Sha, body: Option<Bytes>, sha1: Bytes -> Sha)
    requires Inv(s, items, gate, sha1)
    ensures Inv(Next(s, items, gate, CacheChanges(sha, body), sha1), items, gate, sha1)
  {
    OthersKeep(s, Next(s, items, gate, CacheChanges(sha, body), sha1), items, gate, sha1);
  }

  lemma OtherClaimKeeps(s: State, items: seq<Item>, gate: nat, sha: Sha, sha1: Bytes -> Sha)
    requires Inv(s, items, gate, sha1)
    ensures Inv(Next(s, items, gate, OtherClaims(sha), sha1), items, gate, sha1)
  {
    OtherClaimAgrees(s, items, sha);
    OthersKeep(s, Next(s, items, gate, OtherClaims(sha), sha1), items, gate, sha1);
  }

  lemma OtherEntersKeeps(s: State, items: seq<Item>, gate: nat, c: nat, sha1: Bytes -> Sha)
    requires Inv(s, items, gate, sha1) && IsOthers(s, c) && C.CanEnter(s.claims, c)
    ensures Inv(Next(s, items, gate, OtherEnters(c), sha1), items, gate, sha1)
  {
    OtherEntersAgrees(s, items, c);
    OthersKeep(s, Next(s, items, gate, OtherEnters(c), sha1), items, gate, sha1);
  }

  lemma OtherLeavesKeeps(s: State, items: seq<Item>, gate: nat, c: nat, sha1: Bytes -> Sha)
    requires Inv(s, items, gate, sha1) && IsOthers(s, c)
    ensures Inv(Next(s, items, gate, OtherLeaves(c), sha1), items, gate, sha1)
  {
    OtherLeavesAgrees(s, items, c);
    OthersKeep(s, Leaves(s, c), items, gate, sha1);
  }

  lemma NextKeeps(s: State, items: seq<Item>, gate: nat, step: Step, sha1: Bytes -> Sha)
    requires Inv(s, items, gate, sha1)
    ensures Inv(Next(s, items, gate, step, sha1), items, gate, sha1)
  {
    match step {
      case Begin(i) =>
        if i < |s.stages| && s.stages[i].Queued? && Count(s.stages, IsRunning) < gate {
          BeginKeeps(s, items, gate, i, false, sha1);
        }
      case Enter(i) =>
        if i < |s.stages| && s.stages[i].Claiming? && C.CanEnter(s.claims, s.stages[i].c) {
          EnterKeeps(s, items, gate, i, sha1);
        }
      case Look(i) => if i < |s.stages| && s.stages[i].Looking? { LookKeeps(s, items, gate, i, sha1); }
      case Download(i, tries) =>
        if i < |s.stages| && s.stages[i].Downloading? { FetchKeeps(s, items, gate, i, tries, sha1); }
      case CopyIn(i, copy) => if i < |s.stages| && s.stages[i].Copying? { CopyKeeps(s, items, gate, i, copy, sha1); }
      case OtherClaims(sha) => OtherClaimKeeps(s, items, gate, sha, sha1);
      case OtherEnters(c) => if IsOthers(s, c) && C.CanEnter(s.claims, c) { OtherEntersKeeps(s, items, gate, c, sha1); }
      case OtherLeaves(c) => if IsOthers(s, c) { OtherLeavesKeeps(s, items, gate, c, sha1); }
      case CacheChanges(sha, body) => CacheChangesKeep(s, items, gate, sha, body, sha1);
    }
  }

  // --- over every run -------------------------------------------------------------------

  // What is claimed when the fetch begins is claimed by others.
  ghost predicate Others(claims: C.State) {
    C.Inv(claims) && forall c :: 0 <= c < |claims.claims| ==> claims.claims[c].fetch.None?
  }

  lemma {:induction false} NoneYet(stages: seq<Stage>, p: Stage -> bool)
    requires forall i :: 0 <= i < |stages| ==> !p(stages[i])
    ensures Count(stages, p) == 0
  {
    if stages != [] { NoneYet(stages[..|stages| - 1], p); }
  }

  lemma StartIsSound(claims: C.State, cache: map<Sha, Bytes>, items: seq<Item>, gate: nat, sha1: Bytes -> Sha)
    requires PathsDiffer(items) && Others(claims)
    ensures Inv(Start(claims, cache, |items|), items, gate, sha1)
  {
    var stages := Start(claims, cache, |items|).stages;
    NoneYet(stages, WasDownloaded);
    NoneYet(stages, WasCached);
    NoneYet(stages, HasFailed);
    NoneYet(stages, IsRunning);
  }

  datatype Fetch = Fetch(claims: C.State, cache: map<Sha, Bytes>, items: seq<Item>, gate: nat)

  ghost predicate Begins(f: Fetch) { PathsDiffer(f.items) && Others(f.claims) }

  ghost function After(f: Fetch, steps: seq<Step>, sha1: Bytes -> Sha): (s: State)
    requires Begins(f)
    ensures Inv(s, f.items, f.gate, sha1)
  {
    if steps == [] then
      StartIsSound(f.claims, f.cache, f.items, f.gate, sha1);
      Start(f.claims, f.cache, |f.items|)
    else
      var s := After(f, steps[..|steps| - 1], sha1);
      NextKeeps(s, f.items, f.gate, steps[|steps| - 1], sha1);
      Next(s, f.items, f.gate, steps[|steps| - 1], sha1)
  }

  // Whatever is done to the cache, at every moment: each file in the folder is one
  // of the list's, with its stated size and SHA-1; and each file counted as
  // fetched is in the folder.
  lemma NothingUnverifiedLands(f: Fetch, steps: seq<Step>, sha1: Bytes -> Sha)
    requires Begins(f)
    ensures var s := After(f, steps, sha1);
      && (forall p :: p in s.folder ==>
            exists i :: 0 <= i < |f.items| && f.items[i].path == p && Good(f.items[i], s.folder[p], sha1))
      && (forall i :: 0 <= i < |f.items| && s.stages[i].Placed? ==> f.items[i].path in s.folder)
  {
    var s := After(f, steps, sha1);
    forall p | p in s.folder
      ensures exists i :: 0 <= i < |f.items| && f.items[i].path == p && Good(f.items[i], s.folder[p], sha1)
    {
      var i :| 0 <= i < |f.items| && f.items[i].path == p && s.stages[i].Placed?;
      assert Good(f.items[i], s.folder[p], sha1);
    }
  }

  // Two fetches of one file are never past its lock together, so it is never
  // downloaded twice at once; the rest of the node's claims count too.
  lemma OneDownloadPerFile(f: Fetch, steps: seq<Step>, i: nat, j: nat, sha1: Bytes -> Sha)
    requires Begins(f) && i < j < |f.items|
    requires After(f, steps, sha1).stages[i].Downloading? && After(f, steps, sha1).stages[j].Downloading?
    ensures f.items[i].sha != f.items[j].sha
  {
    var s := After(f, steps, sha1);
    if f.items[i].sha == f.items[j].sha {
      C.OneInsideEach(s.claims, s.stages[i].c, s.stages[j].c);
    }
  }

  lemma {:induction false} AllSettled(stages: seq<Stage>)
    requires forall i :: 0 <= i < |stages| ==> stages[i].Placed? || stages[i].Failed?
    ensures Count(stages, WasDownloaded) + Count(stages, WasCached) + Count(stages, HasFailed) == |stages|
  {
    if stages != [] {
      var init := stages[..|stages| - 1];
      assert forall i :: 0 <= i < |init| ==> init[i] == stages[i];
      AllSettled(init);
    }
  }

  // When the fetch returns, every file was downloaded, came from the cache, or
  // failed; and none of its claims is left behind.
  lemma FetchedAndFailedMakeRequested(f: Fetch, steps: seq<Step>, sha1: Bytes -> Sha)
    requires Begins(f)
    requires forall i :: 0 <= i < |f.items| ==>
      After(f, steps, sha1).stages[i].Placed? || After(f, steps, sha1).stages[i].Failed?
    ensures var s := After(f, steps, sha1);
      && s.downloaded + s.cached + s.failed == |f.items|
      && (forall c :: 0 <= c < |s.claims.claims| && s.claims.claims[c].fetch.Some? ==> s.claims.claims[c].stage.Gone?)
  {
    AllSettled(After(f, steps, sha1).stages);
  }

  // The counts beside each SHA-1 are the claims still open on it, at every moment
  // of every run, and the gate is never passed by more than it lets through.
  lemma ClaimsAreCounted(f: Fetch, steps: seq<Step>, sha: Sha, sha1: Bytes -> Sha)
    requires Begins(f)
    ensures var s := After(f, steps, sha1);
      && C.UsersOf(s.claims, sha) == C.Live(s.claims.claims, sha)
      && (sha in s.claims.locks <==> C.Live(s.claims.claims, sha) > 0)
      && Count(s.stages, IsRunning) <= f.gate
  {
    assert C.Counted(After(f, steps, sha1).claims);
  }

  // --- the loops of one file ---------------------------------------------------------------

  function Joined(chunks: seq<Bytes>): Bytes {
    if chunks == [] then [] else Joined(chunks[..|chunks| - 1]) + chunks[|chunks| - 1]
  }

  lemma {:induction false} JoinedGrows(chunks: seq<Bytes>, n: nat)
    requires n <= |chunks|
    ensures |Joined(chunks[..n])| <= |Joined(chunks)|
  {
    if n < |chunks| {
      assert chunks[..|chunks| - 1][..n] == chunks[..n];
      JoinedGrows(chunks[..|chunks| - 1], n);
    } else {
      assert chunks[..n] == chunks;
    }
  }

  // `_receive`: taken exactly when the whole body has the stated size and SHA-1,
  // however it is cut up; and never more written than that size.
  method Receive(item: Item, chunks: seq<Bytes>, sha1: Bytes -> Sha) returns (ok: bool, part: Bytes)
    ensures ok <==> Good(item, Joined(chunks), sha1)
    ensures ok ==> part == Joined(chunks)
    ensures |part| <= item.size
  {
    part := [];
    var n := 0;
    while n < |chunks|
      invariant n <= |chunks|
      invariant part == Joined(chunks[..n]) && |part| <= item.size
    {
      assert chunks[..n + 1][..n] == chunks[..n];
      if |part| + |chunks[n]| > item.size {
        JoinedGrows(chunks, n + 1);
        return false, part;
      }
      part := part + chunks[n];
      n := n + 1;
    }
    assert chunks[..n] == chunks;
    ok := |part| == item.size && sha1(part) == item.sha;
  }

  predicate IsGood(item: Item, try: Try, sha1: Bytes -> Sha) { try.Arrived? && Good(item, try.body, sha1) }

  // The attempt after which there is no other: a good one, or an answer no retry fixes.
  predicate IsLast(item: Item, try: Try, sha1: Bytes -> Sha) { try.Refusal? || IsGood(item, try, sha1) }

  // `_download`: up to four attempts, none after one that is the last.
  method DownloadFile(item: Item, tries: seq<Try>, sha1: Bytes -> Sha) returns (got: Option<Bytes>, made: nat)
    requires |tries| == ATTEMPTS
    ensures got == Downloaded(item, tries, sha1)
    ensures 1 <= made <= ATTEMPTS
    ensures forall j :: 0 <= j < made - 1 ==> !IsLast(item, tries[j], sha1)
    ensures made < ATTEMPTS ==> IsLast(item, tries[made - 1], sha1)
  {
    made := 0;
    while made < ATTEMPTS
      invariant made <= ATTEMPTS
      invariant forall j :: 0 <= j < made ==> !IsLast(item, tries[j], sha1)
      invariant Downloaded(item, tries, sha1) == Downloaded(item, tries[made..], sha1)
    {
      made := made + 1;
      match tries[made - 1] {
        case Refusal => return None, made;
        case Fault =>
        case Arrived(body) =>
          if |body| == item.size && sha1(body) == item.sha { return Some(body), made; }
      }
      assert tries[made - 1..][1..] == tries[made..];
    }
    got := None;
  }

  ghost predicate FirstGood(item: Item, tries: seq<Try>, k: nat, sha1: Bytes -> Sha) {
    k < |tries| && IsGood(item, tries[k], sha1) && forall j :: 0 <= j < k ==> !IsLast(item, tries[j], sha1)
  }

  lemma {:induction false} FirstGoodIsUsed(item: Item, tries: seq<Try>, k: nat, sha1: Bytes -> Sha)
    requires FirstGood(item, tries, k, sha1)
    ensures Downloaded(item, tries, sha1) == Some(tries[k].body)
  {
    if k > 0 {
      assert !IsLast(item, tries[0], sha1);
      FirstGoodIsUsed(item, tries[1..], k - 1, sha1);
    }
  }

  lemma {:induction false} UsedIsFirstGood(item: Item, tries: seq<Try>, sha1: Bytes -> Sha) returns (k: nat)
    requires Downloaded(item, tries, sha1).Some?
    ensures FirstGood(item, tries, k, sha1)
  {
    if IsGood(item, tries[0], sha1) { return 0; }
    k := UsedIsFirstGood(item, tries[1..], sha1);
    k := k + 1;
  }

  // The attempt that is used is the first good one, if none before it was final;
  // and with no such attempt nothing is.
  lemma FirstGoodTry(item: Item, tries: seq<Try>, sha1: Bytes -> Sha)
    ensures Downloaded(item, tries, sha1).Some? <==> exists k: nat :: FirstGood(item, tries, k, sha1)
    ensures forall k: nat :: FirstGood(item, tries, k, sha1) ==> Downloaded(item, tries, sha1) == Some(tries[k].body)
  {
    forall k: nat | FirstGood(item, tries, k, sha1)
      ensures Downloaded(item, tries, sha1) == Some(tries[k].body)
    {
      FirstGoodIsUsed(item, tries, k, sha1);
    }
    if Downloaded(item, tries, sha1).Some? {
      var k := UsedIsFirstGood(item, tries, sha1);
    }
  }
}
