// What one file's fetch comes to, over every run: a good download is used, a file
// fails only for one of the reasons there are, and a file none of them befalls ends up
// in the folder, counted as what it was.

module DownloadPromises {
  import opened Prelude
  import opened DownloadRuns
  import C = CacheClaims

  // --- one file's own steps -------------------------------------------------------------

  predicate IsOwn(step: Step, i: nat) {
    (step.Begin? || step.Enter? || step.Look? || step.Download? || step.CopyIn?) && step.i == i
  }

  lemma OthersLeaveIt(s: State, items: seq<Item>, gate: nat, step: Step, i: nat, sha1: Bytes -> Sha)
    requires Inv(s, items, gate, sha1) && i < |items| && !IsOwn(step, i)
    ensures |Next(s, items, gate, step, sha1).stages| == |items|
    ensures Next(s, items, gate, step, sha1).stages[i] == s.stages[i]
  {
    match step {
      case Look(j) => if j < |items| && s.stages[j].Looking? { LookLeavesIt(s, items, j, i); }
      case Download(j, tries) =>
        if j < |items| && s.stages[j].Downloading? { FetchLeavesIt(s, items, j, tries, i, sha1); }
      case CopyIn(j, copy) => if j < |items| && s.stages[j].Copying? { CopyLeavesIt(s, items, j, copy, i, sha1); }
      case _ =>
    }
  }

  lemma LookLeavesIt(s: State, items: seq<Item>, j: nat, i: nat)
    requires j < |s.stages| == |items| && s.stages[j].Looking? && s.stages[j].c < |s.claims.claims|
    requires i < |items| && i != j
    ensures |Looked(s, items, j).stages| == |items| && Looked(s, items, j).stages[i] == s.stages[i]
  {}

  lemma FetchLeavesIt(s: State, items: seq<Item>, j: nat, tries: seq<Try>, i: nat, sha1: Bytes -> Sha)
    requires j < |s.stages| == |items| && s.stages[j].Downloading? && s.stages[j].c < |s.claims.claims|
    requires i < |items| && i != j
    ensures |Fetched(s, items, j, tries, sha1).stages| == |items|
    ensures Fetched(s, items, j, tries, sha1).stages[i] == s.stages[i]
  {}

  lemma CopyLeavesIt(s: State, items: seq<Item>, j: nat, copy: Copy, i: nat, sha1: Bytes -> Sha)
    requires j < |s.stages| == |items| && s.stages[j].Copying? && i < |items| && i != j
    ensures |Copied(s, items, j, copy, sha1).stages| == |items|
    ensures Copied(s, items, j, copy, sha1).stages[i] == s.stages[i]
  {}

  // An attempt among the first four that is used.
  ghost predicate HasGood(item: Item, tries: seq<Try>, sha1: Bytes -> Sha) {
    exists k: nat :: k < 4 && FirstGood(item, tries, k, sha1)
  }

  predicate IsCached(s: State, item: Item) { item.sha in s.cache && |s.cache[item.sha]| == item.size }

  predicate IsVerified(item: Item, copy: Copy, sha1: Bytes -> Sha) {
    copy.Read? && |copy.body| == item.size && sha1(copy.body) == item.sha
  }

  lemma GoodWithinFour(item: Item, tries: seq<Try>, sha1: Bytes -> Sha)
    ensures var first := if |tries| <= ATTEMPTS then tries else tries[..ATTEMPTS];
      && (Downloaded(item, first, sha1).Some? <==> HasGood(item, tries, sha1))
      && forall k: nat :: k < 4 && FirstGood(item, tries, k, sha1) ==>
           Downloaded(item, first, sha1) == Some(tries[k].body)
  {
    var first := if |tries| <= ATTEMPTS then tries else tries[..ATTEMPTS];
    FirstGoodTry(item, first, sha1);
    forall k: nat | k < 4 && FirstGood(item, tries, k, sha1)
      ensures Downloaded(item, first, sha1) == Some(tries[k].body)
    {
      assert FirstGood(item, first, k, sha1);
    }
    if Downloaded(item, first, sha1).Some? {
      var k: nat :| FirstGood(item, first, k, sha1);
      assert FirstGood(item, tries, k, sha1);
    }
  }

  // --- what each comes to ------------------------------------------------------------------

  // A good download is what the cache then has, and what is copied next; without one
  // the file fails.
  lemma DownloadComesTo(s: State, items: seq<Item>, gate: nat, i: nat, tries: seq<Try>, sha1: Bytes -> Sha)
    requires Inv(s, items, gate, sha1) && i < |items| && s.stages[i].Downloading?
    ensures var t := Next(s, items, gate, Download(i, tries), sha1);
      && |t.stages| == |items|
      && t.stages[i] == (if HasGood(items[i], tries, sha1) then Copying(true, s.stages[i].again) else Failed)
      && forall k: nat :: k < 4 && FirstGood(items[i], tries, k, sha1) ==>
           items[i].sha in t.cache && t.cache[items[i].sha] == tries[k].body
  {
    GoodWithinFour(items[i], tries, sha1);
  }

  // A copy of the right size in the cache is used and nothing downloaded; without
  // one it is downloaded, or, if it may not be, the file fails.
  lemma LookComesTo(s: State, items: seq<Item>, gate: nat, i: nat, sha1: Bytes -> Sha)
    requires Inv(s, items, gate, sha1) && i < |items| && s.stages[i].Looking?
    ensures var t := Next(s, items, gate, Look(i), sha1);
      && |t.stages| == |items|
      && (if IsCached(s, items[i]) then t.stages[i] == Copying(false, s.stages[i].again) && t.cache == s.cache
          else
            && t.cache == s.cache - {items[i].sha}
            && t.stages[i] == if items[i].cacheOnly then Failed else Downloading(s.stages[i].c, s.stages[i].again))
  {}

  // A verified copy lands; another is dropped from the cache, and the file fetched
  // once more, but once only.
  lemma CopyComesTo(s: State, items: seq<Item>, gate: nat, i: nat, copy: Copy, sha1: Bytes -> Sha)
    requires Inv(s, items, gate, sha1) && i < |items| && s.stages[i].Copying?
    ensures var t := Next(s, items, gate, CopyIn(i, copy), sha1);
      && |t.stages| == |items|
      && (if copy.Blocked? then t.stages[i].Failed? && t.cache == s.cache && t.folder == s.folder
          else if IsVerified(items[i], copy, sha1) then
            && t.stages[i] == Placed(s.stages[i].anew) && t.cache == s.cache
            && items[i].path in t.folder && t.folder[items[i].path] == copy.body
          else
            && t.cache == s.cache - {items[i].sha} && t.folder == s.folder
            && if s.stages[i].again then t.stages[i].Failed? else t.stages[i].Claiming? && t.stages[i].again)
  {}

  // Its turn comes while fewer than the gate lets through are under way, and goes on
  // once the file's lock is free.
  lemma TurnComesTo(s: State, items: seq<Item>, gate: nat, i: nat, sha1: Bytes -> Sha)
    requires Inv(s, items, gate, sha1) && i < |items|
    ensures var t, u := Next(s, items, gate, Begin(i), sha1), Next(s, items, gate, Enter(i), sha1);
      && |t.stages| == |items| && |u.stages| == |items|
      && (if s.stages[i].Queued? && Count(s.stages, IsRunning) < gate
          then t.stages[i].Claiming? && !t.stages[i].again else t == s)
      && (if s.stages[i].Claiming? && C.CanEnter(s.claims, s.stages[i].c)
          then u.stages[i] == Looking(s.stages[i].c, s.stages[i].again) else u == s)
  {}

  // --- over a run ------------------------------------------------------------------------------

  lemma AfterOneMore(f: Fetch, steps: seq<Step>, step: Step, sha1: Bytes -> Sha)
    requires Begins(f)
    ensures After(f, steps + [step], sha1) == Next(After(f, steps, sha1), f.items, f.gate, step, sha1)
  {
    assert (steps + [step])[..|steps|] == steps;
  }

  // Whatever else happens, a download with a good attempt is used: the file goes on to
  // its copy, with that attempt's body in the cache.
  lemma AGoodDownloadIsUsed(f: Fetch, steps: seq<Step>, i: nat, tries: seq<Try>, k: nat, sha1: Bytes -> Sha)
    requires Begins(f) && i < |f.items| && After(f, steps, sha1).stages[i].Downloading?
    requires k < 4 && FirstGood(f.items[i], tries, k, sha1)
    ensures var s, t := After(f, steps, sha1), After(f, steps + [Download(i, tries)], sha1);
      && t.stages[i] == Copying(true, s.stages[i].again)
      && f.items[i].sha in t.cache && t.cache[f.items[i].sha] == tries[k].body
  {
    AfterOneMore(f, steps, Download(i, tries), sha1);
    DownloadComesTo(After(f, steps, sha1), f.items, f.gate, i, tries, sha1);
  }

  // What can befall a file: it may only come from the cache, which has no copy of its
  // size; no attempt at its download is any good; its copy is refused; or it was
  // bad, or gone, twice.
  ghost predicate Befalls(s: State, items: seq<Item>, step: Step, i: nat, sha1: Bytes -> Sha)
    requires i < |items| == |s.stages|
  {
    || (step == Look(i) && s.stages[i].Looking? && items[i].cacheOnly && !IsCached(s, items[i]))
    || (step.Download? && step.i == i && s.stages[i].Downloading? && !HasGood(items[i], step.tries, sha1))
    || (step.CopyIn? && step.i == i && s.stages[i].Copying?
        && (step.copy.Blocked? || (s.stages[i].again && !IsVerified(items[i], step.copy, sha1))))
  }

  lemma FailsExactly(s: State, items: seq<Item>, gate: nat, step: Step, i: nat, sha1: Bytes -> Sha)
    requires Inv(s, items, gate, sha1) && i < |items|
    ensures |Next(s, items, gate, step, sha1).stages| == |items|
    ensures Next(s, items, gate, step, sha1).stages[i].Failed?
      <==> s.stages[i].Failed? || Befalls(s, items, step, i, sha1)
  {
    if !IsOwn(step, i) {
      OthersLeaveIt(s, items, gate, step, i, sha1);
    } else {
      match step {
        case Begin(_) => TurnComesTo(s, items, gate, i, sha1);
        case Enter(_) => TurnComesTo(s, items, gate, i, sha1);
        case Look(_) => if s.stages[i].Looking? { LookComesTo(s, items, gate, i, sha1); }
        case Download(_, tries) =>
          if s.stages[i].Downloading? { DownloadComesTo(s, items, gate, i, tries, sha1); }
        case CopyIn(_, copy) => if s.stages[i].Copying? { CopyComesTo(s, items, gate, i, copy, sha1); }
      }
    }
  }

  ghost predicate BefellAt(f: Fetch, steps: seq<Step>, i: nat, n: nat, sha1: Bytes -> Sha)
    requires Begins(f) && i < |f.items|
  {
    n < |steps| && Befalls(After(f, steps[..n], sha1), f.items, steps[n], i, sha1)
  }

  ghost predicate Befell(f: Fetch, steps: seq<Step>, i: nat, sha1: Bytes -> Sha)
    requires Begins(f) && i < |f.items|
  { exists n: nat :: BefellAt(f, steps, i, n, sha1) }

  lemma BefellOneMore(f: Fetch, steps: seq<Step>, step: Step, i: nat, sha1: Bytes -> Sha)
    requires Begins(f) && i < |f.items|
    ensures Befell(f, steps + [step], i, sha1)
      <==> Befell(f, steps, i, sha1) || Befalls(After(f, steps, sha1), f.items, step, i, sha1)
  {
    var all := steps + [step];
    assert all[..|steps|] == steps;
    if Befell(f, all, i, sha1) {
      var n: nat :| BefellAt(f, all, i, n, sha1);
      if n < |steps| { EarlierToo(f, steps, step, i, n, sha1); }
    }
    if Befell(f, steps, i, sha1) {
      var n: nat :| BefellAt(f, steps, i, n, sha1);
      EarlierToo(f, steps, step, i, n, sha1);
    }
    if Befalls(After(f, steps, sha1), f.items, step, i, sha1) {
      assert BefellAt(f, all, i, |steps|, sha1);
    }
  }

  lemma EarlierToo(f: Fetch, steps: seq<Step>, step: Step, i: nat, n: nat, sha1: Bytes -> Sha)
    requires Begins(f) && i < |f.items| && n < |steps|
    ensures BefellAt(f, steps + [step], i, n, sha1) <==> BefellAt(f, steps, i, n, sha1)
  {
    assert (steps + [step])[..n] == steps[..n];
  }

  // A file has failed exactly when one of those things befell it.
  lemma {:induction false} FilesFailForAReason(f: Fetch, steps: seq<Step>, i: nat, sha1: Bytes -> Sha)
    requires Begins(f) && i < |f.items|
    ensures After(f, steps, sha1).stages[i].Failed? <==> Befell(f, steps, i, sha1)
  {
    if steps != [] {
      var init, step := steps[..|steps| - 1], steps[|steps| - 1];
      assert steps == init + [step];
      FilesFailForAReason(f, init, i, sha1);
      AfterOneMore(f, init, step, sha1);
      BefellOneMore(f, init, step, i, sha1);
      FailsExactly(After(f, init, sha1), f.items, f.gate, step, i, sha1);
    }
  }

  // Whether the file's last pass downloaded it: each pass looks into the cache first.
  ghost function LastPassDownloaded(f: Fetch, steps: seq<Step>, i: nat, sha1: Bytes -> Sha): bool
    requires Begins(f) && i < |f.items|
  {
    if steps == [] then false
    else
      var init, step := steps[..|steps| - 1], steps[|steps| - 1];
      PassNext(After(f, init, sha1), step, i, LastPassDownloaded(f, init, i, sha1))
  }

  ghost predicate PassNext(s: State, step: Step, i: nat, before: bool)
    requires i < |s.stages|
  {
    if step == Look(i) && s.stages[i].Looking? then false
    else if step.Download? && step.i == i && s.stages[i].Downloading? then true
    else before
  }

  // In its copy, or placed, a file is marked as its last pass was.
  predicate IsMarked(g: Stage, anew: bool) { (g.Copying? ==> g.anew == anew) && (g.Placed? ==> g.anew == anew) }

  lemma MarksOn(s: State, items: seq<Item>, gate: nat, step: Step, i: nat, before: bool, sha1: Bytes -> Sha)
    requires Inv(s, items, gate, sha1) && i < |items| && IsMarked(s.stages[i], before)
    ensures |Next(s, items, gate, step, sha1).stages| == |items|
    ensures IsMarked(Next(s, items, gate, step, sha1).stages[i], PassNext(s, step, i, before))
  {
    if !IsOwn(step, i) {
      OthersLeaveIt(s, items, gate, step, i, sha1);
    } else {
      match step {
        case Begin(_) => TurnComesTo(s, items, gate, i, sha1);
        case Enter(_) => TurnComesTo(s, items, gate, i, sha1);
        case Look(_) => if s.stages[i].Looking? { LookComesTo(s, items, gate, i, sha1); }
        case Download(_, tries) =>
          if s.stages[i].Downloading? { DownloadComesTo(s, items, gate, i, tries, sha1); }
        case CopyIn(_, copy) => if s.stages[i].Copying? { CopyComesTo(s, items, gate, i, copy, sha1); }
      }
    }
  }

  lemma {:induction false} EveryRunMarks(f: Fetch, steps: seq<Step>, i: nat, sha1: Bytes -> Sha)
    requires Begins(f) && i < |f.items|
    ensures IsMarked(After(f, steps, sha1).stages[i], LastPassDownloaded(f, steps, i, sha1))
  {
    if steps != [] {
      var init, step := steps[..|steps| - 1], steps[|steps| - 1];
      EveryRunMarks(f, init, i, sha1);
      MarksOn(After(f, init, sha1), f.items, f.gate, step, i, LastPassDownloaded(f, init, i, sha1), sha1);
    }
  }

  // In every run in which none of those things befell a file: once it is settled it
  // is in the folder as stated, and counted as downloaded exactly when its last pass
  // downloaded it.
  lemma WhatNothingBefellIsPlaced(f: Fetch, steps: seq<Step>, i: nat, sha1: Bytes -> Sha)
    requires Begins(f) && i < |f.items| && !Befell(f, steps, i, sha1)
    requires After(f, steps, sha1).stages[i].Placed? || After(f, steps, sha1).stages[i].Failed?
    ensures var s, item := After(f, steps, sha1), f.items[i];
      && item.path in s.folder && |s.folder[item.path]| == item.size && sha1(s.folder[item.path]) == item.sha
      && s.stages[i] == Placed(LastPassDownloaded(f, steps, i, sha1))
      && s.downloaded == Count(s.stages, WasDownloaded) && s.cached == Count(s.stages, WasCached)
  {
    FilesFailForAReason(f, steps, i, sha1);
    EveryRunMarks(f, steps, i, sha1);
  }

  // --- the rest of the node -------------------------------------------------------------------

  // All of this holds whatever the rest of the node does, in every state there is: it puts,
  // damages or deletes any cached file at any time, claims any file, gets its lock when
  // that is free, and lets it go.
  lemma AnyFileMayChange(s: State, items: seq<Item>, gate: nat, sha: Sha, body: Option<Bytes>, sha1: Bytes -> Sha)
    requires Inv(s, items, gate, sha1)
    ensures var t := Next(s, items, gate, CacheChanges(sha, body), sha1);
      && t == s.(cache := t.cache)
      && (if body.None? then sha !in t.cache else sha in t.cache && t.cache[sha] == body.value)
  {}

  lemma AnyFileMayBeClaimed(s: State, items: seq<Item>, gate: nat, sha: Sha, sha1: Bytes -> Sha)
    requires Inv(s, items, gate, sha1)
    ensures var t, c := Next(s, items, gate, OtherClaims(sha), sha1), |s.claims.claims|;
      && t == s.(claims := t.claims) && |t.claims.claims| == c + 1
      && var x := t.claims.claims[c];
      && x.sha == sha && x.stage.Waiting? && x.fetch.None?
      && sha in t.claims.locks && t.claims.locks[sha] == x.lock
  {}

  lemma AnyClaimMayGoOn(s: State, items: seq<Item>, gate: nat, c: nat, sha1: Bytes -> Sha)
    requires Inv(s, items, gate, sha1) && c < |s.claims.claims| && s.claims.claims[c].fetch.None?
    ensures var t, x := Next(s, items, gate, OtherEnters(c), sha1), s.claims.claims[c];
      c < |t.claims.claims| && (x.stage.Waiting? && x.lock !in s.claims.holder ==> t.claims.claims[c].stage.Inside?)
  {}

  lemma AnyClaimMayEnd(s: State, items: seq<Item>, gate: nat, c: nat, sha1: Bytes -> Sha)
    requires Inv(s, items, gate, sha1) && c < |s.claims.claims| && s.claims.claims[c].fetch.None?
    ensures var t := Next(s, items, gate, OtherLeaves(c), sha1);
      c < |t.claims.claims| && t.claims.claims[c].stage.Gone?
  {}
}
