// What one take, removal or restore does, for every store, manifest and folder: the form
// of each new object, each file's size and time and what is named as skipped; what a
// deletion removes; and what a restore leaves, of whatever manifest.

module BackupTakes {
  import opened Prelude
  import opened BackupStore

  // A path is left out exactly if it, or a folder it is in, is excluded.
  lemma WhatIsLeftOut(p: Path, exclude: seq<Path>)
    ensures Excluded(p, exclude) <==> exists n :: 0 <= n <= |p| && p[..n] in exclude
  {
    if Excluded(p, exclude) {
      var i :| 0 <= i < |exclude| && exclude[i] <= p;
      assert p[..|exclude[i]|] == exclude[i];
    }
    if exists n :: 0 <= n <= |p| && p[..n] in exclude {
      var n :| 0 <= n <= |p| && p[..n] in exclude;
      var i :| 0 <= i < |exclude| && exclude[i] == p[..n];
      assert exclude[i] <= p;
    }
  }

  // An object is where it was, or is new in the form asked for.
  ghost predicate FormIsKept(s: Store, t: Store, compress: bool, d: Digest) {
    && (d in s.raw ==> d in t.raw) && (d in s.packed ==> d in t.packed)
    && (d in t.raw && d !in s.raw ==> !compress)
    && (d in t.packed && d !in s.packed ==> compress)
  }

  lemma {:induction false} TakenForms(s: Store, folder: Folder, walk: seq<Path>, exclude: seq<Path>,
                                      previous: map<Path, Entry>, compress: bool, d: Digest)
    requires forall p :: p in walk ==> p in folder
    ensures FormIsKept(s, TakeFiles(s, folder, walk, exclude, previous, compress).store, compress, d)
  {
    if walk != [] { TakenForms(s, folder, walk[..|walk| - 1], exclude, previous, compress, d); }
  }

  predicate EntryIsOf(e: Entry, folder: Folder) {
    e.path in folder && e.size == |folder[e.path].bytes| && e.mtime == folder[e.path].mtime
  }

  // Each entry is of a file of the walk that is not left out, with its size and time;
  // each path skipped is of one that is refused.
  ghost predicate TakesRightly(t: Taking, folder: Folder, walk: seq<Path>, exclude: seq<Path>) {
    && (forall k :: 0 <= k < |t.files| ==>
          EntryIsOf(t.files[k], folder) && t.files[k].path in walk && !Excluded(t.files[k].path, exclude))
    && (forall p :: p in t.skipped ==> p in walk && p in folder && folder[p].refused && !Excluded(p, exclude))
    && (forall p :: p in walk && !Excluded(p, exclude) ==> p in t.skipped || IsEntered(t.files, p))
  }

  ghost predicate IsEntered(files: seq<Entry>, p: Path) { exists k :: 0 <= k < |files| && files[k].path == p }

  lemma EnteredStill(files: seq<Entry>, e: Entry, p: Path)
    ensures IsEntered(files + [e], p) <==> IsEntered(files, p) || e.path == p
  {
    if IsEntered(files, p) {
      var k :| 0 <= k < |files| && files[k].path == p;
      assert (files + [e])[k].path == p;
    }
    if e.path == p { assert (files + [e])[|files|].path == p; }
  }

  lemma {:induction false} TakesAreRight(s: Store, folder: Folder, walk: seq<Path>, exclude: seq<Path>,
                                         previous: map<Path, Entry>, compress: bool)
    requires forall p :: p in walk ==> p in folder
    ensures TakesRightly(TakeFiles(s, folder, walk, exclude, previous, compress), folder, walk, exclude)
  {
    if walk != [] {
      var init, p := walk[..|walk| - 1], walk[|walk| - 1];
      assert walk == init + [p];
      var t := TakeFiles(s, folder, init, exclude, previous, compress);
      TakesAreRight(s, folder, init, exclude, previous, compress);
      OneMoreFile(t, folder, init, p, exclude, previous, compress);
    }
  }

  lemma OneMoreFile(t: Taking, folder: Folder, init: seq<Path>, p: Path, exclude: seq<Path>,
                    previous: map<Path, Entry>, compress: bool)
    requires TakesRightly(t, folder, init, exclude) && p in folder
    ensures TakesRightly(TakeFile(t, p, folder[p], exclude, previous, compress), folder, init + [p], exclude)
  {
    var u := TakeFile(t, p, folder[p], exclude, previous, compress);
    forall q | q in init + [p] && !Excluded(q, exclude)
      ensures q in u.skipped || IsEntered(u.files, q)
    {
      if |u.files| > |t.files| { EnteredStill(t.files, u.files[|t.files|], q); }
    }
  }

  // The manifest of a take: every file of the walk that is not left out is entered, with
  // its size and time, or is one that the jail refused; of those up to 200 are named. The
  // new snapshot is the newest, and finished.
  lemma WhatATakeRecords(s: Store, folder: Folder, walk: seq<Path>, id: string, extra: seq<Path>, compress: bool)
    requires forall p :: p in walk ==> p in folder
    ensures var t := Taken(s, folder, walk, id, extra, compress);
      && id in t.snapshots && t.index == [Summary(id, true)] + s.index
      && (forall other :: other in s.snapshots && other != id ==>
            other in t.snapshots && t.snapshots[other] == s.snapshots[other])
      && ManifestIs(t.snapshots[id], folder, walk)
    ensures forall d :: FormIsKept(s, Taken(s, folder, walk, id, extra, compress), compress, d)
  {
    var exclude := CleanExclude(extra);
    TakesAreRight(s, folder, walk, exclude, Previous(s), compress);
    forall d
      ensures FormIsKept(s, Taken(s, folder, walk, id, extra, compress), compress, d)
    {
      TakenForms(s, folder, walk, exclude, Previous(s), compress, d);
    }
    SkipsAreNamed(TakeFiles(s, folder, walk, exclude, Previous(s), compress), folder, walk, exclude);
    SnapshotsAre(s, folder, walk, id, extra, compress);
  }

  // The fields of a manifest that is right of the folder and the walk.
  ghost predicate ManifestIs(m: Manifest, folder: Folder, walk: seq<Path>) {
    && (forall k :: 0 <= k < |m.files| ==> EntryIsOf(m.files[k], folder) && m.files[k].path in walk)
    && |m.skipped| <= 200
    && (forall p :: p in m.skipped ==> p in walk && p in folder && folder[p].refused)
    && (|m.skipped| < 200 ==>
          forall p :: p in walk && !Excluded(p, m.exclude) ==> p in m.skipped || IsEntered(m.files, p))
    && (forall k :: 0 <= k < |m.files| ==> !Excluded(m.files[k].path, m.exclude))
  }

  lemma SkipsAreNamed(t: Taking, folder: Folder, walk: seq<Path>, exclude: seq<Path>)
    requires TakesRightly(t, folder, walk, exclude)
    ensures ManifestIs(Manifest(exclude, t.files, Capped(t.skipped)), folder, walk)
  {
    assert forall p :: p in Capped(t.skipped) ==> p in t.skipped;
  }

  lemma SnapshotsAre(s: Store, folder: Folder, walk: seq<Path>, id: string, extra: seq<Path>, compress: bool)
    requires forall p :: p in walk ==> p in folder
    ensures var t := TakeFiles(s, folder, walk, CleanExclude(extra), Previous(s), compress);
      && t.store.snapshots == s.snapshots && t.store.index == s.index
      && Taken(s, folder, walk, id, extra, compress).snapshots
         == s.snapshots[id := Manifest(CleanExclude(extra), t.files, Capped(t.skipped))]
  {
    FilesLeaveSnapshots(s, folder, walk, CleanExclude(extra), Previous(s), compress);
  }

  lemma {:induction false} FilesLeaveSnapshots(s: Store, folder: Folder, walk: seq<Path>, exclude: seq<Path>,
                                               previous: map<Path, Entry>, compress: bool)
    requires forall p :: p in walk ==> p in folder
    ensures var t := TakeFiles(s, folder, walk, exclude, previous, compress).store;
      t.snapshots == s.snapshots && t.index == s.index
  {
    if walk != [] { FilesLeaveSnapshots(s, folder, walk[..|walk| - 1], exclude, previous, compress); }
  }

  // --- removing one ---------------------------------------------------------------------------

  // The other snapshots, in their order.
  ghost predicate IsIndexWithout(index: seq<Summary>, id: string, r: seq<Summary>) {
    if index == [] then r == []
    else if index[0].id == id then IsIndexWithout(index[1..], id, r)
    else r != [] && r[0] == index[0] && IsIndexWithout(index[1..], id, r[1..])
  }

  lemma {:induction false} WithoutIs(index: seq<Summary>, id: string)
    ensures IsIndexWithout(index, id, Without(index, [id]))
  {
    if index != [] {
      WithoutIs(index[1..], id);
      var rest := Without(index[1..], [id]);
      assert Without(index, [id]) == (if index[0].id == id then [] else [index[0]]) + rest;
      assert [] + rest == rest && ([index[0]] + rest)[1..] == rest;
    }
  }

  // A deletion removes that snapshot and its index entry and nothing of the others; there
  // being none, it changes nothing.
  lemma WhatADeletionRemoves(s: Store, id: string, stuck: set<Digest>)
    ensures var t := Deleted(s, id, stuck);
      && id !in t.snapshots
      && (forall other :: other in s.snapshots && other != id ==>
            other in t.snapshots && t.snapshots[other] == s.snapshots[other])
      && (if id in s.snapshots then IsIndexWithout(s.index, id, t.index) else t == s)
  {
    WithoutIs(s.index, id);
  }

  // --- restoring one ----------------------------------------------------------------------------

  // The entry of a path that is written last.
  predicate IsLastEntry(files: seq<Entry>, p: Path, k: nat) {
    k < |files| && files[k].path == p && forall j :: k < j < |files| ==> files[j].path != p
  }

  // A file is where this entry needs a folder, or the other way round: one that was
  // there, or one written before it.
  ghost predicate IsInTheWay(files: seq<Entry>, k: nat, there: Contents, q: Path)
    requires k < |files|
  {
    && (q in there || exists j :: 0 <= j < k && files[j].path == q)
    && (q < files[k].path || files[k].path < q)
  }

  ghost predicate SomethingIsInTheWay(files: seq<Entry>, there: Contents) {
    exists k: nat, q :: k < |files| && IsInTheWay(files, k, there, q)
  }

  ghost predicate WritesBack(s: Store, files: seq<Entry>, there: Contents, c: Contents)
    requires forall k :: 0 <= k < |files| ==> Has(s, files[k].sha)
  {
    && (forall p, k: nat :: IsLastEntry(files, p, k) ==> p in c && c[p] == Object(s, files[k].sha))
    && (forall p :: !IsEntered(files, p) ==> (p in c <==> p in there) && (p in c ==> c[p] == there[p]))
  }

  lemma {:induction false} WritesAreBack(s: Store, files: seq<Entry>, there: Contents)
    requires forall k :: 0 <= k < |files| ==> Has(s, files[k].sha)
    ensures var r := WrittenBack(s, files, there);
      && (r.Ok? ==> WritesBack(s, files, there, r.value))
      && (r.Err? ==> r.error == InTheWay)
      && (r.Err? <==> SomethingIsInTheWay(files, there))
  {
    if files != [] {
      var init, e := files[..|files| - 1], files[|files| - 1];
      assert files == init + [e];
      WritesAreBack(s, init, there);
      OneMoreInTheWay(init, e, there);
      var before := WrittenBack(s, init, there);
      if before.Ok? {
        BlockedIs(s, init, e, there, before.value);
        OneMoreWritten(s, init, e, there, before.value);
      }
    }
  }

  lemma OneMoreInTheWay(init: seq<Entry>, e: Entry, there: Contents)
    ensures SomethingIsInTheWay(init + [e], there)
      <==> SomethingIsInTheWay(init, there) || exists q :: IsInTheWay(init + [e], |init|, there, q)
  {
    var all := init + [e];
    forall k: nat, q | k < |init|
      ensures IsInTheWay(all, k, there, q) <==> IsInTheWay(init, k, there, q)
    {
      SameInTheWay(init, e, k, there, q);
    }
  }

  lemma SameInTheWay(init: seq<Entry>, e: Entry, k: nat, there: Contents, q: Path)
    requires k < |init|
    ensures IsInTheWay(init + [e], k, there, q) <==> IsInTheWay(init, k, there, q)
  {
    assert forall j :: 0 <= j <= k ==> (init + [e])[j] == init[j];
  }

  // What is written is where it is: what was there, and every path entered.
  lemma BlockedIs(s: Store, init: seq<Entry>, e: Entry, there: Contents, c: Contents)
    requires (forall k :: 0 <= k < |init| ==> Has(s, init[k].sha)) && WritesBack(s, init, there, c)
    ensures Blocked(e.path, c) <==> exists q :: IsInTheWay(init + [e], |init|, there, q)
  {
    var all := init + [e];
    assert forall j :: 0 <= j < |init| ==> all[j] == init[j];
    forall q
      ensures q in c <==> q in there || exists j :: 0 <= j < |init| && all[j].path == q
    {
      if IsEntered(init, q) {
        var k := LastOf(init, q);
      }
    }
    assert forall q :: IsInTheWay(all, |init|, there, q) <==> q in c && (q < e.path || e.path < q);
  }

  lemma {:induction false} LastOf(files: seq<Entry>, p: Path) returns (k: nat)
    requires IsEntered(files, p)
    ensures IsLastEntry(files, p, k)
  {
    var n := |files| - 1;
    if files[n].path == p { return n; }
    assert forall j :: 0 <= j < n ==> files[..n][j] == files[j];
    k := LastOf(files[..n], p);
  }

  lemma OneMoreWritten(s: Store, init: seq<Entry>, e: Entry, there: Contents, c: Contents)
    requires (forall k :: 0 <= k < |init| ==> Has(s, init[k].sha)) && Has(s, e.sha) && WritesBack(s, init, there, c)
    ensures (forall k :: 0 <= k < |init + [e]| ==> Has(s, (init + [e])[k].sha))
    ensures WritesBack(s, init + [e], there, c[e.path := Object(s, e.sha)])
  {
    var all, u := init + [e], c[e.path := Object(s, e.sha)];
    forall p, k: nat | IsLastEntry(all, p, k)
      ensures p in u && u[p] == Object(s, all[k].sha)
    {
      if k < |init| {
        assert all[|init|].path != p;
        assert forall j :: k < j < |init| ==> all[j] == init[j];
        assert IsLastEntry(init, p, k);
      }
    }
    forall p | !IsEntered(all, p)
      ensures !IsEntered(init, p) && p != e.path
    {
      EnteredStill(init, e, p);
    }
  }

  // What is left alone: a path whose top-level name is excluded, or is the folder native
  // libraries are unpacked to; a manifest that excludes nothing spares the usual names.
  predicate IsLeftAlone(p: Path, m: Manifest) {
    p != [] && (p[0] == ".blessforge-tmp" || IsNamedIn(p[0], if m.exclude == [] then DEFAULT_EXCLUDE else m.exclude))
  }

  predicate IsNamedIn(name: string, exclude: seq<Path>) { [] in exclude || [name] in exclude }

  lemma SparedIsLeftAlone(p: Path, m: Manifest)
    ensures Spared(p, if m.exclude == [] then DEFAULT_EXCLUDE else m.exclude) <==> IsLeftAlone(p, m)
  {
    var exclude := if m.exclude == [] then DEFAULT_EXCLUDE else m.exclude;
    if p != [] { TopLevel(p, exclude); }
  }

  lemma TopLevel(p: Path, exclude: seq<Path>)
    requires p != []
    ensures Excluded(p[..1], exclude) <==> IsNamedIn(p[0], exclude)
  {
    assert p[..1] == [p[0]];
    forall i | 0 <= i < |exclude|
      ensures exclude[i] <= p[..1] <==> exclude[i] == [] || exclude[i] == [p[0]]
    {}
    if IsNamedIn(p[0], exclude) {
      var i :| 0 <= i < |exclude| && (exclude[i] == [] || exclude[i] == [p[0]]);
      assert exclude[i] <= p[..1];
    }
  }

  ghost predicate IsWhole(s: Store, m: Manifest) { forall k :: 0 <= k < |m.files| ==> Has(s, m.files[k].sha) }

  // For any store, manifest and folder: a restore says that there is no such backup, or
  // that an object is missing, exactly when so; it stops at a file in the way exactly
  // when there is one; and otherwise leaves every entered file with the bytes of its last
  // entry, what is left alone, and nothing else.
  lemma WhatARestoreLeaves(s: Store, id: string, now: Contents)
    ensures Restored(s, id, now) == Err(NoSuchBackup) <==> id !in s.snapshots
    ensures id in s.snapshots ==> (Restored(s, id, now) == Err(Incomplete) <==> !IsWhole(s, s.snapshots[id]))
    ensures id in s.snapshots && IsWhole(s, s.snapshots[id]) ==>
      RestoresRightly(s, s.snapshots[id], now, Restored(s, id, now))
  {
    if id in s.snapshots && IsWhole(s, s.snapshots[id]) { RestoreIsRight(s, s.snapshots[id], now); }
  }

  ghost predicate RestoresRightly(s: Store, m: Manifest, now: Contents, r: Result<Contents, Refusal>)
    requires IsWhole(s, m)
  {
    var there := map p | p in now && IsLeftAlone(p, m) :: now[p];
    && (r.Err? <==> SomethingIsInTheWay(m.files, there))
    && (r.Err? ==> r.error == InTheWay)
    && (r.Ok? ==> WritesBack(s, m.files, there, r.value))
  }

  lemma RestoreIsRight(s: Store, m: Manifest, now: Contents)
    requires IsWhole(s, m)
    ensures var exclude := if m.exclude == [] then DEFAULT_EXCLUDE else m.exclude;
      RestoresRightly(s, m, now, WrittenBack(s, m.files, Swept(now, exclude)))
  {
    var exclude := if m.exclude == [] then DEFAULT_EXCLUDE else m.exclude;
    forall p
      ensures Spared(p, exclude) <==> IsLeftAlone(p, m)
    {
      SparedIsLeftAlone(p, m);
    }
    var there := map p | p in now && IsLeftAlone(p, m) :: now[p];
    assert Swept(now, exclude) == there;
    WritesAreBack(s, m.files, there);
  }
}
