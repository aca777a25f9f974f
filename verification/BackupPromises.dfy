// The two promises of the backups, over whole runs: a restore gives back the
// folder that was taken, and carrying hashes over changes nothing but the work.

module BackupPromises {
  import opened Prelude
  import opened BackupStore
  import opened BackupRuns

  // --- writing a snapshot back -----------------------------------------------------

  // No path of the list is a folder another needs to be, or is in the way of `now`.
  ghost predicate Free(files: seq<Entry>, now: Contents) {
    && (forall j, k :: 0 <= j < |files| && 0 <= k < |files| ==> !(files[j].path < files[k].path))
    && (forall k, q :: 0 <= k < |files| && q in now ==> !(q < files[k].path) && !(files[k].path < q))
  }

  lemma NamesOneMore(files: seq<Entry>, p: Path)
    requires files != []
    ensures Names(files, p) <==> Names(files[..|files| - 1], p) || p == files[|files| - 1].path
  {
    var init := files[..|files| - 1];
    if Names(init, p) {
      var k :| 0 <= k < |init| && init[k].path == p;
      assert files[k].path == p;
    }
    if Names(files, p) && p != files[|files| - 1].path {
      var k :| 0 <= k < |files| && files[k].path == p;
      assert init[k].path == p;
    }
  }

  // `r` is `now` with every file of the list at its path.
  ghost predicate Overlaid(s: Store, files: seq<Entry>, now: Contents, r: Contents)
    requires Complete(s, files)
  {
    && (forall p :: p in r <==> p in now || Names(files, p))
    && (forall k :: 0 <= k < |files| ==> files[k].path in r && r[files[k].path] == Object(s, files[k].sha))
    && (forall p :: p in now && !Names(files, p) ==> p in r && r[p] == now[p])
  }

  lemma NotBlocked(s: Store, files: seq<Entry>, now: Contents, before: Contents)
    requires files != [] && Complete(s, files) && Free(files, now)
    requires Overlaid(s, files[..|files| - 1], now, before)
    ensures !Blocked(files[|files| - 1].path, before)
  {
    var e := files[|files| - 1];
    forall q | q in before
      ensures !(q < e.path) && !(e.path < q)
    {
      if q !in now {
        var k :| 0 <= k < |files| - 1 && files[..|files| - 1][k].path == q;
        assert files[k].path == q;
      }
    }
  }

  lemma OverlaidOneMore(s: Store, files: seq<Entry>, now: Contents, before: Contents)
    requires files != [] && Complete(s, files)
    requires forall j, k :: 0 <= j < k < |files| ==> files[j].path != files[k].path
    requires Overlaid(s, files[..|files| - 1], now, before)
    ensures var e := files[|files| - 1];
      Overlaid(s, files, now, before[e.path := Object(s, e.sha)])
  {
    var init, e := files[..|files| - 1], files[|files| - 1];
    var r := before[e.path := Object(s, e.sha)];
    forall p
      ensures p in r <==> p in now || Names(files, p)
      ensures p in now && !Names(files, p) ==> p in r && r[p] == now[p]
    {
      NamesOneMore(files, p);
    }
    forall k | 0 <= k < |files|
      ensures files[k].path in r && r[files[k].path] == Object(s, files[k].sha)
    {
      if k < |init| { assert files[k] == init[k]; }
    }
  }

  lemma {:induction false} WritesBackEverything(s: Store, files: seq<Entry>, now: Contents)
    requires Complete(s, files) && Free(files, now)
    requires forall j, k :: 0 <= j < k < |files| ==> files[j].path != files[k].path
    ensures WrittenBack(s, files, now).Ok?
    ensures Overlaid(s, files, now, WrittenBack(s, files, now).value)
  {
    if files != [] {
      WritesBackEverything(s, files[..|files| - 1], now);
      NotBlocked(s, files, now, WrittenBack(s, files[..|files| - 1], now).value);
      OverlaidOneMore(s, files, now, WrittenBack(s, files[..|files| - 1], now).value);
    }
  }

  lemma SweptIsOutOfTheWay(op: Op, m: Manifest, now: Contents)
    requires op.Take? && IsTree(op.folder) && Faithful(m, op)
    ensures Free(m.files, Swept(now, m.exclude))
  {
    var swept := Swept(now, m.exclude);
    forall k, q | 0 <= k < |m.files| && q in swept
      ensures !(q < m.files[k].path) && !(m.files[k].path < q)
    {
      var p := m.files[k].path;
      assert Shows(m.files[k], op.folder);
      if p[0] == q[0] {
        assert p[..1] == q[..1];
        SparedIsExcluded(q, p, m.exclude, op.extra);
      }
    }
    forall j, k | 0 <= j < |m.files| && 0 <= k < |m.files|
      ensures !(m.files[j].path < m.files[k].path)
    {
      assert Shows(m.files[j], op.folder) && Shows(m.files[k], op.folder);
    }
  }

  // A path beside a spared one is excluded from every backup.
  lemma SparedIsExcluded(q: Path, p: Path, exclude: seq<Path>, extra: seq<Path>)
    requires exclude == CleanExclude(extra) && Spared(q, exclude) && p != [] && p[..1] == q[..1]
    ensures Excluded(p, exclude)
  {
    if q[0] == NATIVE_TMP {
      assert q[..1] == [NATIVE_TMP] == DEFAULT_EXCLUDE[2];
      assert exclude[2] <= p[..1] <= p;
    } else {
      var i :| 0 <= i < |exclude| && exclude[i] <= q[..1];
      assert exclude[i] <= p;
    }
  }

  // What a restore leaves: what was spared, and the files of the folder the
  // snapshot was taken from.
  ghost predicate GivesBack(op: Op, now: Contents, r: Contents)
    requires op.Take?
  {
    var exclude := CleanExclude(op.extra);
    && (forall p :: p in r ==>
          || (p in now && Spared(p, exclude) && r[p] == now[p])
          || (p in op.folder && !Excluded(p, exclude) && r[p] == op.folder[p].bytes))
    && (forall p :: p in now && Spared(p, exclude) ==> p in r && r[p] == now[p])
    && (forall p :: p in op.folder && !Excluded(p, exclude) && !op.folder[p].refused ==>
          p in r && r[p] == op.folder[p].bytes)
  }

  lemma OverlaidGivesBack(s: Store, m: Manifest, op: Op, now: Contents, r: Contents)
    requires Sound(s) && Complete(s, m.files) && op.Take? && Faithful(m, op) && Lists(op.walk, op.folder)
    requires Overlaid(s, m.files, Swept(now, m.exclude), r)
    ensures GivesBack(op, now, r)
  {
    forall p | Names(m.files, p)
      ensures p in op.folder && !Excluded(p, m.exclude) && p in r && r[p] == op.folder[p].bytes
    {
      var k :| 0 <= k < |m.files| && m.files[k].path == p;
      assert Shows(m.files[k], op.folder);
      assert Hash(Object(s, m.files[k].sha)) == m.files[k].sha;
    }
    forall p | p in now && Spared(p, m.exclude)
      ensures !Names(m.files, p)
    {
      SparedIsExcluded(p, p, m.exclude, op.extra);
    }
  }

  // Restoring a snapshot still in the index, after any run, onto anything:
  // it succeeds; what is under an excluded top-level name stays as it was; and
  // the rest is the folder the snapshot was taken from -- its own bytes at
  // every path, and every path that was not excluded and could be read.
  lemma RestoreGivesBackTheFolder(ops: seq<Op>, id: string, now: Contents)
    requires Legal(ops, true) && Honest(ops)
    requires Indexed(After(ops, true), id)
    ensures Origin(ops, id).Some? && Origin(ops, id).value.Take?
    ensures Restored(After(ops, true), id, now).Ok?
    ensures GivesBack(Origin(ops, id).value, now, Restored(After(ops, true), id, now).value)
  {
    var s := After(ops, true);
    EveryRunIsSound(ops, true);
    EveryRunIsFaithful(ops, true);
    EveryRunIsIndexed(ops, true);
    RestoreOne(s, id, Origin(ops, id).value, now);
  }

  ghost predicate Indexed(s: Store, id: string) {
    exists i :: 0 <= i < |s.index| && s.index[i].id == id
  }

  // The index and the manifests name the same snapshots.
  lemma {:induction false} EveryRunIsIndexed(ops: seq<Op>, carry: bool)
    requires Legal(ops, carry)
    ensures forall id :: Indexed(After(ops, carry), id) <==> id in After(ops, carry).snapshots
  {
    if ops != [] {
      var init, op := ops[..|ops| - 1], ops[|ops| - 1];
      EveryRunIsIndexed(init, carry);
      var s := After(init, carry);
      match op {
        case Take(folder, walk, id, extra, compress) =>
          var previous := if carry then Previous(s) else map[];
          SnapshotsUntouched(s, folder, walk, CleanExclude(extra), previous, compress);
          OneMoreIndexed(s, After(ops, carry), id);
        case Delete(gone, stuck) =>
          if gone in s.snapshots {
            DroppedIndex(s, [gone]);
            DeleteIsDropAndCollect(s, gone, stuck);
          }
        case KeepOnly(keep, stuck) => DroppedIndex(s, Surplus(s.index, keep));
        case Collect(stuck) =>
      }
      forall id
        ensures Indexed(After(ops, carry), id) <==> id in After(ops, carry).snapshots
      {
        assert Indexed(s, id) <==> id in s.snapshots;
      }
    }
  }

  lemma OneMoreIndexed(s: Store, t: Store, id: string)
    requires t.index == [Summary(id, true)] + s.index
    ensures forall x :: Indexed(t, x) <==> Indexed(s, x) || x == id
  {
    forall x
      ensures Indexed(t, x) <==> Indexed(s, x) || x == id
    {
      assert t.index[0].id == id;
      if Indexed(s, x) {
        var i :| 0 <= i < |s.index| && s.index[i].id == x;
        assert t.index[i + 1].id == x;
      }
      if Indexed(t, x) && x != id {
        var i :| 0 <= i < |t.index| && t.index[i].id == x;
        assert s.index[i - 1].id == x;
      }
    }
  }

  lemma DroppedIndex(s: Store, gone: seq<string>)
    ensures forall x :: Indexed(Dropped(s, gone), x) <==> Indexed(s, x) && x !in gone
    ensures Dropped(s, gone).snapshots.Keys == s.snapshots.Keys - (set id | id in gone)
    ensures forall stuck, x :: Indexed(Collected(Dropped(s, gone), stuck), x) <==> Indexed(Dropped(s, gone), x)
  {
    var t := Dropped(s, gone);
    forall x
      ensures Indexed(t, x) <==> Indexed(s, x) && x !in gone
    {
      if Indexed(s, x) && x !in gone {
        var i :| 0 <= i < |s.index| && s.index[i].id == x;
        assert s.index[i] in t.index;
        var j :| 0 <= j < |t.index| && t.index[j] == s.index[i];
      }
      if Indexed(t, x) {
        var i :| 0 <= i < |t.index| && t.index[i].id == x;
        assert t.index[i] in s.index;
        var j :| 0 <= j < |s.index| && s.index[j] == t.index[i];
      }
    }
  }

  ghost predicate DistinctIds(index: seq<Summary>) {
    forall i, j :: 0 <= i < j < |index| ==> index[i].id != index[j].id
  }

  lemma {:induction false} WithoutIsDistinct(index: seq<Summary>, gone: seq<string>)
    requires DistinctIds(index)
    ensures DistinctIds(Without(index, gone))
  {
    if index != [] {
      var rest := Without(index[1..], gone);
      WithoutIsDistinct(index[1..], gone);
      forall i | 0 <= i < |rest|
        ensures rest[i].id != index[0].id
      {
        assert rest[i] in index[1..];
      }
    }
  }

  lemma NextIsDistinct(s: Store, op: Op, carry: bool)
    requires Possible(s, op) && DistinctIds(s.index)
    ensures DistinctIds(Next(s, op, carry).index)
  {
    match op {
      case Take(folder, walk, id, extra, compress) =>
        var previous := if carry then Previous(s) else map[];
        SnapshotsUntouched(s, folder, walk, CleanExclude(extra), previous, compress);
      case Delete(gone, stuck) => WithoutIsDistinct(s.index, [gone]);
      case KeepOnly(keep, stuck) => WithoutIsDistinct(s.index, Surplus(s.index, keep));
      case Collect(stuck) =>
    }
  }

  lemma {:induction false} EveryIdIsOnce(ops: seq<Op>, carry: bool)
    requires Legal(ops, carry)
    ensures DistinctIds(After(ops, carry).index)
  {
    if ops != [] {
      EveryIdIsOnce(ops[..|ops| - 1], carry);
      NextIsDistinct(After(ops[..|ops| - 1], carry), ops[|ops| - 1], carry);
    }
  }

  lemma {:induction false} DoneIsDistinct(index: seq<Summary>)
    requires DistinctIds(index)
    ensures Distinct(Done(index))
  {
    if index != [] {
      var rest := Done(index[1..]);
      DoneIsDistinct(index[1..]);
      forall i | 0 <= i < |rest|
        ensures rest[i] != index[0].id
      {
        DoneIsIndexed(index[1..], rest[i]);
      }
    }
  }

  // Pruning, after any run, keeps the newest `keep` finished backups, in their
  // order; with nothing to keep it keeps all.
  lemma PruningKeepsTheNewest(ops: seq<Op>, carry: bool, keep: int, stuck: set<Digest>)
    requires Legal(ops, carry)
    ensures var done := Done(After(ops, carry).index);
      Done(KeptOnly(After(ops, carry), keep, stuck).index)
        == if keep <= 0 || |done| <= keep then done else done[..keep]
  {
    EveryIdIsOnce(ops, carry);
    DoneIsDistinct(After(ops, carry).index);
    PruningOne(After(ops, carry), keep, stuck);
  }

  lemma PruningOne(s: Store, keep: int, stuck: set<Digest>)
    requires Distinct(Done(s.index))
    ensures Done(KeptOnly(s, keep, stuck).index)
         == if keep <= 0 || |Done(s.index)| <= keep then Done(s.index) else Done(s.index)[..keep]
  {
    if keep > 0 && |Done(s.index)| > keep {
      DoneWithout(s.index, Done(s.index)[keep..]);
      CutFrom(Done(s.index), keep);
    }
  }

  lemma CutFrom(done: seq<string>, keep: nat)
    requires Distinct(done) && keep <= |done|
    ensures Filtered(done, done[keep..]) == done[..keep]
  {
    assert done == done[..keep] + done[keep..];
    FilteredAppend(done[..keep], done[keep..], done[keep..]);
    FilteredNone(done[..keep], done[keep..]);
    FilteredAll(done[keep..], done[keep..]);
  }

  function Filtered(ids: seq<string>, gone: seq<string>): seq<string> {
    if ids == [] then []
    else (if ids[0] in gone then [] else [ids[0]]) + Filtered(ids[1..], gone)
  }

  lemma {:induction false} DoneWithout(index: seq<Summary>, gone: seq<string>)
    ensures Done(Without(index, gone)) == Filtered(Done(index), gone)
  {
    if index != [] {
      DoneWithout(index[1..], gone);
      var x, rest, more := index[0], Without(index[1..], gone), Done(index[1..]);
      assert [] + rest == rest && ([x] + rest)[1..] == rest;
      assert [] + more == more && ([x.id] + more)[1..] == more;
      assert Without(index, gone) == if x.id in gone then rest else [x] + rest;
      assert Done(index) == if x.done then [x.id] + more else more;
    }
  }

  lemma {:induction false} FilteredAppend(a: seq<string>, b: seq<string>, gone: seq<string>)
    ensures Filtered(a + b, gone) == Filtered(a, gone) + Filtered(b, gone)
  {
    if a == [] {
      assert a + b == b;
    } else {
      FilteredAppend(a[1..], b, gone);
      assert (a + b)[1..] == a[1..] + b;
      Associates(if a[0] in gone then [] else [a[0]], Filtered(a[1..], gone), Filtered(b, gone));
    }
  }

  lemma Associates(a: seq<string>, b: seq<string>, c: seq<string>)
    ensures a + (b + c) == a + b + c
  {}

  lemma {:induction false} FilteredNone(ids: seq<string>, gone: seq<string>)
    requires forall i :: 0 <= i < |ids| ==> ids[i] !in gone
    ensures Filtered(ids, gone) == ids
  {
    if ids != [] { FilteredNone(ids[1..], gone); }
  }

  lemma {:induction false} FilteredAll(ids: seq<string>, gone: seq<string>)
    requires forall i :: 0 <= i < |ids| ==> ids[i] in gone
    ensures Filtered(ids, gone) == []
  {
    if ids != [] { FilteredAll(ids[1..], gone); }
  }

  lemma RestoreOne(s: Store, id: string, op: Op, now: Contents)
    requires Sound(s) && Indexed(s, id) && id in s.snapshots
    requires op.Take? && IsTree(op.folder) && Lists(op.walk, op.folder) && Faithful(s.snapshots[id], op)
    ensures Restored(s, id, now).Ok? && GivesBack(op, now, Restored(s, id, now).value)
  {
    var m := s.snapshots[id];
    var i :| 0 <= i < |s.index| && s.index[i].id == id;
    assert Complete(s, m.files);
    SweptIsOutOfTheWay(op, m, now);
    WritesBackEverything(s, m.files, Swept(now, m.exclude));
    OverlaidGivesBack(s, m, op, now, WrittenBack(s, m.files, Swept(now, m.exclude)).value);
  }

  // A restore that is refused leaves the folder alone, and is refused exactly
  // when the manifest or one of its objects is missing.
  lemma RefusedBeforeAnythingMoves(ops: seq<Op>, id: string, now: Contents)
    requires Legal(ops, true) && Honest(ops)
    ensures var s := After(ops, true);
      && (Restored(s, id, now) == Err(NoSuchBackup) <==> id !in s.snapshots)
      && (Restored(s, id, now) == Err(Incomplete) <==> id in s.snapshots && !Complete(s, s.snapshots[id].files))
      && Restored(s, id, now) != Err(InTheWay)
  {
    var s := After(ops, true);
    EveryRunIsSound(ops, true);
    EveryRunIsFaithful(ops, true);
    if id in s.snapshots && Complete(s, s.snapshots[id].files) {
      var op := Origin(ops, id).value;
      var m := s.snapshots[id];
      SweptIsOutOfTheWay(op, m, now);
      WritesBackEverything(s, m.files, Swept(now, m.exclude));
    }
  }

  // --- carrying hashes over ------------------------------------------------------------

  // A file unchanged since the last snapshot that can no longer be opened: it
  // is carried over, where a take that reads everything would skip it.
  ghost predicate Hidden(op: Op, previous: map<Path, Entry>)
    requires op.Take?
  {
    exists p :: HiddenAt(op, previous, p)
  }

  ghost predicate HiddenAt(op: Op, previous: map<Path, Entry>, p: Path)
    requires op.Take?
  {
    && p in op.folder && !Excluded(p, CleanExclude(op.extra)) && op.folder[p].refused
    && p in previous && Matches(previous[p], op.folder[p])
  }

  // The take that carries over records it, the one that reads does not.
  lemma HiddenIsCarried(s: Store, op: Op, p: Path)
    requires Sound(s) && op.Take? && Possible(s, op) && HiddenAt(op, Previous(s), p)
    ensures op.id in Next(s, op, true).snapshots && Names(Next(s, op, true).snapshots[op.id].files, p)
    ensures op.id in Next(s, op, false).snapshots && !Names(Next(s, op, false).snapshots[op.id].files, p)
  {
    var exclude, previous := CleanExclude(op.extra), Previous(s);
    PreviousIsStored(s);
    RefusedIsSkipped(s, op.folder, op.walk, exclude, op.compress, p);
    MatchedIsCarried(s, op.folder, op.walk, exclude, previous, op.compress, p);
  }

  lemma PreviousIsStored(s: Store)
    requires Sound(s)
    ensures forall p :: p in Previous(s) ==> Has(s, Previous(s)[p].sha)
  {
    var done := Done(s.index);
    if done != [] && done[0] in s.snapshots {
      DoneIsIndexed(s.index, done[0]);
      var i :| 0 <= i < |s.index| && s.index[i].id == done[0];
      assert Complete(s, s.snapshots[done[0]].files);
    }
  }

  lemma {:induction false} DoneIsIndexed(index: seq<Summary>, id: string)
    requires id in Done(index)
    ensures exists i :: 0 <= i < |index| && index[i].id == id
  {
    if index[0].done && index[0].id == id {
      assert index[0].id == id;
    } else {
      DoneIsIndexed(index[1..], id);
      var i :| 0 <= i < |index[1..]| && index[1..][i].id == id;
      assert index[i + 1].id == id;
    }
  }

  // File by file, the two takes do the same unless a carried file is refused.
  lemma {:induction false} SameTaking(s: Store, folder: Folder, walk: seq<Path>, exclude: seq<Path>,
                                      previous: map<Path, Entry>, compress: bool)
    requires (forall p :: p in walk ==> p in folder) && Sound(s) && Unchanged(previous, folder)
    requires forall p :: p in previous ==> Has(s, previous[p].sha)
    requires forall p :: p in walk && !Excluded(p, exclude) && p in previous && Matches(previous[p], folder[p]) ==>
      !folder[p].refused
    ensures TakeFiles(s, folder, walk, exclude, previous, compress)
         == TakeFiles(s, folder, walk, exclude, map[], compress)
  {
    if walk != [] {
      SameTaking(s, folder, walk[..|walk| - 1], exclude, previous, compress);
      TakeFilesIsSound(s, folder, walk[..|walk| - 1], exclude, previous, compress);
    }
  }

  lemma {:induction false} RefusedIsSkipped(s: Store, folder: Folder, walk: seq<Path>, exclude: seq<Path>,
                                            compress: bool, p: Path)
    requires (forall q :: q in walk ==> q in folder) && p in folder && folder[p].refused
    ensures !Names(TakeFiles(s, folder, walk, exclude, map[], compress).files, p)
  {
    if walk != [] { RefusedIsSkipped(s, folder, walk[..|walk| - 1], exclude, compress, p); }
  }

  lemma {:induction false} MatchedIsCarried(s: Store, folder: Folder, walk: seq<Path>, exclude: seq<Path>,
                                            previous: map<Path, Entry>, compress: bool, p: Path)
    requires (forall q :: q in walk ==> q in folder) && Sound(s)
    requires forall q :: q in previous ==> Has(s, previous[q].sha)
    requires p in walk && !Excluded(p, exclude) && p in previous && Matches(previous[p], folder[p])
    ensures Names(TakeFiles(s, folder, walk, exclude, previous, compress).files, p)
  {
    var init, last := walk[..|walk| - 1], walk[|walk| - 1];
    TakeFilesIsSound(s, folder, init, exclude, previous, compress);
    var before := TakeFiles(s, folder, init, exclude, previous, compress);
    var after := TakeFiles(s, folder, walk, exclude, previous, compress);
    if p == last {
      assert after.files[|before.files|].path == p;
    } else {
      assert walk == init + [last];
      MatchedIsCarried(s, folder, init, exclude, previous, compress, p);
      var k :| 0 <= k < |before.files| && before.files[k].path == p;
      assert after.files[k].path == p;
    }
  }

  // A take that carries hashes over leaves the same store as one that reads
  // every file, if and only if no unchanged file has become unreadable.
  lemma CarryOverReadsTheSame(ops: seq<Op>, op: Op)
    requires Legal(ops, true) && op.Take? && Possible(After(ops, true), op) && Honest(ops + [op])
    ensures var s := After(ops, true);
      Next(s, op, true) == Next(s, op, false) <==> !Hidden(op, Previous(s))
  {
    var s := After(ops, true);
    HonestSoFar(ops, op);
    EveryRunIsSound(ops, true);
    EveryRunIsFaithful(ops, true);
    PreviousIsStored(s);
    PreviousIsUnchanged(s, ops, op);
    var exclude, previous := CleanExclude(op.extra), Previous(s);
    if Hidden(op, previous) {
      var p :| HiddenAt(op, previous, p);
      HiddenIsCarried(s, op, p);
    } else {
      forall p | p in op.walk && !Excluded(p, exclude) && p in previous && Matches(previous[p], op.folder[p])
        ensures !op.folder[p].refused
      {
        assert !HiddenAt(op, previous, p);
      }
      SameTaking(s, op.folder, op.walk, exclude, previous, op.compress);
    }
  }

  lemma HonestSoFar(ops: seq<Op>, op: Op)
    requires Honest(ops + [op])
    ensures Honest(ops)
  {
    assert forall a :: a in ops ==> a in ops + [op];
  }

  ghost predicate NothingHidden(ops: seq<Op>)
    requires Legal(ops, true)
    decreases |ops|
  {
    ops == [] ||
    (NothingHidden(ops[..|ops| - 1]) &&
     (ops[|ops| - 1].Take? ==> !Hidden(ops[|ops| - 1], Previous(After(ops[..|ops| - 1], true)))))
  }

  // So along a whole run, the store that carries over is the store that reads
  // everything: same objects, same manifests, same index.
  lemma {:induction false} CarryOverRefinesReading(ops: seq<Op>)
    requires Legal(ops, true) && Honest(ops) && NothingHidden(ops)
    ensures Legal(ops, false) && After(ops, false) == After(ops, true)
  {
    if ops != [] {
      var init, op := ops[..|ops| - 1], ops[|ops| - 1];
      assert ops == init + [op];
      HonestSoFar(init, op);
      CarryOverRefinesReading(init);
      if op.Take? { CarryOverReadsTheSame(init, op); }
    }
  }
}
