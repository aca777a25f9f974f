// What a server's backups keep over any run of takes, deletes, prunings and
// collections: the store invariant, restores that give back the folder that
// was taken, and a carry-over that reads less and records the same.

module BackupRuns {
  import opened Prelude
  import opened BackupStore

  // --- the store invariant ------------------------------------------------------

  // Every object's bytes hash to its name, in one form only, and every indexed
  // snapshot whose manifest is there has all its objects.
  ghost predicate Sound(s: Store) {
    && s.raw.Keys !! s.packed.Keys
    && (forall d :: d in s.raw ==> Hash(s.raw[d]) == d)
    && (forall d :: d in s.packed ==> Hash(s.packed[d]) == d)
    && (forall i :: 0 <= i < |s.index| && s.index[i].id in s.snapshots ==>
          Complete(s, s.snapshots[s.index[i].id].files))
  }

  ghost predicate Complete(s: Store, files: seq<Entry>) {
    forall k :: 0 <= k < |files| ==> Has(s, files[k].sha)
  }

  // The same snapshots and index, and no object fewer.
  ghost predicate OnlyAdds(s: Store, t: Store) {
    && t.snapshots == s.snapshots && t.index == s.index
    && forall d :: Has(s, d) ==> Has(t, d)
  }

  lemma StoredIsSound(s: Store, b: Bytes, compress: bool)
    requires Sound(s)
    ensures Sound(Stored(s, b, compress)) && OnlyAdds(s, Stored(s, b, compress))
    ensures Has(Stored(s, b, compress), Hash(b))
  {
    var t := Stored(s, b, compress);
    forall i | 0 <= i < |t.index| && t.index[i].id in t.snapshots
      ensures Complete(t, t.snapshots[t.index[i].id].files)
    {
      assert Complete(s, s.snapshots[s.index[i].id].files);
    }
  }

  lemma {:induction false} TakeFilesIsSound(s: Store, folder: Folder, walk: seq<Path>, exclude: seq<Path>,
                                            previous: map<Path, Entry>, compress: bool)
    requires Sound(s) && forall p :: p in walk ==> p in folder
    ensures var t := TakeFiles(s, folder, walk, exclude, previous, compress);
      Sound(t.store) && OnlyAdds(s, t.store) && Complete(t.store, t.files)
  {
    if walk != [] {
      var init, p := walk[..|walk| - 1], walk[|walk| - 1];
      TakeFilesIsSound(s, folder, init, exclude, previous, compress);
      var t := TakeFiles(s, folder, init, exclude, previous, compress);
      StoredIsSound(t.store, folder[p].bytes, compress);
    }
  }

  lemma TakenIsSound(s: Store, folder: Folder, walk: seq<Path>, id: string, extra: seq<Path>,
                     compress: bool, previous: map<Path, Entry>)
    requires Sound(s) && (forall p :: p in walk ==> p in folder) && id !in s.snapshots
    requires forall i :: 0 <= i < |s.index| ==> s.index[i].id != id
    ensures Sound(TakenWith(s, folder, walk, id, extra, compress, previous))
  {
    TakeFilesIsSound(s, folder, walk, CleanExclude(extra), previous, compress);
    var u := TakenWith(s, folder, walk, id, extra, compress, previous);
    var t := TakeFiles(s, folder, walk, CleanExclude(extra), previous, compress);
    forall i | 0 <= i < |u.index| && u.index[i].id in u.snapshots
      ensures Complete(u, u.snapshots[u.index[i].id].files)
    {
      if i > 0 { assert u.index[i] == s.index[i - 1]; }
      assert forall d :: Has(u, d) <==> Has(t.store, d);
    }
  }

  // Collecting leaves exactly the objects some indexed snapshot refers to, and
  // those whose file could not be deleted.
  lemma CollectedExactly(s: Store, stuck: set<Digest>)
    requires Sound(s)
    ensures Sound(Collected(s, stuck))
    ensures forall d :: Has(Collected(s, stuck), d) <==> d in Wanted(s) || (Has(s, d) && d in stuck)
  {
    var t := Collected(s, stuck);
    forall d | d in Wanted(s)
      ensures Has(s, d)
    {
      var i, k :| 0 <= i < |s.index| && s.index[i].id in s.snapshots
        && 0 <= k < |s.snapshots[s.index[i].id].files| && s.snapshots[s.index[i].id].files[k].sha == d;
      assert Complete(s, s.snapshots[s.index[i].id].files);
    }
    forall i | 0 <= i < |t.index| && t.index[i].id in t.snapshots
      ensures Complete(t, t.snapshots[t.index[i].id].files)
    {
      var files := s.snapshots[s.index[i].id].files;
      forall k | 0 <= k < |files|
        ensures Has(t, files[k].sha)
      {
        assert files[k].sha in Wanted(s);
      }
    }
  }

  // Some snapshots gone, from the manifests and from the index.
  ghost function Dropped(s: Store, gone: seq<string>): Store {
    s.(snapshots := s.snapshots - (set id | id in gone), index := Without(s.index, gone))
  }

  lemma DroppedIsSound(s: Store, gone: seq<string>)
    requires Sound(s)
    ensures Sound(Dropped(s, gone))
  {
    var t := Dropped(s, gone);
    forall i | 0 <= i < |t.index| && t.index[i].id in t.snapshots
      ensures Complete(t, t.snapshots[t.index[i].id].files)
    {
      assert t.index[i] in t.index && t.index[i] in s.index;
      var j :| 0 <= j < |s.index| && s.index[j] == t.index[i];
      assert Complete(s, s.snapshots[s.index[j].id].files);
    }
  }

  lemma DeleteIsDropAndCollect(s: Store, id: string, stuck: set<Digest>)
    requires id in s.snapshots
    ensures Deleted(s, id, stuck) == Collected(Dropped(s, [id]), stuck)
  {
    assert (set x | x in [id]) == {id};
  }

  // After a delete, or a pruning that removed something, the store holds what
  // the remaining snapshots need and nothing else.
  lemma RemovingLeavesOnlyWhatIsNeeded(s: Store, id: string, keep: int)
    requires Sound(s)
    ensures id in s.snapshots ==> forall d :: Has(Deleted(s, id, {}), d) <==> d in Wanted(Deleted(s, id, {}))
    ensures Surplus(s.index, keep) != [] ==>
      forall d :: Has(KeptOnly(s, keep, {}), d) <==> d in Wanted(KeptOnly(s, keep, {}))
  {
    if id in s.snapshots {
      DeleteIsDropAndCollect(s, id, {});
      DroppedIsSound(s, [id]);
      CollectedExactly(Dropped(s, [id]), {});
      assert Wanted(Deleted(s, id, {})) == Wanted(Dropped(s, [id]));
    }
    var gone := Surplus(s.index, keep);
    if gone != [] {
      DroppedIsSound(s, gone);
      CollectedExactly(Dropped(s, gone), {});
      assert Wanted(KeptOnly(s, keep, {})) == Wanted(Dropped(s, gone));
    }
  }

  // --- runs -------------------------------------------------------------------------

  datatype Op =
    | Take(folder: Folder, walk: seq<Path>, id: string, extra: seq<Path>, compress: bool)
    | Delete(gone: string, stuck: set<Digest>)
    | KeepOnly(keep: int, stuck: set<Digest>)
    | Collect(stuck: set<Digest>)

  // No file where another needs a folder.
  ghost predicate IsTree(folder: Folder) {
    && [] !in folder
    && forall p, q :: p in folder && q in folder ==> !(p < q)
  }

  ghost predicate Lists(walk: seq<Path>, folder: Folder) {
    Distinct(walk) && forall p :: p in walk <==> p in folder
  }

  // A take reads a real folder, in some order, under an id nobody has used.
  ghost predicate Possible(s: Store, op: Op) {
    op.Take? ==>
      && IsTree(op.folder) && Lists(op.walk, op.folder)
      && op.id !in s.snapshots
      && forall i :: 0 <= i < |s.index| ==> s.index[i].id != op.id
  }

  // `carry` false: a store that reads every file on every take.
  ghost function Next(s: Store, op: Op, carry: bool): Store
    requires Possible(s, op)
  {
    match op
    case Take(folder, walk, id, extra, compress) =>
      TakenWith(s, folder, walk, id, extra, compress, if carry then Previous(s) else map[])
    case Delete(gone, stuck) => Deleted(s, gone, stuck)
    case KeepOnly(keep, stuck) => KeptOnly(s, keep, stuck)
    case Collect(stuck) => Collected(s, stuck)
  }

  lemma NextIsSound(s: Store, op: Op, carry: bool)
    requires Sound(s) && Possible(s, op)
    ensures Sound(Next(s, op, carry))
  {
    match op {
      case Take(folder, walk, id, extra, compress) =>
        TakenIsSound(s, folder, walk, id, extra, compress, if carry then Previous(s) else map[]);
      case Delete(gone, stuck) =>
        if gone in s.snapshots {
          DeleteIsDropAndCollect(s, gone, stuck);
          DroppedIsSound(s, [gone]);
          CollectedExactly(Dropped(s, [gone]), stuck);
        }
      case KeepOnly(keep, stuck) =>
        DroppedIsSound(s, Surplus(s.index, keep));
        CollectedExactly(Dropped(s, Surplus(s.index, keep)), stuck);
      case Collect(stuck) => CollectedExactly(s, stuck);
    }
  }

  ghost predicate Legal(ops: seq<Op>, carry: bool)
    decreases |ops|, 0
  {
    ops == [] || (Legal(ops[..|ops| - 1], carry) && Possible(After(ops[..|ops| - 1], carry), ops[|ops| - 1]))
  }

  ghost function After(ops: seq<Op>, carry: bool): Store
    requires Legal(ops, carry)
    decreases |ops|, 1
  {
    if ops == [] then NoBackups else Next(After(ops[..|ops| - 1], carry), ops[|ops| - 1], carry)
  }

  lemma {:induction false} EveryRunIsSound(ops: seq<Op>, carry: bool)
    requires Legal(ops, carry)
    ensures Sound(After(ops, carry))
  {
    if ops != [] {
      EveryRunIsSound(ops[..|ops| - 1], carry);
      NextIsSound(After(ops[..|ops| - 1], carry), ops[|ops| - 1], carry);
    }
  }

  // --- what a snapshot records --------------------------------------------------------

  // An entry says what the folder held at its path.
  ghost predicate Shows(e: Entry, folder: Folder) {
    && e.path in folder
    && e.sha == Hash(folder[e.path].bytes)
    && e.size == |folder[e.path].bytes|
    && e.mtime == folder[e.path].mtime
  }

  ghost predicate AllShow(files: seq<Entry>, folder: Folder) {
    forall k :: 0 <= k < |files| ==> Shows(files[k], folder)
  }

  ghost predicate Names(files: seq<Entry>, p: Path) {
    exists k :: 0 <= k < |files| && files[k].path == p
  }

  // The files of a snapshot of `folder`, as far as `walk` went: each path once,
  // none of them excluded, and every file that could be read.
  ghost predicate Records(files: seq<Entry>, folder: Folder, walk: seq<Path>, exclude: seq<Path>) {
    && AllShow(files, folder)
    && (forall j, k :: 0 <= j < k < |files| ==> files[j].path != files[k].path)
    && (forall k :: 0 <= k < |files| ==> files[k].path in walk && !Excluded(files[k].path, exclude))
    && (forall p :: p in walk && p in folder && !Excluded(p, exclude) && !folder[p].refused ==> Names(files, p))
  }

  predicate Matches(e: Entry, f: File) {
    e.size == |f.bytes| && e.mtime == f.mtime
  }

  // Unchanged size and modification time mean unchanged bytes.
  ghost predicate Unchanged(previous: map<Path, Entry>, folder: Folder) {
    forall p :: p in previous && p in folder && Matches(previous[p], folder[p]) ==>
      previous[p].sha == Hash(folder[p].bytes)
  }

  lemma {:induction false} TakeFilesRecords(s: Store, folder: Folder, walk: seq<Path>, exclude: seq<Path>,
                                            previous: map<Path, Entry>, compress: bool)
    requires (forall p :: p in walk ==> p in folder) && Distinct(walk) && Unchanged(previous, folder)
    ensures Records(TakeFiles(s, folder, walk, exclude, previous, compress).files, folder, walk, exclude)
  {
    if walk != [] {
      var init, p := walk[..|walk| - 1], walk[|walk| - 1];
      TakeFilesRecords(s, folder, init, exclude, previous, compress);
      var before := TakeFiles(s, folder, init, exclude, previous, compress);
      var after := TakeFiles(s, folder, walk, exclude, previous, compress);
      if after.files == before.files {
        SameRecords(before.files, folder, init, p, exclude);
      } else {
        OneMoreRecord(before.files, after.files[|before.files|], folder, init, p, exclude);
      }
      assert walk == init + [p];
    }
  }

  lemma SameRecords(files: seq<Entry>, folder: Folder, walk: seq<Path>, p: Path, exclude: seq<Path>)
    requires Records(files, folder, walk, exclude)
    requires p in folder && (Excluded(p, exclude) || folder[p].refused)
    ensures Records(files, folder, walk + [p], exclude)
  {}

  lemma OneMoreRecord(files: seq<Entry>, e: Entry, folder: Folder, walk: seq<Path>, p: Path, exclude: seq<Path>)
    requires Records(files, folder, walk, exclude) && p !in walk
    requires Shows(e, folder) && e.path == p && !Excluded(p, exclude)
    ensures Records(files + [e], folder, walk + [p], exclude)
  {
    var more := files + [e];
    forall q | q in walk + [p] && q in folder && !Excluded(q, exclude) && !folder[q].refused
      ensures Names(more, q)
    {
      if q in walk {
        var k :| 0 <= k < |files| && files[k].path == q;
        assert more[k].path == q;
      } else {
        assert more[|files|].path == q;
      }
    }
  }

  ghost predicate Faithful(m: Manifest, op: Op)
    requires op.Take?
  {
    m.exclude == CleanExclude(op.extra) && Records(m.files, op.folder, op.walk, m.exclude)
  }

  // --- where each snapshot came from -----------------------------------------------------

  // The take a snapshot still in the store was made by.
  ghost function Origin(ops: seq<Op>, id: string): Option<Op> {
    if ops == [] then None
    else
      var op := ops[|ops| - 1];
      if op.Take? && op.id == id then Some(op) else Origin(ops[..|ops| - 1], id)
  }

  lemma {:induction false} OriginIsInTheRun(ops: seq<Op>, id: string)
    requires Origin(ops, id).Some?
    ensures Origin(ops, id).value.Take? && Origin(ops, id).value in ops
  {
    if !(ops[|ops| - 1].Take? && ops[|ops| - 1].id == id) { OriginIsInTheRun(ops[..|ops| - 1], id); }
  }

  // Over the folders a run ever took: same path, size and modification time,
  // same bytes.
  ghost predicate Honest(ops: seq<Op>) {
    forall a, b, p :: a in ops && b in ops && a.Take? && b.Take? && p in a.folder && p in b.folder ==>
      |a.folder[p].bytes| == |b.folder[p].bytes| && a.folder[p].mtime == b.folder[p].mtime ==>
      a.folder[p].bytes == b.folder[p].bytes
  }

  // A manifest records the folder of one of the takes.
  ghost predicate RecordsTake(m: Manifest, ops: seq<Op>, op: Op) {
    && op.Take? && op in ops
    && IsTree(op.folder) && Lists(op.walk, op.folder)
    && Faithful(m, op)
  }

  ghost predicate AllFaithful(s: Store, ops: seq<Op>) {
    forall id :: id in s.snapshots ==>
      Origin(ops, id).Some? && RecordsTake(s.snapshots[id], ops, Origin(ops, id).value)
  }

  lemma PreviousIsUnchanged(s: Store, ops: seq<Op>, op: Op)
    requires AllFaithful(s, ops) && op.Take? && Honest(ops + [op])
    ensures Unchanged(Previous(s), op.folder)
  {
    var previous := Previous(s);
    forall p | p in previous && p in op.folder && Matches(previous[p], op.folder[p])
      ensures previous[p].sha == Hash(op.folder[p].bytes)
    {
      var was := Origin(ops, Done(s.index)[0]).value;
      var files := s.snapshots[Done(s.index)[0]].files;
      var k :| 0 <= k < |files| && files[k] == previous[p];
      assert Shows(files[k], was.folder);
      assert was in ops + [op] && op in ops + [op];
    }
  }

  lemma TakeIsFaithful(s: Store, ops: seq<Op>, op: Op, carry: bool)
    requires op.Take? && Possible(s, op) && Unchanged(Previous(s), op.folder)
    ensures op.id in Next(s, op, carry).snapshots && Faithful(Next(s, op, carry).snapshots[op.id], op)
    ensures forall id :: id in s.snapshots ==>
      id in Next(s, op, carry).snapshots && Next(s, op, carry).snapshots[id] == s.snapshots[id]
    ensures Next(s, op, carry).snapshots.Keys == s.snapshots.Keys + {op.id}
  {
    var previous := if carry then Previous(s) else map[];
    TakeFilesRecords(s, op.folder, op.walk, CleanExclude(op.extra), previous, op.compress);
    SnapshotsUntouched(s, op.folder, op.walk, CleanExclude(op.extra), previous, op.compress);
  }

  lemma {:induction false} SnapshotsUntouched(s: Store, folder: Folder, walk: seq<Path>, exclude: seq<Path>,
                                              previous: map<Path, Entry>, compress: bool)
    requires forall p :: p in walk ==> p in folder
    ensures TakeFiles(s, folder, walk, exclude, previous, compress).store.snapshots == s.snapshots
    ensures TakeFiles(s, folder, walk, exclude, previous, compress).store.index == s.index
  {
    if walk != [] { SnapshotsUntouched(s, folder, walk[..|walk| - 1], exclude, previous, compress); }
  }

  lemma StaysRecorded(m: Manifest, ops: seq<Op>, op: Op, id: string)
    requires Origin(ops, id).Some? && RecordsTake(m, ops, Origin(ops, id).value)
    requires !(op.Take? && op.id == id)
    ensures Origin(ops + [op], id).Some? && RecordsTake(m, ops + [op], Origin(ops + [op], id).value)
  {
    assert (ops + [op])[..|ops|] == ops;
  }

  lemma IsRecorded(m: Manifest, ops: seq<Op>, op: Op)
    requires op.Take? && IsTree(op.folder) && Lists(op.walk, op.folder) && Faithful(m, op)
    ensures Origin(ops + [op], op.id) == Some(op) && RecordsTake(m, ops + [op], op)
  {
    assert (ops + [op])[|ops|] == op;
  }

  lemma TakeKeepsFaithful(s: Store, ops: seq<Op>, op: Op, carry: bool)
    requires op.Take? && Possible(s, op) && AllFaithful(s, ops) && Honest(ops + [op])
    ensures AllFaithful(Next(s, op, carry), ops + [op])
  {
    var t := Next(s, op, carry);
    PreviousIsUnchanged(s, ops, op);
    TakeIsFaithful(s, ops, op, carry);
    IsRecorded(t.snapshots[op.id], ops, op);
    forall id | id in t.snapshots
      ensures Origin(ops + [op], id).Some? && RecordsTake(t.snapshots[id], ops + [op], Origin(ops + [op], id).value)
    {
      if id != op.id { StaysRecorded(s.snapshots[id], ops, op, id); }
    }
  }

  lemma RemovalKeepsFaithful(s: Store, ops: seq<Op>, op: Op, carry: bool)
    requires !op.Take? && AllFaithful(s, ops)
    ensures AllFaithful(Next(s, op, carry), ops + [op])
  {
    var t := Next(s, op, carry);
    forall id | id in t.snapshots
      ensures Origin(ops + [op], id).Some? && RecordsTake(t.snapshots[id], ops + [op], Origin(ops + [op], id).value)
    {
      assert id in s.snapshots && t.snapshots[id] == s.snapshots[id];
      StaysRecorded(s.snapshots[id], ops, op, id);
    }
  }

  lemma {:induction false} EveryRunIsFaithful(ops: seq<Op>, carry: bool)
    requires Legal(ops, carry) && Honest(ops)
    ensures AllFaithful(After(ops, carry), ops)
  {
    if ops != [] {
      var init, op := ops[..|ops| - 1], ops[|ops| - 1];
      assert ops == init + [op];
      EveryRunIsFaithful(init, carry);
      if op.Take? {
        TakeKeepsFaithful(After(init, carry), init, op, carry);
      } else {
        RemovalKeepsFaithful(After(init, carry), init, op, carry);
      }
    }
  }
}
