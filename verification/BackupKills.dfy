// A node that is killed in the middle of a backup's work: each file written, moved
// into place or unlinked is one step, and an operation may end after any of them.

module BackupKills {
  import opened Prelude
  import opened BackupStore
  import opened BackupPromises
  import opened BackupRuns

  // --- the writes of an operation ---------------------------------------------------------

  datatype Write =
    | PutObject(bytes: Bytes, compress: bool)
    | PutManifest(id: string, m: Manifest)
    | PutIndex(index: seq<Summary>)
    | DropManifest(id: string)
    | Unlink(d: Digest)

  function Apply(s: Store, w: Write): Store {
    match w
    case PutObject(bytes, compress) => Stored(s, bytes, compress)
    case PutManifest(id, m) => s.(snapshots := s.snapshots[id := m])
    case PutIndex(index) => s.(index := index)
    case DropManifest(id) => s.(snapshots := s.snapshots - {id})
    case Unlink(d) => s.(raw := s.raw - {d}, packed := s.packed - {d})
  }

  function ApplyAll(s: Store, ws: seq<Write>): Store {
    if ws == [] then s else Apply(ApplyAll(s, ws[..|ws| - 1]), ws[|ws| - 1])
  }

  // What a take moves into its store, file by file.
  function FileWrites(t: Taking, p: Path, f: File, exclude: seq<Path>,
                      previous: map<Path, Entry>, compress: bool): seq<Write> {
    if Excluded(p, exclude) || Carried(t, p, f, previous) || f.refused then [] else [PutObject(f.bytes, compress)]
  }

  function TakeWrites(s: Store, folder: Folder, walk: seq<Path>, exclude: seq<Path>,
                      previous: map<Path, Entry>, compress: bool): seq<Write>
    requires forall p :: p in walk ==> p in folder
  {
    if walk == [] then []
    else
      var init, p := walk[..|walk| - 1], walk[|walk| - 1];
      TakeWrites(s, folder, init, exclude, previous, compress)
      + FileWrites(TakeFiles(s, folder, init, exclude, previous, compress), p, folder[p], exclude, previous, compress)
  }

  function Drops(ids: seq<string>): (ws: seq<Write>)
    ensures |ws| == |ids| && forall i :: 0 <= i < |ids| ==> ws[i] == DropManifest(ids[i])
  {
    seq(|ids|, i requires 0 <= i < |ids| => DropManifest(ids[i]))
  }

  function Unlinks(order: seq<Digest>): (ws: seq<Write>)
    ensures |ws| == |order| && forall i :: 0 <= i < |order| ==> ws[i] == Unlink(order[i])
  {
    seq(|order|, i requires 0 <= i < |order| => Unlink(order[i]))
  }

  function RemovalWrites(s: Store, gone: seq<string>, order: seq<Digest>): seq<Write> {
    Drops(gone) + [PutIndex(Without(s.index, gone))] + Unlinks(order)
  }

  // All the writes of an operation, in order; `order` is that in which its collection
  // comes upon the objects.
  ghost function WritesOf(s: Store, op: Op, order: seq<Digest>): seq<Write>
    requires Possible(s, op)
  {
    match op
    case Take(folder, walk, id, extra, compress) =>
      var exclude := CleanExclude(extra);
      var t := TakeFiles(s, folder, walk, exclude, Previous(s), compress);
      TakeWrites(s, folder, walk, exclude, Previous(s), compress)
      + [PutManifest(id, Manifest(exclude, t.files, Capped(t.skipped)))]
      + [PutIndex([Summary(id, true)] + s.index)]
    case Delete(gone, stuck) => if gone in s.snapshots then RemovalWrites(s, [gone], order) else []
    case KeepOnly(keep, stuck) =>
      if Surplus(s.index, keep) == [] then [] else RemovalWrites(s, Surplus(s.index, keep), order)
    case Collect(stuck) => Unlinks(order)
  }

  ghost predicate Unwanted(order: seq<Digest>, s: Store, stuck: set<Digest>) {
    forall d :: d in order <==> Has(s, d) && d !in Wanted(s) && d !in stuck
  }

  // A collection unlinks every object nothing refers to, but for those that will not go.
  ghost predicate InSomeOrder(s: Store, op: Op, order: seq<Digest>) {
    match op
    case Take(_, _, _, _, _) => true
    case Delete(gone, stuck) => Unwanted(order, Dropped(s, [gone]), stuck)
    case KeepOnly(keep, stuck) => Unwanted(order, Dropped(s, Surplus(s.index, keep)), stuck)
    case Collect(stuck) => Unwanted(order, s, stuck)
  }

  // --- a write that leaves every readable backup whole ---------------------------------------

  ghost predicate IsSafe(s: Store, w: Write) {
    match w
    case PutObject(_, _) => true
    case PutManifest(id, _) => forall i :: 0 <= i < |s.index| ==> s.index[i].id != id
    case PutIndex(index) =>
      forall i :: 0 <= i < |index| && index[i].id in s.snapshots ==> Complete(s, s.snapshots[index[i].id].files)
    case DropManifest(_) => true
    case Unlink(d) => d !in Wanted(s)
  }

  lemma UnlinkKeepsSound(s: Store, d: Digest)
    requires Sound(s) && d !in Wanted(s)
    ensures Sound(Apply(s, Unlink(d))) && Wanted(Apply(s, Unlink(d))) == Wanted(s)
  {
    var t := Apply(s, Unlink(d));
    forall i | 0 <= i < |t.index| && t.index[i].id in t.snapshots
      ensures Complete(t, t.snapshots[t.index[i].id].files)
    {
      var files := s.snapshots[s.index[i].id].files;
      assert Complete(s, files);
      forall k | 0 <= k < |files|
        ensures Has(t, files[k].sha)
      {
        assert files[k].sha in Wanted(s);
      }
    }
  }

  lemma SameObjects(s: Store, t: Store, files: seq<Entry>)
    requires Complete(s, files) && t.raw == s.raw && t.packed == s.packed
    ensures Complete(t, files)
  {}

  lemma SafeKeepsSound(s: Store, w: Write)
    requires Sound(s) && IsSafe(s, w)
    ensures Sound(Apply(s, w))
  {
    match w {
      case PutObject(bytes, compress) => StoredIsSound(s, bytes, compress);
      case Unlink(d) => UnlinkKeepsSound(s, d);
      case _ =>
        var t := Apply(s, w);
        forall i | 0 <= i < |t.index| && t.index[i].id in t.snapshots
          ensures Complete(t, t.snapshots[t.index[i].id].files)
        {
          SameObjects(s, t, t.snapshots[t.index[i].id].files);
        }
    }
  }

  // Each of the writes is safe where it comes.
  ghost predicate AllSafe(s: Store, ws: seq<Write>) {
    forall k :: 0 <= k < |ws| ==> IsSafe(ApplyAll(s, ws[..k]), ws[k])
  }

  lemma ApplyOneMore(s: Store, ws: seq<Write>, k: nat)
    requires k < |ws|
    ensures ApplyAll(s, ws[..k + 1]) == Apply(ApplyAll(s, ws[..k]), ws[k])
  {
    assert ws[..k + 1][..k] == ws[..k];
  }

  // However far it got.
  lemma {:induction false} SafeSoFar(s: Store, ws: seq<Write>, k: nat)
    requires Sound(s) && AllSafe(s, ws) && k <= |ws|
    ensures Sound(ApplyAll(s, ws[..k]))
  {
    if k > 0 {
      SafeSoFar(s, ws, k - 1);
      ApplyOneMore(s, ws, k - 1);
      SafeKeepsSound(ApplyAll(s, ws[..k - 1]), ws[k - 1]);
    }
  }

  lemma {:induction false} ApplyAppend(s: Store, a: seq<Write>, b: seq<Write>)
    ensures ApplyAll(s, a + b) == ApplyAll(ApplyAll(s, a), b)
  {
    if b == [] {
      assert a + b == a;
    } else {
      var c := b[..|b| - 1];
      ApplyAppend(s, a, c);
      assert (a + b)[..|a + b| - 1] == a + c;
    }
  }

  lemma SafeAppend(s: Store, a: seq<Write>, b: seq<Write>)
    requires AllSafe(s, a) && AllSafe(ApplyAll(s, a), b)
    ensures AllSafe(s, a + b)
  {
    forall k | 0 <= k < |a + b|
      ensures IsSafe(ApplyAll(s, (a + b)[..k]), (a + b)[k])
    {
      if k < |a| {
        assert (a + b)[..k] == a[..k];
      } else {
        assert (a + b)[..k] == a + b[..k - |a|];
        ApplyAppend(s, a, b[..k - |a|]);
      }
    }
  }

  lemma SafeOne(s: Store, w: Write)
    requires IsSafe(s, w)
    ensures AllSafe(s, [w]) && ApplyAll(s, [w]) == Apply(s, w)
  {
    assert [w][..0] == [];
  }

  // --- a take -----------------------------------------------------------------------------------

  lemma {:induction false} TakeWritesStore(s: Store, folder: Folder, walk: seq<Path>, exclude: seq<Path>,
                                           previous: map<Path, Entry>, compress: bool)
    requires forall p :: p in walk ==> p in folder
    ensures ApplyAll(s, TakeWrites(s, folder, walk, exclude, previous, compress))
         == TakeFiles(s, folder, walk, exclude, previous, compress).store
  {
    if walk != [] {
      var init, p := walk[..|walk| - 1], walk[|walk| - 1];
      var t := TakeFiles(s, folder, init, exclude, previous, compress);
      TakeWritesStore(s, folder, init, exclude, previous, compress);
      ApplyAppend(s, TakeWrites(s, folder, init, exclude, previous, compress),
                  FileWrites(t, p, folder[p], exclude, previous, compress));
      FileWritesStore(t, p, folder[p], exclude, previous, compress);
    }
  }

  lemma FileWritesStore(t: Taking, p: Path, f: File, exclude: seq<Path>, previous: map<Path, Entry>, compress: bool)
    ensures ApplyAll(t.store, FileWrites(t, p, f, exclude, previous, compress))
         == TakeFile(t, p, f, exclude, previous, compress).store
  {
    var ws := FileWrites(t, p, f, exclude, previous, compress);
    if ws != [] { assert ws[..0] == []; }
  }

  lemma {:induction false} TakeWritesAreObjects(s: Store, folder: Folder, walk: seq<Path>, exclude: seq<Path>,
                                                previous: map<Path, Entry>, compress: bool)
    requires forall p :: p in walk ==> p in folder
    ensures forall w :: w in TakeWrites(s, folder, walk, exclude, previous, compress) ==> w.PutObject?
  {
    if walk != [] { TakeWritesAreObjects(s, folder, walk[..|walk| - 1], exclude, previous, compress); }
  }

  lemma ObjectsAreSafe(s: Store, ws: seq<Write>)
    requires forall w :: w in ws ==> w.PutObject?
    ensures AllSafe(s, ws)
  {
    forall k | 0 <= k < |ws|
      ensures IsSafe(ApplyAll(s, ws[..k]), ws[k])
    {
      assert ws[k] in ws;
    }
  }

  // The manifest, then the index, over a store that has all the manifest's objects.
  lemma RecordingIsSafe(s: Store, id: string, m: Manifest)
    requires Sound(s) && Complete(s, m.files) && forall i :: 0 <= i < |s.index| ==> s.index[i].id != id
    ensures AllSafe(s, [PutManifest(id, m)] + [PutIndex([Summary(id, true)] + s.index)])
    ensures ApplyAll(s, [PutManifest(id, m)] + [PutIndex([Summary(id, true)] + s.index)])
         == s.(snapshots := s.snapshots[id := m], index := [Summary(id, true)] + s.index)
  {
    var t := Apply(s, PutManifest(id, m));
    var index := [Summary(id, true)] + s.index;
    SafeOne(s, PutManifest(id, m));
    forall i | 0 <= i < |index| && index[i].id in t.snapshots
      ensures Complete(t, t.snapshots[index[i].id].files)
    {
      if i == 0 {
        SameObjects(s, t, m.files);
      } else {
        assert index[i] == s.index[i - 1];
        SameObjects(s, t, s.snapshots[index[i].id].files);
      }
    }
    SafeOne(t, PutIndex(index));
    SafeAppend(s, [PutManifest(id, m)], [PutIndex(index)]);
    ApplyAppend(s, [PutManifest(id, m)], [PutIndex(index)]);
  }

  function TakenFiles(s: Store, op: Op): Taking
    requires op.Take? && forall p :: p in op.walk ==> p in op.folder
  { TakeFiles(s, op.folder, op.walk, CleanExclude(op.extra), Previous(s), op.compress) }

  function ObjectWrites(s: Store, op: Op): seq<Write>
    requires op.Take? && forall p :: p in op.walk ==> p in op.folder
  { TakeWrites(s, op.folder, op.walk, CleanExclude(op.extra), Previous(s), op.compress) }

  lemma ObjectWritesAreSafe(s: Store, op: Op)
    requires Sound(s) && op.Take? && forall p :: p in op.walk ==> p in op.folder
    ensures AllSafe(s, ObjectWrites(s, op)) && ApplyAll(s, ObjectWrites(s, op)) == TakenFiles(s, op).store
    ensures Sound(TakenFiles(s, op).store) && OnlyAdds(s, TakenFiles(s, op).store)
    ensures Complete(TakenFiles(s, op).store, TakenFiles(s, op).files)
  {
    TakeFilesIsSound(s, op.folder, op.walk, CleanExclude(op.extra), Previous(s), op.compress);
    TakeWritesStore(s, op.folder, op.walk, CleanExclude(op.extra), Previous(s), op.compress);
    TakeWritesAreObjects(s, op.folder, op.walk, CleanExclude(op.extra), Previous(s), op.compress);
    ObjectsAreSafe(s, ObjectWrites(s, op));
  }

  function RecordWrites(s: Store, op: Op): seq<Write>
    requires op.Take? && forall p :: p in op.walk ==> p in op.folder
  {
    var t := TakenFiles(s, op);
    [PutManifest(op.id, Manifest(CleanExclude(op.extra), t.files, Capped(t.skipped)))]
    + [PutIndex([Summary(op.id, true)] + s.index)]
  }

  lemma TakeIsBoth(s: Store, op: Op, order: seq<Digest>)
    requires Possible(s, op) && op.Take?
    ensures WritesOf(s, op, order) == ObjectWrites(s, op) + RecordWrites(s, op)
  {}

  lemma TakeIsSafe(s: Store, op: Op, order: seq<Digest>)
    requires Sound(s) && Possible(s, op) && op.Take?
    ensures AllSafe(s, WritesOf(s, op, order)) && ApplyAll(s, WritesOf(s, op, order)) == Next(s, op, true)
  {
    var t := TakenFiles(s, op);
    ObjectWritesAreSafe(s, op);
    RecordingIsSafe(t.store, op.id, Manifest(CleanExclude(op.extra), t.files, Capped(t.skipped)));
    TakeIsBoth(s, op, order);
    SafeAppend(s, ObjectWrites(s, op), RecordWrites(s, op));
    ApplyAppend(s, ObjectWrites(s, op), RecordWrites(s, op));
  }

  // --- a removal ----------------------------------------------------------------------------------

  lemma {:induction false} DropsStore(s: Store, ids: seq<string>)
    ensures AllSafe(s, Drops(ids)) && ApplyAll(s, Drops(ids)) == s.(snapshots := s.snapshots - (set id | id in ids))
  {
    if ids == [] {
      assert s.snapshots - (set id | id in ids) == s.snapshots;
    } else {
      var init, id := ids[..|ids| - 1], ids[|ids| - 1];
      DropsStore(s, init);
      assert Drops(ids) == Drops(init) + [DropManifest(id)];
      SafeOneMore(s, Drops(init), DropManifest(id));
      assert Drops(ids)[..|ids| - 1] == Drops(init);
      assert ids == init + [id];
      DropsOneMore(s.snapshots, init, id);
    }
  }

  lemma DropsOneMore(snapshots: map<string, Manifest>, init: seq<string>, id: string)
    ensures snapshots - (set x | x in init) - {id} == snapshots - (set x | x in init + [id])
  {}

  lemma {:induction false} UnlinksStore(s: Store, order: seq<Digest>)
    requires Sound(s) && forall d :: d in order ==> d !in Wanted(s)
    ensures AllSafe(s, Unlinks(order)) && Sound(ApplyAll(s, Unlinks(order)))
    ensures var gone := set d | d in order;
      ApplyAll(s, Unlinks(order)) == s.(raw := s.raw - gone, packed := s.packed - gone)
  {
    if order == [] {
      assert s.raw - (set d | d in order) == s.raw && s.packed - (set d | d in order) == s.packed;
    } else {
      var init, d := order[..|order| - 1], order[|order| - 1];
      assert order == init + [d];
      UnlinksStore(s, init);
      assert Unlinks(order)[..|order| - 1] == Unlinks(init);
      var t := ApplyAll(s, Unlinks(init));
      assert Wanted(t) == Wanted(s);
      UnlinkKeepsSound(t, d);
      UnlinksOneMore(s, init, d);
      SafeOneMore(s, Unlinks(init), Unlink(d));
      assert Unlinks(order) == Unlinks(init) + [Unlink(d)];
    }
  }

  lemma UnlinksOneMore(s: Store, init: seq<Digest>, d: Digest)
    ensures s.raw - (set x | x in init) - {d} == s.raw - (set x | x in init + [d])
    ensures s.packed - (set x | x in init) - {d} == s.packed - (set x | x in init + [d])
  {}

  lemma SafeOneMore(s: Store, ws: seq<Write>, w: Write)
    requires AllSafe(s, ws) && IsSafe(ApplyAll(s, ws), w)
    ensures AllSafe(s, ws + [w])
  {
    SafeOne(ApplyAll(s, ws), w);
    SafeAppend(s, ws, [w]);
  }

  lemma CollectionIs(s: Store, order: seq<Digest>, stuck: set<Digest>)
    requires Sound(s) && Unwanted(order, s, stuck)
    ensures ApplyAll(s, Unlinks(order)) == Collected(s, stuck)
  {
    UnlinksStore(s, order);
    UnlinkedIs(s.raw, order, Wanted(s) + stuck);
    UnlinkedIs(s.packed, order, Wanted(s) + stuck);
  }

  lemma UnlinkedIs(objects: map<Digest, Bytes>, order: seq<Digest>, keep: set<Digest>)
    requires forall d :: d in objects ==> (d in order <==> d !in keep)
    ensures objects - (set d | d in order) == map d | d in objects && d in keep :: objects[d]
  {}

  lemma RemovalIsSafe(s: Store, gone: seq<string>, order: seq<Digest>, stuck: set<Digest>)
    requires Sound(s) && Unwanted(order, Dropped(s, gone), stuck)
    ensures AllSafe(s, RemovalWrites(s, gone, order))
    ensures ApplyAll(s, RemovalWrites(s, gone, order)) == Collected(Dropped(s, gone), stuck)
  {
    var a, w := Drops(gone), PutIndex(Without(s.index, gone));
    var t := ApplyAll(s, a);
    DropsStore(s, gone);
    DroppedIsSound(s, gone);
    assert Apply(t, w) == Dropped(s, gone);
    assert IsSafe(t, w) by { IndexIsSafe(t, Dropped(s, gone)); }
    SafeOneMore(s, a, w);
    ApplyAppend(s, a, [w]);
    SafeOne(t, w);
    UnlinksStore(Dropped(s, gone), order);
    CollectionIs(Dropped(s, gone), order, stuck);
    SafeAppend(s, a + [w], Unlinks(order));
    ApplyAppend(s, a + [w], Unlinks(order));
  }

  lemma IndexIsSafe(s: Store, t: Store)
    requires Sound(t) && t == s.(index := t.index)
    ensures IsSafe(s, PutIndex(t.index))
  {
    forall i | 0 <= i < |t.index| && t.index[i].id in s.snapshots
      ensures Complete(s, s.snapshots[t.index[i].id].files)
    {
      SameObjects(t, s, t.snapshots[t.index[i].id].files);
    }
  }

  // --- any operation, and any run of them ------------------------------------------------------------

  // Whole, an operation's writes do what the operation does; and each of them leaves
  // every readable backup whole.
  lemma EveryWriteIsSafe(s: Store, op: Op, order: seq<Digest>)
    requires Sound(s) && Possible(s, op) && InSomeOrder(s, op, order)
    ensures AllSafe(s, WritesOf(s, op, order)) && ApplyAll(s, WritesOf(s, op, order)) == Next(s, op, true)
  {
    match op {
      case Take(folder, walk, id, extra, compress) => TakeIsSafe(s, op, order);
      case Delete(gone, stuck) =>
        if gone in s.snapshots {
          RemovalIsSafe(s, [gone], order, stuck);
          DeleteIsDropAndCollect(s, gone, stuck);
        }
      case KeepOnly(keep, stuck) =>
        if Surplus(s.index, keep) != [] { RemovalIsSafe(s, Surplus(s.index, keep), order, stuck); }
      case Collect(stuck) =>
        UnlinksStore(s, order);
        CollectionIs(s, order, stuck);
    }
  }

  // An operation, and how many of its writes were made before the node was killed.
  datatype Job = Job(op: Op, order: seq<Digest>, made: nat)

  ghost predicate CanRun(s: Store, job: Job) { Possible(s, job.op) && InSomeOrder(s, job.op, job.order) }

  ghost function Ran(s: Store, job: Job): Store
    requires CanRun(s, job)
  {
    ApplyAll(s, Cut(WritesOf(s, job.op, job.order), job.made))
  }

  function Cut(ws: seq<Write>, made: nat): seq<Write> { if made <= |ws| then ws[..made] else ws }

  ghost predicate AllCanRun(jobs: seq<Job>)
    decreases |jobs|, 0
  {
    jobs == [] || (AllCanRun(jobs[..|jobs| - 1]) && CanRun(AfterKills(jobs[..|jobs| - 1]), jobs[|jobs| - 1]))
  }

  ghost function AfterKills(jobs: seq<Job>): Store
    requires AllCanRun(jobs)
    decreases |jobs|, 1
  {
    if jobs == [] then NoBackups else Ran(AfterKills(jobs[..|jobs| - 1]), jobs[|jobs| - 1])
  }

  lemma RanIsSound(s: Store, job: Job)
    requires Sound(s) && CanRun(s, job)
    ensures Sound(Ran(s, job))
  {
    var ws := WritesOf(s, job.op, job.order);
    EveryWriteIsSafe(s, job.op, job.order);
    SafeSoFar(s, ws, if job.made <= |ws| then job.made else |ws|);
    assert Cut(ws, job.made) == ws[..if job.made <= |ws| then job.made else |ws|];
  }

  // After any run of takes, deletes, prunings and collections, each killed after any of
  // its writes or not at all: every manifest that is indexed and can be read has all
  // its objects, and each object is what its name says.
  lemma {:induction false} EveryKilledRunIsSound(jobs: seq<Job>)
    requires AllCanRun(jobs)
    ensures Sound(AfterKills(jobs))
  {
    if jobs != [] {
      EveryKilledRunIsSound(jobs[..|jobs| - 1]);
      RanIsSound(AfterKills(jobs[..|jobs| - 1]), jobs[|jobs| - 1]);
    }
  }

  // And nothing of the kills is left in the objects once a collection has run to its
  // end: they are those the readable backups need.
  lemma CollectionCleansUp(jobs: seq<Job>, order: seq<Digest>, d: Digest)
    requires AllCanRun(jobs) && Unwanted(order, AfterKills(jobs), {})
    ensures var s := ApplyAll(AfterKills(jobs), WritesOf(AfterKills(jobs), Collect({}), order));
      Has(s, d) <==> d in Wanted(s)
  {
    var s := AfterKills(jobs);
    EveryKilledRunIsSound(jobs);
    EveryWriteIsSafe(s, Collect({}), order);
    CollectedExactly(s, {});
    assert Wanted(Collected(s, {})) == Wanted(s);
  }

  // --- what a kill leaves in the index and the manifests ---------------------------------------------

  // A manifest that is not indexed, or an index entry with no manifest.
  ghost predicate Mismatch(s: Store, id: string) { Indexed(s, id) != (id in s.snapshots) }

  ghost predicate IsIn(index: seq<Summary>, id: string) { exists i :: 0 <= i < |index| && index[i].id == id }

  ghost predicate LeavesId(w: Write, index: seq<Summary>, id: string) {
    match w
    case PutManifest(x, _) => x != id
    case DropManifest(x) => x != id
    case PutIndex(entries) => IsIn(entries, id) <==> IsIn(index, id)
    case _ => true
  }

  lemma {:induction false} UntouchedStays(s: Store, ws: seq<Write>, id: string)
    requires forall w :: w in ws ==> LeavesId(w, s.index, id)
    ensures id in ApplyAll(s, ws).snapshots <==> id in s.snapshots
    ensures IsIn(ApplyAll(s, ws).index, id) <==> IsIn(s.index, id)
  {
    if ws != [] {
      var init, w := ws[..|ws| - 1], ws[|ws| - 1];
      UntouchedStays(s, init, id);
      assert w in ws;
      OneWriteStays(ApplyAll(s, init), w, s.index, id);
    }
  }

  lemma OneWriteStays(s: Store, w: Write, index: seq<Summary>, id: string)
    requires LeavesId(w, index, id) && (IsIn(s.index, id) <==> IsIn(index, id))
    ensures id in Apply(s, w).snapshots <==> id in s.snapshots
    ensures IsIn(Apply(s, w).index, id) <==> IsIn(index, id)
  {}

  // The backup an operation makes, or the backups it removes.
  ghost predicate Touches(s: Store, op: Op, id: string) {
    match op
    case Take(_, _, x, _, _) => x == id
    case Delete(gone, _) => gone == id && id in s.snapshots
    case KeepOnly(keep, _) => id in Surplus(s.index, keep)
    case Collect(_) => false
  }

  lemma RemovalLeaves(s: Store, gone: seq<string>, order: seq<Digest>, id: string)
    requires id !in gone
    ensures forall w :: w in RemovalWrites(s, gone, order) ==> LeavesId(w, s.index, id)
  {
    DroppedIndex(s, gone);
    assert Indexed(Dropped(s, gone), id) <==> Indexed(s, id);
    var w := PutIndex(Without(s.index, gone));
    assert LeavesId(w, s.index, id);
    forall x | x in RemovalWrites(s, gone, order)
      ensures LeavesId(x, s.index, id)
    {
      assert x in Drops(gone) || x == w || x in Unlinks(order);
    }
  }

  lemma TakeLeaves(s: Store, op: Op, order: seq<Digest>, id: string)
    requires op.Take? && Possible(s, op) && op.id != id
    ensures forall w :: w in WritesOf(s, op, order) ==> LeavesId(w, s.index, id)
  {
    TakeWritesAreObjects(s, op.folder, op.walk, CleanExclude(op.extra), Previous(s), op.compress);
    var index := [Summary(op.id, true)] + s.index;
    OneMoreIndexed(s, s.(index := index), op.id);
    assert Indexed(s.(index := index), id) <==> Indexed(s, id);
    assert LeavesId(PutIndex(index), s.index, id);
  }

  lemma UntouchedIsLeft(s: Store, op: Op, order: seq<Digest>, id: string)
    requires Possible(s, op) && !Touches(s, op, id)
    ensures forall w :: w in WritesOf(s, op, order) ==> LeavesId(w, s.index, id)
  {
    match op {
      case Take(_, _, _, _, _) => TakeLeaves(s, op, order, id);
      case Delete(gone, _) => if gone in s.snapshots { RemovalLeaves(s, [gone], order, id); }
      case KeepOnly(keep, _) => RemovalLeaves(s, Surplus(s.index, keep), order, id);
      case Collect(_) =>
    }
  }

  lemma RunLeavesUntouched(s: Store, job: Job, id: string)
    requires CanRun(s, job) && !Touches(s, job.op, id)
    ensures Mismatch(Ran(s, job), id) <==> Mismatch(s, id)
  {
    UntouchedIsLeft(s, job.op, job.order, id);
    UntouchedStays(s, Cut(WritesOf(s, job.op, job.order), job.made), id);
  }

  // An operation that is not killed leaves no mismatch of its own.
  lemma WholeMatches(s: Store, op: Op, id: string)
    requires Possible(s, op) && Touches(s, op, id)
    ensures !Mismatch(Next(s, op, true), id)
  {
    match op {
      case Take(folder, walk, x, extra, compress) =>
        SnapshotsUntouched(s, folder, walk, CleanExclude(extra), Previous(s), compress);
        assert Next(s, op, true).index[0].id == id;
      case Delete(gone, stuck) =>
        DeleteIsDropAndCollect(s, gone, stuck);
        DroppedIndex(s, [gone]);
      case KeepOnly(keep, stuck) => DroppedIndex(s, Surplus(s.index, keep));
      case Collect(_) =>
    }
  }

  // The job was killed before its last write, with this backup in its hands.
  ghost predicate KilledOver(jobs: seq<Job>, j: nat, id: string)
    requires j < |jobs| && AllCanRun(jobs[..j]) && CanRun(AfterKills(jobs[..j]), jobs[j])
  {
    var s := AfterKills(jobs[..j]);
    Touches(s, jobs[j].op, id) && jobs[j].made < |WritesOf(s, jobs[j].op, jobs[j].order)|
  }

  lemma MismatchBegins(s: Store, job: Job, id: string)
    requires Sound(s) && CanRun(s, job) && Mismatch(Ran(s, job), id) && !Mismatch(s, id)
    ensures Touches(s, job.op, id) && job.made < |WritesOf(s, job.op, job.order)|
  {
    if !Touches(s, job.op, id) {
      RunLeavesUntouched(s, job, id);
    } else if job.made >= |WritesOf(s, job.op, job.order)| {
      RunsWhole(s, job);
      WholeMatches(s, job.op, id);
    }
  }

  lemma RunsWhole(s: Store, job: Job)
    requires Sound(s) && CanRun(s, job) && job.made >= |WritesOf(s, job.op, job.order)|
    ensures Ran(s, job) == Next(s, job.op, true)
  {
    AllWritesMake(s, job.op, job.order);
    CutNowhere(WritesOf(s, job.op, job.order), job.made);
  }

  lemma CutNowhere(ws: seq<Write>, made: nat)
    requires made >= |ws|
    ensures Cut(ws, made) == ws
  {}

  lemma AllWritesMake(s: Store, op: Op, order: seq<Digest>)
    requires Sound(s) && Possible(s, op) && InSomeOrder(s, op, order)
    ensures ApplyAll(s, WritesOf(s, op, order)) == Next(s, op, true)
  {
    EveryWriteIsSafe(s, op, order);
  }

  // So a manifest that is not indexed, and an index entry with no manifest, are what some
  // take or removal left of that backup when it was killed.
  lemma {:induction false} EveryMismatchIsFromAKill(jobs: seq<Job>, id: string) returns (j: nat)
    requires AllCanRun(jobs) && Mismatch(AfterKills(jobs), id)
    ensures j < |jobs| && AllCanRun(jobs[..j]) && CanRun(AfterKills(jobs[..j]), jobs[j]) && KilledOver(jobs, j, id)
  {
    var init, job := jobs[..|jobs| - 1], jobs[|jobs| - 1];
    if Mismatch(AfterKills(init), id) {
      j := EveryMismatchIsFromAKill(init, id);
      assert init[..j] == jobs[..j] && init[j] == jobs[j];
    } else {
      EveryKilledRunIsSound(init);
      MismatchBegins(AfterKills(init), job, id);
      j := |init|;
    }
  }
}
