// What the backups do not promise, exactly when, and a run that shows it: what a
// restore removes though it is in no backup, and a file recorded unread.

module BackupLimits {
  import opened Prelude
  import opened BackupStore
  import opened BackupRuns
  import opened BackupPromises

  // --- what a restore removes --------------------------------------------------------------

  // Of what is in the folder and was left out of the backup, by an exclude or for
  // being unreadable, a restore keeps exactly what is under an excluded top-level name.
  lemma LeftOutSurvivesAtTheTop(ops: seq<Op>, id: string, now: Contents, p: Path)
    requires Legal(ops, true) && Honest(ops) && Indexed(After(ops, true), id) && p in now
    requires id in After(ops, true).snapshots && !Names(After(ops, true).snapshots[id].files, p)
    ensures Restored(After(ops, true), id, now).Ok?
    ensures p in Restored(After(ops, true), id, now).value <==> Spared(p, After(ops, true).snapshots[id].exclude)
  {
    var s := After(ops, true);
    RestoreGivesBackTheFolder(ops, id, now);
    EveryRunIsSound(ops, true);
    EveryRunIsFaithful(ops, true);
    EveryRunIsIndexed(ops, true);
    RestoredIsOverlaid(s, id, Origin(ops, id).value, now);
  }

  lemma RestoredIsOverlaid(s: Store, id: string, op: Op, now: Contents)
    requires Sound(s) && Indexed(s, id) && id in s.snapshots
    requires op.Take? && IsTree(op.folder) && Faithful(s.snapshots[id], op)
    ensures Complete(s, s.snapshots[id].files) && Restored(s, id, now).Ok?
    ensures Overlaid(s, s.snapshots[id].files, Swept(now, s.snapshots[id].exclude), Restored(s, id, now).value)
  {
    var m := s.snapshots[id];
    var i :| 0 <= i < |s.index| && s.index[i].id == id;
    assert Complete(s, m.files);
    SweptIsOutOfTheWay(op, m, now);
    WritesBackEverything(s, m.files, Swept(now, m.exclude));
  }

  lemma ShortNamesStay(name: string)
    requires |name| <= 3
    ensures !Excluded([name], DEFAULT_EXCLUDE)
  {
    forall i | 0 <= i < |DEFAULT_EXCLUDE|
      ensures !(DEFAULT_EXCLUDE[i] <= [name])
    {
      assert |DEFAULT_EXCLUDE[i]| == 1 && |DEFAULT_EXCLUDE[i][0]| > 3;
    }
  }

  // A backup of an empty folder, with one nested exclude.
  const Nested: Path := ["dim", "cache"]

  function NestedExcludes(): seq<Path> { DEFAULT_EXCLUDE + [Nested] }

  function EmptyTake(): Op { Take(map[], [], "one", [Nested], false) }

  function EmptyTaken(): Store {
    Store(map[], map[], map["one" := Manifest(NestedExcludes(), [], [])], [Summary("one", true)])
  }

  lemma NestedIsAdded()
    ensures CleanExclude([Nested]) == NestedExcludes()
  {
    assert [Nested][..0] == [];
    assert CleanExclude([]) == DEFAULT_EXCLUDE;
    forall i | 0 <= i < |DEFAULT_EXCLUDE|
      ensures DEFAULT_EXCLUDE[i] != Nested
    {
      assert |DEFAULT_EXCLUDE[i]| == 1;
    }
  }

  lemma EmptyTakeIsLegal()
    ensures Legal([EmptyTake()], true) && After([EmptyTake()], true) == EmptyTaken()
  {
    var op := EmptyTake();
    NestedIsAdded();
    assert [op][..0] == [];
    assert Legal([], true);
    assert Possible(NoBackups, op);
  }

  lemma TopNameIsNotExcluded()
    ensures !Excluded(["dim"], NestedExcludes()) && Excluded(["dim", "cache", "map"], NestedExcludes())
  {
    ShortNamesStay("dim");
    var exclude := NestedExcludes();
    forall i | 0 <= i < |exclude|
      ensures !(exclude[i] <= ["dim"])
    {
      if i < |DEFAULT_EXCLUDE| { assert exclude[i] == DEFAULT_EXCLUDE[i]; }
    }
    assert exclude[|DEFAULT_EXCLUDE|] <= ["dim", "cache", "map"];
  }

  lemma RestoreOfEmpty(now: Contents)
    ensures Restored(EmptyTaken(), "one", now) == Ok(Swept(now, NestedExcludes()))
  {}

  // The file under the nested exclude is in no backup, and is gone after a restore.
  lemma ANestedExcludeIsLost()
    ensures var p := ["dim", "cache", "map"];
      && Legal([EmptyTake()], true)
      && Excluded(p, CleanExclude([Nested]))
      && Restored(After([EmptyTake()], true), "one", map[p := []]) == Ok(map[])
  {
    var p := ["dim", "cache", "map"];
    EmptyTakeIsLegal();
    NestedIsAdded();
    TopNameIsNotExcluded();
    RestoreOfEmpty(map[p := []]);
    assert p[..1] == ["dim"];
    assert p[0] != NATIVE_TMP by { assert |NATIVE_TMP| > 3; }
    assert !Spared(p, NestedExcludes());
  }

  // --- a file recorded unread ---------------------------------------------------------------

  function Readable(refused: bool): Folder { map[["a"] := File([], 0, refused)] }

  function TakeOf(refused: bool, id: string): Op { Take(Readable(refused), [["a"]], id, [], false) }

  function OneTaken(): Store {
    Store(map[Hash([]) := []], map[],
          map["one" := Manifest(DEFAULT_EXCLUDE, [Entry(["a"], Hash([]), 0, 0)], [])], [Summary("one", true)])
  }

  lemma TakesOne()
    ensures (forall p :: p in [["a"]] ==> p in Readable(false))
    ensures Taken(NoBackups, Readable(false), [["a"]], "one", [], false) == OneTaken()
  {
    ShortNamesStay("a");
    assert [["a"]][..0] == [];
    assert TakeFiles(NoBackups, Readable(false), [], DEFAULT_EXCLUDE, map[], false) == Taking(NoBackups, [], []);
    assert [] + [Entry(["a"], Hash([]), 0, 0)] == [Entry(["a"], Hash([]), 0, 0)];
  }

  lemma FirstTakeIsLegal()
    ensures Legal([TakeOf(false, "one")], true) && After([TakeOf(false, "one")], true) == OneTaken()
  {
    var op := TakeOf(false, "one");
    TakesOne();
    assert [op][..0] == [];
    assert Legal([], true);
    assert Possible(NoBackups, op);
  }

  lemma PreviousOfOne()
    ensures Previous(OneTaken()) == map[["a"] := Entry(["a"], Hash([]), 0, 0)]
  {
    var files := [Entry(["a"], Hash([]), 0, 0)];
    assert files[..0] == [];
    assert Done(OneTaken().index) == ["one"];
  }

  lemma ItIsHidden()
    ensures HiddenAt(TakeOf(true, "two"), Previous(OneTaken()), ["a"])
  {
    PreviousOfOne();
    ShortNamesStay("a");
    assert CleanExclude([]) == DEFAULT_EXCLUDE;
  }

  lemma SecondIsPossible()
    ensures Possible(OneTaken(), TakeOf(true, "two"))
  {
    assert "one" != "two" by { assert "one"[0] != "two"[0]; }
  }

  // The file can no longer be read: the take that carries over records it all the
  // same, the one that reads leaves it out.
  lemma AHiddenFileIsRecorded()
    ensures var first, second := TakeOf(false, "one"), TakeOf(true, "two");
      && Legal([first], true) && Possible(After([first], true), second) && second.folder[["a"]].refused
      && var carried, read := Next(After([first], true), second, true), Next(After([first], true), second, false);
      && "two" in carried.snapshots && Names(carried.snapshots["two"].files, ["a"])
      && "two" in read.snapshots && !Names(read.snapshots["two"].files, ["a"])
  {
    FirstTakeIsLegal();
    EveryRunIsSound([TakeOf(false, "one")], true);
    SecondIsPossible();
    ItIsHidden();
    HiddenIsCarried(OneTaken(), TakeOf(true, "two"), ["a"]);
  }
}
