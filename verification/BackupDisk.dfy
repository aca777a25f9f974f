// The store as the node changes it: files written, moved into place and
// deleted one by one. Each operation leaves the state its specification says.

module BackupDisk {
  import opened Prelude
  import opened BackupStore
  import opened BackupRuns

  const CHUNK := 1048576

  class Disk {
    var raw: map<Digest, Bytes>
    var packed: map<Digest, Bytes>
    var snapshots: map<string, Manifest>
    var index: seq<Summary>

    ghost function Value(): Store
      reads this
    {
      Store(raw, packed, snapshots, index)
    }

    constructor ()
      ensures Value() == NoBackups
    {
      raw, packed, snapshots, index := map[], map[], map[], [];
    }

    // Hashed while it is copied, a chunk at a time; moved into place only if
    // the store has not got it.
    method StoreFile(content: Bytes, compress: bool) returns (sha: Digest, written: nat)
      modifies `raw, `packed
      ensures Value() == Stored(old(Value()), content, compress)
      ensures sha == Hash(content)
      ensures written > 0 ==> !Has(old(Value()), sha)
    {
      var copied: Bytes := [];
      while |copied| < |content|
        invariant |copied| <= |content| && copied == content[..|copied|]
      {
        var n := if |content| - |copied| < CHUNK then |content| - |copied| else CHUNK;
        copied := copied + content[|copied|..|copied| + n];
      }
      sha := Hash(copied);
      assert copied == content;
      if sha in raw || sha in packed { return sha, 0; }
      if compress {
        packed := packed[sha := copied];
      } else {
        raw := raw[sha := copied];
      }
      written := |copied|;
    }

    method Take(folder: Folder, walk: seq<Path>, id: string, extra: seq<Path>, compress: bool)
      returns (files: seq<Entry>, reused: nat)
      requires forall p :: p in walk ==> p in folder
      modifies this
      ensures Value() == Taken(old(Value()), folder, walk, id, extra, compress)
      ensures files == Value().snapshots[id].files
    {
      var exclude := CleanExclude(extra);
      var previous: map<Path, Entry> := map[];
      var done := Done(index);
      if done != [] && done[0] in snapshots {
        previous := ByPath(snapshots[done[0]].files);
      }
      files, reused := [], 0;
      var skipped: seq<Path> := [];
      ghost var was := Value();
      var n := 0;
      while n < |walk|
        invariant 0 <= n <= |walk|
        invariant Taking(Value(), files, skipped) == TakeFiles(was, folder, walk[..n], exclude, previous, compress)
        modifies `raw, `packed
      {
        var p := walk[n];
        assert walk[..n + 1][..n] == walk[..n] && p in walk;
        var f := folder[p];
        n := n + 1;
        if Excluded(p, exclude) { continue; }
        var sha: Digest;
        if p in previous && previous[p].size == |f.bytes| && previous[p].mtime == f.mtime
          && (previous[p].sha in raw || previous[p].sha in packed) {
          sha := previous[p].sha;
          reused := reused + 1;
        } else if f.refused {
          skipped := skipped + [p];
          continue;
        } else {
          var written;
          sha, written := StoreFile(f.bytes, compress);
        }
        files := files + [Entry(p, sha, |f.bytes|, f.mtime)];
      }
      assert walk[..n] == walk;
      snapshots := snapshots[id := Manifest(exclude, files, if |skipped| <= 200 then skipped else skipped[..200])];
      index := [Summary(id, true)] + index;
    }

    // Every object no indexed manifest refers to, deleted; one whose file will
    // not go is left.
    method Collect(stuck: set<Digest>)
      modifies `raw, `packed
      ensures Value() == Collected(old(Value()), stuck)
    {
      ghost var was := Value();
      var wanted: set<Digest> := {};
      var i := 0;
      while i < |index|
        invariant 0 <= i <= |index|
        invariant wanted == WantedBy(was, i)
      {
        if index[i].id in snapshots {
          var files := snapshots[index[i].id].files;
          wanted := wanted + set k | 0 <= k < |files| :: files[k].sha;
        }
        i := i + 1;
      }
      assert wanted == Wanted(was);
      UnlinkRaw(wanted, stuck);
      UnlinkPacked(wanted, stuck);
    }

    // One file after another; a name that is wanted, or will not go, stays.
    method UnlinkRaw(wanted: set<Digest>, stuck: set<Digest>)
      modifies `raw
      ensures raw == map d | d in old(raw) && d in wanted + stuck :: old(raw)[d]
    {
      var left := raw.Keys;
      while left != {}
        invariant left <= raw.Keys <= old(raw).Keys
        invariant forall d :: d in raw ==> raw[d] == old(raw)[d] && (d in left || d in wanted + stuck)
        invariant forall d :: d in old(raw) && d in wanted + stuck ==> d in raw
        decreases left
        modifies `raw
      {
        var d :| d in left;
        left := left - {d};
        if d !in wanted && d !in stuck { raw := raw - {d}; }
      }
    }

    method UnlinkPacked(wanted: set<Digest>, stuck: set<Digest>)
      modifies `packed
      ensures packed == map d | d in old(packed) && d in wanted + stuck :: old(packed)[d]
    {
      var left := packed.Keys;
      while left != {}
        invariant left <= packed.Keys <= old(packed).Keys
        invariant forall d :: d in packed ==> packed[d] == old(packed)[d] && (d in left || d in wanted + stuck)
        invariant forall d :: d in old(packed) && d in wanted + stuck ==> d in packed
        decreases left
        modifies `packed
      {
        var d :| d in left;
        left := left - {d};
        if d !in wanted && d !in stuck { packed := packed - {d}; }
      }
    }

    ghost function WantedBy(s: Store, n: nat): set<Digest>
      requires n <= |s.index|
    {
      set i, k | 0 <= i < n && s.index[i].id in s.snapshots && 0 <= k < |s.snapshots[s.index[i].id].files|
        :: s.snapshots[s.index[i].id].files[k].sha
    }

    method Delete(id: string, stuck: set<Digest>) returns (found: bool)
      modifies this
      ensures found == (id in old(snapshots))
      ensures Value() == Deleted(old(Value()), id, stuck)
    {
      if id !in snapshots { return false; }
      snapshots := snapshots - {id};
      index := Without(index, [id]);
      Collect(stuck);
      found := true;
    }

    method KeepOnly(keep: int, stuck: set<Digest>) returns (gone: seq<string>)
      modifies this
      ensures gone == Surplus(old(index), keep)
      ensures Value() == KeptOnly(old(Value()), keep, stuck)
    {
      var done := Done(index);
      gone := if keep > 0 && keep < |done| then done[keep..] else [];
      var n := 0;
      while n < |gone|
        invariant 0 <= n <= |gone|
        invariant snapshots == old(snapshots) - (set id | id in gone[..n])
        modifies `snapshots
      {
        assert gone[..n + 1] == gone[..n] + [gone[n]];
        snapshots := snapshots - {gone[n]};
        n := n + 1;
      }
      assert gone[..n] == gone;
      if gone != [] {
        index := Without(index, gone);
        Collect(stuck);
      }
    }
  }

  // A server folder being restored into.
  class ServerFolder {
    var contents: Contents

    constructor (now: Contents)
      ensures contents == now
    {
      contents := now;
    }

    method AllStored(disk: Disk, files: seq<Entry>) returns (ok: bool)
      ensures ok <==> Complete(disk.Value(), files)
    {
      var n := 0;
      while n < |files|
        invariant 0 <= n <= |files|
        invariant forall k :: 0 <= k < n ==> Has(disk.Value(), files[k].sha)
      {
        if files[n].sha !in disk.raw && files[n].sha !in disk.packed { return false; }
        n := n + 1;
      }
      ok := true;
    }

    method WriteBack(disk: Disk, files: seq<Entry>) returns (ok: bool)
      requires Complete(disk.Value(), files)
      modifies this
      ensures ok <==> WrittenBack(disk.Value(), files, old(contents)).Ok?
      ensures ok ==> WrittenBack(disk.Value(), files, old(contents)) == Ok(contents)
    {
      ghost var s := disk.Value();
      var n := 0;
      while n < |files|
        invariant 0 <= n <= |files|
        invariant s == disk.Value()
        invariant WrittenBack(s, files[..n], old(contents)) == Ok(contents)
        modifies this
      {
        var e := files[n];
        assert files[..n + 1][..n] == files[..n];
        var blocked := exists q | q in contents :: q < e.path || e.path < q;
        assert blocked == Blocked(e.path, contents);
        if blocked {
          BlockedStays(s, files, n + 1, old(contents));
          return false;
        }
        contents := contents[e.path := if e.sha in disk.raw then disk.raw[e.sha] else disk.packed[e.sha]];
        n := n + 1;
      }
      assert files[..n] == files;
      ok := true;
    }

    // Checked whole first; then everything not spared goes, and every file is
    // written back.
    method Restore(disk: Disk, id: string) returns (r: Result<nat, Refusal>)
      modifies this
      ensures var spec := Restored(disk.Value(), id, old(contents));
        && (r.Ok? <==> spec.Ok?)
        && (spec.Ok? ==> contents == spec.value)
        && (spec.Err? ==> r == Err(spec.error))
      ensures r == Err(NoSuchBackup) || r == Err(Incomplete) ==> contents == old(contents)
    {
      if id !in disk.snapshots { return Err(NoSuchBackup); }
      var m := disk.snapshots[id];
      var complete := AllStored(disk, m.files);
      if !complete { return Err(Incomplete); }
      var exclude := if m.exclude == [] then DEFAULT_EXCLUDE else m.exclude;
      contents := map p | p in contents && Spared(p, exclude) :: contents[p];
      var ok := WriteBack(disk, m.files);
      if !ok {
        OnlyBlocked(disk.Value(), m.files, Swept(old(contents), exclude));
        return Err(InTheWay);
      }
      return Ok(|m.files|);
    }
  }

  lemma {:induction false} OnlyBlocked(s: Store, files: seq<Entry>, now: Contents)
    requires Complete(s, files)
    ensures WrittenBack(s, files, now).Err? ==> WrittenBack(s, files, now) == Err(InTheWay)
  {
    if files != [] { OnlyBlocked(s, files[..|files| - 1], now); }
  }

  // One file that cannot be written stops the restore there.
  lemma {:induction false} BlockedStays(s: Store, files: seq<Entry>, n: nat, now: Contents)
    requires (forall k :: 0 <= k < |files| ==> Has(s, files[k].sha)) && n <= |files|
    requires WrittenBack(s, files[..n], now).Err?
    ensures WrittenBack(s, files, now) == WrittenBack(s, files[..n], now)
  {
    if n == |files| {
      assert files[..n] == files;
    } else {
      var init := files[..|files| - 1];
      assert init[..n] == files[..n];
      BlockedStays(s, init, n, now);
    }
  }
}
