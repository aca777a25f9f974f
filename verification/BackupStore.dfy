// One server's backups (agent/worldbackup.py): files by the hash of their
// bytes, a manifest per snapshot, and an index of them, newest first.
//
// SHA-256 is taken to be injective, so a digest is represented by the bytes it
// is of. A packed object (`.z`) is represented by what its stream inflates to.
// Paths are lists of names; the server folder is a map from path to file.

module BackupStore {
  import opened Prelude

  newtype Byte = x: int | 0 <= x < 256
  type Bytes = seq<Byte>
  type Path = seq<string>

  datatype Digest = Digest(of: Bytes)

  function Hash(b: Bytes): Digest { Digest(b) }

  // `refused`: the jail will not open it (another hard link, or an error).
  datatype File = File(bytes: Bytes, mtime: int, refused: bool)

  type Folder = map<Path, File>

  datatype Entry = Entry(path: Path, sha: Digest, size: nat, mtime: int)

  datatype Manifest = Manifest(exclude: seq<Path>, files: seq<Entry>, skipped: seq<Path>)

  datatype Summary = Summary(id: string, done: bool)

  datatype Store = Store(
    raw: map<Digest, Bytes>, packed: map<Digest, Bytes>,
    snapshots: map<string, Manifest>, index: seq<Summary>)

  const NoBackups := Store(map[], map[], map[], [])

  datatype Refusal = NoSuchBackup | Incomplete | InTheWay

  const NATIVE_TMP := ".blessforge-tmp"
  const DEFAULT_EXCLUDE: seq<Path> :=
    [["logs"], ["crash-reports"], [NATIVE_TMP], ["cache"], [".cache"], ["debug"],
     ["backups"], ["simplebackups"], [".connector"]]

  // --- what is left out of a backup ---------------------------------------------

  predicate Excluded(p: Path, exclude: seq<Path>) {
    exists i :: 0 <= i < |exclude| && exclude[i] <= p
  }

  function CleanExclude(extra: seq<Path>): (r: seq<Path>)
    ensures DEFAULT_EXCLUDE <= r
    ensures forall e :: e in r <==> e in DEFAULT_EXCLUDE || (e in extra && e != [])
  {
    if extra == [] then DEFAULT_EXCLUDE
    else
      var r := CleanExclude(extra[..|extra| - 1]);
      var e := extra[|extra| - 1];
      assert extra == extra[..|extra| - 1] + [e];
      if e != [] && e !in r then r + [e] else r
  }

  // --- objects --------------------------------------------------------------------

  predicate Has(s: Store, d: Digest) {
    d in s.raw || d in s.packed
  }

  function Object(s: Store, d: Digest): Bytes
    requires Has(s, d)
  {
    if d in s.raw then s.raw[d] else s.packed[d]
  }

  function Stored(s: Store, b: Bytes, compress: bool): Store {
    if Has(s, Hash(b)) then s
    else if compress then s.(packed := s.packed[Hash(b) := b])
    else s.(raw := s.raw[Hash(b) := b])
  }

  // --- taking one ------------------------------------------------------------------

  function Done(index: seq<Summary>): seq<string> {
    if index == [] then []
    else (if index[0].done then [index[0].id] else []) + Done(index[1..])
  }

  function ByPath(files: seq<Entry>): (m: map<Path, Entry>)
    ensures forall p :: p in m ==> m[p] in files && m[p].path == p
  {
    if files == [] then map[]
    else
      var e := files[|files| - 1];
      ByPath(files[..|files| - 1])[e.path := e]
  }

  // What the newest finished snapshot says of each path; nothing if its
  // manifest is gone.
  function Previous(s: Store): map<Path, Entry> {
    var done := Done(s.index);
    if done != [] && done[0] in s.snapshots then ByPath(s.snapshots[done[0]].files) else map[]
  }

  datatype Taking = Taking(store: Store, files: seq<Entry>, skipped: seq<Path>)

  predicate Carried(t: Taking, p: Path, f: File, previous: map<Path, Entry>) {
    && p in previous
    && previous[p].size == |f.bytes|
    && previous[p].mtime == f.mtime
    && Has(t.store, previous[p].sha)
  }

  function TakeFile(t: Taking, p: Path, f: File, exclude: seq<Path>,
                    previous: map<Path, Entry>, compress: bool): Taking {
    if Excluded(p, exclude) then t
    else if Carried(t, p, f, previous) then
      t.(files := t.files + [Entry(p, previous[p].sha, |f.bytes|, f.mtime)])
    else if f.refused then t.(skipped := t.skipped + [p])
    else
      t.(store := Stored(t.store, f.bytes, compress),
         files := t.files + [Entry(p, Hash(f.bytes), |f.bytes|, f.mtime)])
  }

  function TakeFiles(s: Store, folder: Folder, walk: seq<Path>, exclude: seq<Path>,
                     previous: map<Path, Entry>, compress: bool): Taking
    requires forall p :: p in walk ==> p in folder
  {
    if walk == [] then Taking(s, [], [])
    else
      var p := walk[|walk| - 1];
      TakeFile(TakeFiles(s, folder, walk[..|walk| - 1], exclude, previous, compress),
               p, folder[p], exclude, previous, compress)
  }

  function Capped(skipped: seq<Path>): seq<Path> {
    if |skipped| <= 200 then skipped else skipped[..200]
  }

  function TakenWith(s: Store, folder: Folder, walk: seq<Path>, id: string, extra: seq<Path>,
                     compress: bool, previous: map<Path, Entry>): Store
    requires forall p :: p in walk ==> p in folder
  {
    var exclude := CleanExclude(extra);
    var t := TakeFiles(s, folder, walk, exclude, previous, compress);
    t.store.(snapshots := t.store.snapshots[id := Manifest(exclude, t.files, Capped(t.skipped))],
             index := [Summary(id, true)] + t.store.index)
  }

  function Taken(s: Store, folder: Folder, walk: seq<Path>, id: string, extra: seq<Path>, compress: bool): Store
    requires forall p :: p in walk ==> p in folder
  {
    TakenWith(s, folder, walk, id, extra, compress, Previous(s))
  }

  // --- keeping and removing -----------------------------------------------------------

  ghost function Wanted(s: Store): set<Digest> {
    set i, k | 0 <= i < |s.index| && s.index[i].id in s.snapshots && 0 <= k < |s.snapshots[s.index[i].id].files|
      :: s.snapshots[s.index[i].id].files[k].sha
  }

  // `stuck`: objects whose file could not be deleted.
  ghost function Collected(s: Store, stuck: set<Digest>): Store {
    var keep := Wanted(s) + stuck;
    s.(raw := map d | d in s.raw && d in keep :: s.raw[d],
       packed := map d | d in s.packed && d in keep :: s.packed[d])
  }

  function Without(index: seq<Summary>, gone: seq<string>): (r: seq<Summary>)
    ensures forall x :: x in r <==> x in index && x.id !in gone
  {
    if index == [] then []
    else (if index[0].id in gone then [] else [index[0]]) + Without(index[1..], gone)
  }

  ghost function Deleted(s: Store, id: string, stuck: set<Digest>): Store {
    if id !in s.snapshots then s
    else Collected(s.(snapshots := s.snapshots - {id}, index := Without(s.index, [id])), stuck)
  }

  function Surplus(index: seq<Summary>, keep: int): seq<string> {
    if keep <= 0 || |Done(index)| <= keep then [] else Done(index)[keep..]
  }

  ghost function KeptOnly(s: Store, keep: int, stuck: set<Digest>): Store {
    var gone := Surplus(s.index, keep);
    if gone == [] then s
    else Collected(s.(snapshots := s.snapshots - (set id | id in gone), index := Without(s.index, gone)), stuck)
  }

  // --- restoring --------------------------------------------------------------------------

  type Contents = map<Path, Bytes>

  // Top-level entries a restore leaves alone; everything else is deleted first.
  predicate Spared(p: Path, exclude: seq<Path>) {
    p != [] && (Excluded(p[..1], exclude) || p[0] == NATIVE_TMP)
  }

  function Swept(now: Contents, exclude: seq<Path>): Contents {
    map p | p in now && Spared(p, exclude) :: now[p]
  }

  // A file is where a folder is needed, or the other way round.
  ghost predicate Blocked(p: Path, now: Contents) {
    exists q :: q in now && (q < p || p < q)
  }

  ghost function WrittenBack(s: Store, files: seq<Entry>, now: Contents): Result<Contents, Refusal>
    requires forall k :: 0 <= k < |files| ==> Has(s, files[k].sha)
  {
    if files == [] then Ok(now)
    else
      var e := files[|files| - 1];
      var before := WrittenBack(s, files[..|files| - 1], now);
      if before.Err? then before
      else if Blocked(e.path, before.value) then Err(InTheWay)
      else Ok(before.value[e.path := Object(s, e.sha)])
  }

  ghost function Restored(s: Store, id: string, now: Contents): Result<Contents, Refusal> {
    if id !in s.snapshots then Err(NoSuchBackup)
    else
      var m := s.snapshots[id];
      if exists k :: 0 <= k < |m.files| && !Has(s, m.files[k].sha) then Err(Incomplete)
      else WrittenBack(s, m.files, Swept(now, if m.exclude == [] then DEFAULT_EXCLUDE else m.exclude))
  }
}
