// The walk into a server's folder (agent/files.py, _dir_fd, open_file for writing,
// mkdir, extract) over an inode graph that another process keeps changing.
//
// An open folder is its inode. Every kernel call first lets the other process
// move, and then acts at once, on an open folder and one name in it, never
// following a link (O_NOFOLLOW).

module FolderJail {
  import opened Prelude
  import opened FolderPaths

  datatype Node = Dir(entries: map<string, nat>) | File(data: seq<bv8>) | Link(to: string)

  // `own` are the folders of the server folder's own tree, `root` its top.
  datatype FS = FS(nodes: map<nat, Node>, own: set<nat>, root: nat, next: nat)

  // A folder of the tree leads only to folders of the tree; to files and links
  // anywhere (hard links out are possible).
  ghost predicate Jail(fs: FS) {
    && fs.root in fs.own
    && (forall n :: n in fs.nodes ==> n < fs.next)
    && (forall d :: d in fs.own ==> d in fs.nodes && fs.nodes[d].Dir?)
    && (forall d, name :: d in fs.own && name in fs.nodes[d].entries ==>
          LeadsInside(fs, fs.nodes[d].entries[name]))
  }

  predicate LeadsInside(fs: FS, n: nat) {
    n in fs.nodes && (fs.nodes[n].Dir? ==> n in fs.own)
  }

  // Folders outside the tree stay outside, and stay as they are.
  ghost predicate OutsideKept(fs: FS, fs': FS) {
    && fs.own <= fs'.own && fs'.root == fs.root && fs.next <= fs'.next
    && forall d :: d in fs.nodes && d !in fs.own && fs.nodes[d].Dir? ==>
        d !in fs'.own && d in fs'.nodes && fs'.nodes[d] == fs.nodes[d]
  }

  // The other process: it renames, creates, removes and swaps whatever it likes
  // in the tree, but moves no folder across its boundary.
  type Play = (nat, FS) -> FS

  ghost predicate Confined(play: Play) {
    forall k: nat, fs: FS :: Jail(fs) ==> Jail(play(k, fs)) && OutsideKept(fs, play(k, fs))
  }

  ghost predicate Quiet(play: Play) {
    forall k: nat, fs: FS :: play(k, fs) == fs
  }

  // --- the kernel's calls -----------------------------------------------------------

  function EntryOf(fs: FS, at: nat, name: string): Option<nat> {
    if at in fs.nodes && fs.nodes[at].Dir? && name in fs.nodes[at].entries then Some(fs.nodes[at].entries[name])
    else None
  }

  function WithEntry(fs: FS, at: nat, name: string, n: nat): FS
    requires at in fs.nodes && fs.nodes[at].Dir?
  {
    fs.(nodes := fs.nodes[at := Dir(fs.nodes[at].entries[name := n])])
  }

  function WithoutEntry(fs: FS, at: nat, name: string): FS
    requires at in fs.nodes && fs.nodes[at].Dir?
  {
    fs.(nodes := fs.nodes[at := Dir(fs.nodes[at].entries - {name})])
  }

  // mkdirat with no such entry.
  function WithFolder(fs: FS, at: nat, name: string): FS
    requires at < fs.next && at in fs.nodes && fs.nodes[at].Dir?
  {
    var made := fs.(nodes := fs.nodes[fs.next := Dir(map[])], own := fs.own + {fs.next}, next := fs.next + 1);
    WithEntry(made, at, name, fs.next)
  }

  // openat with O_CREAT and O_EXCL, and what is then written to the new file.
  function WithFile(fs: FS, at: nat, name: string, data: seq<bv8>): FS
    requires at < fs.next && at in fs.nodes && fs.nodes[at].Dir?
  {
    WithEntry(fs.(nodes := fs.nodes[fs.next := File(data)], next := fs.next + 1), at, name, fs.next)
  }

  // renameat within one folder.
  function Renamed(fs: FS, at: nat, from: string, to: string): FS
    requires at in fs.nodes && fs.nodes[at].Dir? && from in fs.nodes[at].entries
  {
    if from == to then fs
    else WithoutEntry(WithEntry(fs, at, to, fs.nodes[at].entries[from]), at, from)
  }

  // What the agent's own calls keep, on a folder of the tree. Only that folder
  // changes, whatever node it is about.
  ghost predicate ActsIn(fs: FS, fs': FS, at: nat) {
    && Jail(fs') && OutsideKept(fs, fs')
    && forall n :: n in fs.nodes && n != at ==> n in fs'.nodes && fs'.nodes[n] == fs.nodes[n]
  }

  lemma FolderActs(fs: FS, at: nat, name: string)
    requires Jail(fs) && at in fs.own
    ensures ActsIn(fs, WithFolder(fs, at, name), at)
  {}

  lemma FileActs(fs: FS, at: nat, name: string, data: seq<bv8>)
    requires Jail(fs) && at in fs.own
    ensures ActsIn(fs, WithFile(fs, at, name, data), at)
  {}

  lemma RenameActs(fs: FS, at: nat, from: string, to: string)
    requires Jail(fs) && at in fs.own && from in fs.nodes[at].entries
    ensures ActsIn(fs, Renamed(fs, at, from, to), at)
  {}

  lemma UnlinkActs(fs: FS, at: nat, name: string)
    requires Jail(fs) && at in fs.own
    ensures ActsIn(fs, WithoutEntry(fs, at, name), at)
  {}

  // --- where a path leads, when nobody interferes -------------------------------------

  function FolderAt(fs: FS, parts: seq<string>): Option<nat> {
    if parts == [] then Some(fs.root)
    else
      match FolderAt(fs, parts[..|parts| - 1])
      case None => None
      case Some(d) =>
        var n := EntryOf(fs, d, parts[|parts| - 1]);
        if n.Some? && n.value in fs.nodes && fs.nodes[n.value].Dir? then n else None
  }

  function FileAt(fs: FS, dir: nat, name: string): Option<seq<bv8>> {
    var n := EntryOf(fs, dir, name);
    if n.Some? && n.value in fs.nodes && fs.nodes[n.value].File? then Some(fs.nodes[n.value].data) else None
  }

  predicate IsFolder(fs: FS, at: nat, name: string, n: nat) {
    EntryOf(fs, at, name) == Some(n) && n in fs.nodes && fs.nodes[n].Dir?
  }

  ghost predicate NoFolder(fs: FS, at: nat, name: string) {
    forall n :: !IsFolder(fs, at, name, n)
  }

  // Everything that was there is there, but for one entry: folders may be new.
  ghost predicate KeptBut(fs: FS, fs': FS, dir: nat, name: string) {
    && fs'.root == fs.root && fs.next <= fs'.next
    && (forall n :: n in fs.nodes ==> n in fs'.nodes)
    && (forall n :: n in fs.nodes && !fs.nodes[n].Dir? ==> fs'.nodes[n] == fs.nodes[n])
    && (forall n :: n in fs.nodes && fs.nodes[n].Dir? ==> fs'.nodes[n].Dir?)
    && (forall d, nm :: d in fs.nodes && EntryOf(fs, d, nm).Some? && (d != dir || nm != name) ==>
          EntryOf(fs', d, nm) == EntryOf(fs, d, nm))
  }

  // With no entry excepted: fs.next is no node.
  ghost predicate Grown(fs: FS, fs': FS) { KeptBut(fs, fs', fs.next, "") }

  lemma {:induction false} FoldersStay(fs: FS, fs': FS, dir: nat, name: string, parts: seq<string>)
    requires Jail(fs) && KeptBut(fs, fs', dir, name) && FolderAt(fs, parts).Some?
    requires NoFolder(fs, dir, name)
    ensures FolderAt(fs', parts) == FolderAt(fs, parts)
    ensures FolderAt(fs, parts).value in fs.nodes && fs.nodes[FolderAt(fs, parts).value].Dir?
  {
    if parts != [] {
      FoldersStay(fs, fs', dir, name, parts[..|parts| - 1]);
      var d := FolderAt(fs, parts[..|parts| - 1]).value;
      assert IsFolder(fs, d, parts[|parts| - 1], FolderAt(fs, parts).value);
    }
  }

  lemma FolderGrows(fs: FS, at: nat, name: string)
    requires Jail(fs) && at in fs.own && EntryOf(fs, at, name).None?
    ensures Grown(fs, WithFolder(fs, at, name))
  {}

  lemma GrownTwice(fs: FS, mid: FS, fs': FS)
    requires Jail(fs) && Jail(mid) && Grown(fs, mid) && Grown(mid, fs')
    ensures Grown(fs, fs')
  {}

  lemma FileGrows(fs: FS, at: nat, tmp: string, data: seq<bv8>)
    requires Jail(fs) && at in fs.own && EntryOf(fs, at, tmp).None?
    ensures Grown(fs, WithFile(fs, at, tmp, data))
    ensures EntryOf(WithFile(fs, at, tmp, data), at, tmp) == Some(fs.next)
    ensures WithFile(fs, at, tmp, data).nodes[fs.next] == File(data)
  {}

  lemma GivesUp(fs: FS, at: nat, tmp: string, data: seq<bv8>)
    requires Jail(fs) && at in fs.own && EntryOf(fs, at, tmp).None?
    ensures Grown(fs, WithoutEntry(WithFile(fs, at, tmp, data), at, tmp))
  {}

  // A file written beside and renamed in: that entry is the new file, and nothing
  // else has changed.
  lemma Replaces(fs: FS, at: nat, tmp: string, name: string, data: seq<bv8>)
    requires Jail(fs) && at in fs.own && EntryOf(fs, at, tmp).None? && tmp != name
    ensures var t := WithFile(fs, at, tmp, data);
      && tmp in t.nodes[at].entries
      && KeptBut(fs, Renamed(t, at, tmp, name), at, name)
      && FileAt(Renamed(t, at, tmp, name), at, name) == Some(data)
      && EntryOf(Renamed(t, at, tmp, name), at, tmp).None?
  {}

  lemma GrownThenBut(fs: FS, mid: FS, fs': FS, dir: nat, name: string)
    requires Jail(fs) && Grown(fs, mid) && KeptBut(mid, fs', dir, name)
    ensures KeptBut(fs, fs', dir, name)
  {}

  // What placing a file comes to when nobody interferes.
  ghost predicate PlaceResult(fs: FS, fs': FS, at: nat, name: string, body: Option<seq<bv8>>, placed: bool) {
    if placed then KeptBut(fs, fs', at, name) && FileAt(fs', at, name) == body && body.Some? else Grown(fs, fs')
  }

  lemma PlaceComesTo(fs: FS, fs': FS, at: nat, name: string, tmp: string, body: Option<seq<bv8>>, placed: bool)
    requires Jail(fs) && at in fs.own && EntryOf(fs, at, tmp).None? && tmp != name && (placed ==> body.Some?)
    requires var t := WithFile(fs, at, tmp, if body.Some? then body.value else []);
      && tmp in t.nodes[at].entries
      && if placed then fs' == Renamed(t, at, tmp, name) else fs' == t || fs' == WithoutEntry(t, at, tmp)
    ensures PlaceResult(fs, fs', at, name, body, placed)
  {
    var data := if body.Some? then body.value else [];
    FileGrows(fs, at, tmp, data);
    GivesUp(fs, at, tmp, data);
    Replaces(fs, at, tmp, name, data);
  }

  // The same, after a walk that may have made folders.
  lemma WriteComesTo(fs: FS, walked: FS, fs': FS, parts: seq<string>, dir: nat, body: Option<seq<bv8>>, placed: bool)
    requires Jail(fs) && Jail(walked) && Jail(fs') && Grown(fs, walked) && parts != []
    requires FolderAt(walked, parts[..|parts| - 1]) == Some(dir)
    requires NoFolder(walked, dir, parts[|parts| - 1])
    requires PlaceResult(walked, fs', dir, parts[|parts| - 1], body, placed)
    ensures if placed then body.Some? && Written(fs, fs', parts, dir, body.value) else Grown(fs, fs')
  {
    if placed {
      GrownThenBut(fs, walked, fs', dir, parts[|parts| - 1]);
      FoldersStay(walked, fs', dir, parts[|parts| - 1], parts[..|parts| - 1]);
    } else {
      GrownTwice(fs, walked, fs');
    }
  }

  ghost predicate AllNames(parts: seq<string>) { forall p :: p in parts ==> IsName(p) }

  lemma {:induction false} NoFolderPast(fs: FS, parts: seq<string>, n: nat)
    requires n <= |parts| && FolderAt(fs, parts[..n]).None?
    ensures FolderAt(fs, parts).None?
  {
    if n < |parts| {
      assert parts[..|parts| - 1][..n] == parts[..n];
      NoFolderPast(fs, parts[..|parts| - 1], n);
    } else {
      assert parts[..n] == parts;
    }
  }

  predicate IsStamp(s: string) { '/' !in s && '\\' !in s && '\U{0}' !in s }

  function TempName(name: string, stamp: string): string { "." + name + ".bf-" + stamp + ".tmp" }

  lemma TempIsName(name: string, stamp: string)
    requires IsName(name) && IsStamp(stamp)
    ensures IsName(TempName(name, stamp)) && TempName(name, stamp) != name
  {
    assert |TempName(name, stamp)| > |name| + 2;
  }

  // The path now leads to a file of these bytes; everything else that was there
  // is as it was.
  ghost predicate Written(fs: FS, fs': FS, parts: seq<string>, dir: nat, data: seq<bv8>)
    requires parts != []
  {
    && FolderAt(fs', parts[..|parts| - 1]) == Some(dir)
    && FileAt(fs', dir, parts[|parts| - 1]) == Some(data)
    && KeptBut(fs, fs', dir, parts[|parts| - 1])
  }

  // A walk nobody interferes with, after `n` parts.
  ghost predicate WalkedTo(fs: FS, fs': FS, parts: seq<string>, n: nat, at: nat, create: bool)
    requires n <= |parts|
  {
    Grown(fs, fs') && FolderAt(fs', parts[..n]) == Some(at) && (!create ==> fs' == fs)
  }

  lemma WalksOn(fs: FS, mid: FS, fs': FS, parts: seq<string>, n: nat, at: nat, inner: nat, create: bool)
    requires Jail(fs) && Jail(mid) && Jail(fs') && n < |parts| && WalkedTo(fs, mid, parts, n, at, create)
    requires Grown(mid, fs') && IsFolder(fs', at, parts[n], inner) && (!create ==> fs' == mid)
    ensures WalkedTo(fs, fs', parts, n + 1, inner, create)
  {
    var so := parts[..n + 1];
    assert so[..n] == parts[..n] && so[n] == parts[n];
    FoldersStay(mid, fs', mid.next, "", parts[..n]);
    GrownTwice(fs, mid, fs');
  }

  lemma WalkEnds(fs: FS, mid: FS, fs': FS, parts: seq<string>, n: nat, at: nat, create: bool)
    requires Jail(fs) && Jail(mid) && Jail(fs') && n < |parts| && WalkedTo(fs, mid, parts, n, at, create)
    requires Grown(mid, fs') && (!create ==> fs' == mid && NoFolder(mid, at, parts[n]))
    ensures Grown(fs, fs') && (!create ==> fs' == fs && FolderAt(fs, parts).None?)
  {
    GrownTwice(fs, mid, fs');
    if !create {
      var so := parts[..n + 1];
      assert so[..n] == parts[..n] && so[n] == parts[n];
      var e := EntryOf(mid, at, parts[n]);
      assert e.Some? ==> !IsFolder(mid, at, parts[n], e.value);
      NoFolderPast(mid, parts, n + 1);
    }
  }

  datatype Call =
    | Open(at: nat, name: string)
    | MkDir(at: nat, name: string)
    | Stat(at: nat, name: string)
    | Create(at: nat, name: string)
    | Rename(at: nat, from: string, to: string)
    | Unlink(at: nat, name: string)

  datatype Opened = Folder(inode: nat) | Absent | NotFolder

  datatype Error = Bad(why: Refusal) | IsRoot | Missing | LinkOrFile | HardLinked | Os

  datatype Unpacking = Refused(why: ArchiveRefusal) | Stopped(error: Error) | Done

  ghost predicate CallsInside(calls: seq<Call>, from: nat, own: set<nat>) {
    forall i :: from <= i < |calls| ==> calls[i].at in own
  }

  class Disk {
    var fs: FS
    var tick: nat
    ghost var calls: seq<Call>
    const play: Play
    const fits: nat -> bool               // whether the k-th call finds the disk willing
    const shared: (nat, nat) -> bool      // st_nlink > 1, asked of an inode at the k-th call

    ghost predicate Sound()
      reads this
    {
      Jail(fs) && Confined(play)
    }

    constructor (fs: FS, play: Play, fits: nat -> bool, shared: (nat, nat) -> bool)
      requires Jail(fs) && Confined(play)
      ensures Sound() && this.fs == fs && calls == []
    {
      this.fs, this.play, this.fits, this.shared := fs, play, fits, shared;
      tick, calls := 0, [];
    }

    // The other process's turn.
    method Yield()
      requires Sound()
      modifies this
      ensures Sound() && OutsideKept(old(fs), fs) && fs == play(old(tick), old(fs))
      ensures tick == old(tick) + 1 && calls == old(calls)
    {
      fs := play(tick, fs);
      tick := tick + 1;
    }

    // openat(part, O_DIRECTORY | O_NOFOLLOW, dir_fd=at).
    method OpenDir(at: nat, name: string) returns (r: Opened)
      requires Sound() && at in fs.own && IsName(name)
      modifies this
      ensures Sound() && OutsideKept(old(fs), fs) && calls == old(calls) + [Open(at, name)]
      ensures r.Folder? ==> r.inode in fs.own
      ensures tick == old(tick) + 1 && fs == play(old(tick), old(fs))
      ensures r.Absent? <==> EntryOf(fs, at, name).None?
      ensures if r.Folder? then IsFolder(fs, at, name, r.inode) else NoFolder(fs, at, name)
    {
      Yield();
      calls := calls + [Open(at, name)];
      var n := EntryOf(fs, at, name);
      if n.None? { return Absent; }
      r := if fs.nodes[n.value].Dir? then Folder(n.value) else NotFolder;
    }

    // mkdir(part, dir_fd=at); false when something is there or the disk will not.
    method MakeDir(at: nat, name: string) returns (made: bool, found: bool)
      requires Sound() && at in fs.own && IsName(name)
      modifies this
      ensures Sound() && OutsideKept(old(fs), fs) && calls == old(calls) + [MkDir(at, name)]
      ensures tick == old(tick) + 1
      ensures var seen := play(old(tick), old(fs));
        && found == EntryOf(seen, at, name).Some?
        && made == (!found && fits(tick))
        && at in seen.own && Jail(seen)
        && fs == if made then WithFolder(seen, at, name) else seen
    {
      Yield();
      calls := calls + [MkDir(at, name)];
      found := EntryOf(fs, at, name).Some?;
      made := !found && fits(tick);
      if made {
        FolderActs(fs, at, name);
        fs := WithFolder(fs, at, name);
      }
    }

    // os.stat(name, dir_fd=at, follow_symlinks=False).
    method StatAt(at: nat, name: string) returns (r: Option<Node>, many: bool)
      requires Sound() && at in fs.own && IsName(name)
      modifies this
      ensures Sound() && OutsideKept(old(fs), fs) && calls == old(calls) + [Stat(at, name)]
      ensures tick == old(tick) + 1 && fs == play(old(tick), old(fs))
      ensures r.Some? <==> EntryOf(fs, at, name).Some?
      ensures r.Some? ==> EntryOf(fs, at, name).value in fs.nodes && r.value == fs.nodes[EntryOf(fs, at, name).value]
    {
      Yield();
      calls := calls + [Stat(at, name)];
      var n := EntryOf(fs, at, name);
      if n.None? { return None, false; }
      r := Some(fs.nodes[n.value]);
      many := shared(tick, n.value);
    }

    // One part of the walk: trail, or made and trail.
    method Enter(at: nat, part: string, create: bool) returns (r: Result<nat, Error>)
      requires Sound() && at in fs.own && IsName(part)
      modifies this
      ensures Sound() && OutsideKept(old(fs), fs)
      ensures old(calls) <= calls && CallsInside(calls, |old(calls)|, fs.own)
      ensures r.Ok? ==> r.value in fs.own
      ensures Quiet(play) ==> Grown(old(fs), fs) && (r.Ok? ==> IsFolder(fs, at, part, r.value))
      ensures Quiet(play) && !create ==> fs == old(fs)
      ensures Quiet(play) && !create && r.Err? ==> NoFolder(old(fs), at, part)
    {
      var o := OpenDir(at, part);
      if o.Folder? { return Ok(o.inode); }
      if o.NotFolder? { return Err(LinkOrFile); }
      if !create { return Err(Missing); }
      r := MakeAndEnter(at, part);
    }

    method MakeAndEnter(at: nat, part: string) returns (r: Result<nat, Error>)
      requires Sound() && at in fs.own && IsName(part)
      modifies this
      ensures Sound() && OutsideKept(old(fs), fs)
      ensures old(calls) <= calls && CallsInside(calls, |old(calls)|, fs.own)
      ensures r.Ok? ==> r.value in fs.own
      ensures Quiet(play) ==> Grown(old(fs), fs) && (r.Ok? ==> IsFolder(fs, at, part, r.value))
    {
      var there := EnsureEntry(at, part);
      if !there { return Err(Os); }
      var o := OpenDir(at, part);
      r := if o.Folder? then Ok(o.inode) else Err(LinkOrFile);
    }

    method EnsureEntry(at: nat, part: string) returns (there: bool)
      requires Sound() && at in fs.own && IsName(part)
      modifies this
      ensures Sound() && OutsideKept(old(fs), fs) && calls == old(calls) + [MkDir(at, part)]
      ensures Quiet(play) ==> Grown(old(fs), fs)
    {
      var made, found := MakeDir(at, part);
      if made { FolderGrows(play(old(tick), old(fs)), at, part); }
      there := made || found;
    }

    // _dir_fd: every folder it opens or makes is one of the tree's.
    method Walk(parts: seq<string>, create: bool) returns (r: Result<nat, Error>, trail: seq<nat>)
      requires Sound() && AllNames(parts)
      modifies this
      ensures Sound() && OutsideKept(old(fs), fs)
      ensures old(calls) <= calls && CallsInside(calls, |old(calls)|, fs.own)
      ensures trail != [] && trail[0] == old(fs).root && forall d :: d in trail ==> d in fs.own
      ensures r.Ok? ==> |trail| == |parts| + 1 && r.value == trail[|parts|]
      ensures Quiet(play) ==> Grown(old(fs), fs) && (r.Ok? ==> FolderAt(fs, parts) == Some(r.value))
      ensures Quiet(play) && !create ==> fs == old(fs) && (r.Ok? <==> FolderAt(old(fs), parts).Some?)
    {
      trail := [fs.root];
      var n := 0;
      while n < |parts|
        invariant n <= |parts| && |trail| == n + 1 && trail[0] == old(fs).root
        invariant Sound() && OutsideKept(old(fs), fs)
        invariant old(calls) <= calls && CallsInside(calls, |old(calls)|, fs.own)
        invariant forall d :: d in trail ==> d in fs.own
        invariant Quiet(play) ==> WalkedTo(old(fs), fs, parts, n, trail[n], create)
      {
        ghost var before := fs;
        assert trail[n] in trail && parts[n] in parts;
        var next := Enter(trail[n], parts[n], create);
        if next.Err? {
          if Quiet(play) { WalkEnds(old(fs), before, fs, parts, n, trail[n], create); }
          return Err(next.error), trail;
        }
        if Quiet(play) { WalksOn(old(fs), before, fs, parts, n, trail[n], next.value, create); }
        trail := trail + [next.value];
        n := n + 1;
      }
      assert parts[..n] == parts;
      r := Ok(trail[n]);
    }

    // os.open(tmp, O_CREAT | O_EXCL | O_NOFOLLOW, dir_fd=at), and the write.
    method CreateNew(at: nat, name: string, data: seq<bv8>) returns (made: bool)
      requires Sound() && at in fs.own && IsName(name)
      modifies this
      ensures Sound() && OutsideKept(old(fs), fs) && calls == old(calls) + [Create(at, name)]
      ensures var seen := play(old(tick), old(fs));
        && Jail(seen) && at in seen.own
        && (made ==> EntryOf(seen, at, name).None? && fs == WithFile(seen, at, name, data))
        && (!made ==> fs == seen)
    {
      Yield();
      calls := calls + [Create(at, name)];
      made := EntryOf(fs, at, name).None? && fits(tick);
      if made {
        FileActs(fs, at, name, data);
        fs := WithFile(fs, at, name, data);
      }
    }

    method RenameAt(at: nat, from: string, to: string) returns (done: bool)
      requires Sound() && at in fs.own && IsName(from) && IsName(to)
      modifies this
      ensures Sound() && OutsideKept(old(fs), fs) && calls == old(calls) + [Rename(at, from, to)]
      ensures var seen := play(old(tick), old(fs));
        && Jail(seen) && at in seen.own
        && (done ==> from in seen.nodes[at].entries && fs == Renamed(seen, at, from, to))
        && (!done ==> fs == seen)
    {
      Yield();
      calls := calls + [Rename(at, from, to)];
      var n, m := EntryOf(fs, at, from), EntryOf(fs, at, to);
      done := n.Some? && !(m.Some? && fs.nodes[m.value].Dir?) && fits(tick);
      if done {
        RenameActs(fs, at, from, to);
        fs := Renamed(fs, at, from, to);
      }
    }

    method UnlinkAt(at: nat, name: string)
      requires Sound() && at in fs.own && IsName(name)
      modifies this
      ensures Sound() && OutsideKept(old(fs), fs) && calls == old(calls) + [Unlink(at, name)]
      ensures var seen := play(old(tick), old(fs));
        && Jail(seen) && at in seen.own
        && (fs == seen || fs == WithoutEntry(seen, at, name))
    {
      Yield();
      calls := calls + [Unlink(at, name)];
      var n := EntryOf(fs, at, name);
      if n.Some? && !fs.nodes[n.value].Dir? && fits(tick) {
        UnlinkActs(fs, at, name);
        fs := WithoutEntry(fs, at, name);
      }
    }

    // The temp file, and its rename over `name`. `body` is None when whoever was
    // writing gave up.
    method Place(at: nat, name: string, tmp: string, body: Option<seq<bv8>>) returns (placed: bool)
      requires Sound() && at in fs.own && IsName(name) && IsName(tmp) && tmp != name
      modifies this
      ensures Sound() && OutsideKept(old(fs), fs)
      ensures old(calls) <= calls && CallsInside(calls, |old(calls)|, fs.own)
      ensures placed ==> body.Some?
      ensures Quiet(play) ==> PlaceResult(old(fs), fs, at, name, body, placed)
    {
      var data := if body.Some? then body.value else [];
      var made := CreateNew(at, tmp, data);
      if !made { return false; }
      placed := MoveIn(at, name, tmp, body.Some?);
      if Quiet(play) { PlaceComesTo(old(fs), fs, at, name, tmp, body, placed); }
    }

    method MoveIn(at: nat, name: string, tmp: string, finished: bool) returns (placed: bool)
      requires Sound() && at in fs.own && IsName(name) && IsName(tmp)
      modifies this
      ensures Sound() && OutsideKept(old(fs), fs)
      ensures old(calls) <= calls && CallsInside(calls, |old(calls)|, fs.own)
      ensures placed ==> finished
      ensures Quiet(play) ==>
        && at in old(fs).nodes && old(fs).nodes[at].Dir?
        && if placed then tmp in old(fs).nodes[at].entries && fs == Renamed(old(fs), at, tmp, name)
           else fs == old(fs) || fs == WithoutEntry(old(fs), at, tmp)
    {
      placed := false;
      if finished { placed := RenameAt(at, tmp, name); }
      if !placed { UnlinkAt(at, tmp); }
    }

    // open_file(root, rel, "wb"), past the parsing.
    method WriteAt(parts: seq<string>, stamp: string, body: Option<seq<bv8>>)
      returns (r: Result<nat, Error>, trail: seq<nat>)
      requires Sound() && IsStamp(stamp) && parts != [] && AllNames(parts)
      modifies this
      ensures Sound() && OutsideKept(old(fs), fs)
      ensures old(calls) <= calls && CallsInside(calls, |old(calls)|, fs.own)
      ensures forall d :: d in trail ==> d in fs.own
      ensures r.Ok? ==> body.Some?
      ensures Quiet(play) ==> if r.Ok? then Written(old(fs), fs, parts, r.value, body.value) else Grown(old(fs), fs)
    {
      var parents, name := parts[..|parts| - 1], parts[|parts| - 1];
      assert name in parts;
      var dir;
      dir, trail := Walk(parents, true);
      if dir.Err? { return Err(dir.error), trail; }
      ghost var walked := fs;
      var st, many := StatAt(dir.value, name);
      if st.Some? && !st.value.File? { return Err(LinkOrFile), trail; }
      if st.Some? && many { return Err(HardLinked), trail; }
      TempIsName(name, stamp);
      var placed := Place(dir.value, name, TempName(name, stamp), body);
      if Quiet(play) { WriteComesTo(old(fs), walked, fs, parts, dir.value, body, placed); }
      r := if placed then Ok(dir.value) else Err(Os);
    }

    method WriteFile(rel: string, stamp: string, body: Option<seq<bv8>>)
      returns (r: Result<nat, Error>, trail: seq<nat>)
      requires Sound() && IsStamp(stamp)
      modifies this
      ensures Sound() && OutsideKept(old(fs), fs)
      ensures old(calls) <= calls && CallsInside(calls, |old(calls)|, fs.own)
      ensures forall d :: d in trail ==> d in fs.own
      ensures r.Ok? ==> PartsOf(rel).Ok? && PartsOf(rel).value != [] && body.Some?
      ensures Quiet(play) ==>
        if r.Ok? then Written(old(fs), fs, PartsOf(rel).value, r.value, body.value) else Grown(old(fs), fs)
    {
      var p := PartsOf(rel);
      if p.Err? { return Err(Bad(p.error)), []; }
      if p.value == [] { return Err(IsRoot), []; }
      PartsAreNames(rel);
      r, trail := WriteAt(p.value, stamp, body);
    }

    // mkdir.
    method MakeFolder(parent: string, name: string) returns (r: Result<nat, Error>)
      requires Sound()
      modifies this
      ensures Sound() && OutsideKept(old(fs), fs)
      ensures old(calls) <= calls && CallsInside(calls, |old(calls)|, fs.own)
      ensures r.Ok? ==> r.value in fs.own && PartsOf(parent).Ok? && NameOf(name).Ok?
      ensures Quiet(play) && r.Ok? ==> FolderAt(fs, PartsOf(parent).value + [NameOf(name).value]) == Some(r.value)
      ensures Quiet(play) ==> Grown(old(fs), fs)
    {
      var p, n := PartsOf(parent), NameOf(name);
      if p.Err? { return Err(Bad(p.error)); }
      if n.Err? { return Err(Bad(n.error)); }
      PartsAreNames(parent);
      var trail;
      r, trail := Walk(p.value + [n.value], true);
    }

    // extract, past the reading of the archive: its members into `base`, all of
    // them checked first. `bodies` are their contents, None where one cannot be read.
    method Extract(base: seq<string>, members: seq<Member>, archiveSize: nat, limit: nat,
                   stamp: string, bodies: seq<Option<seq<bv8>>>)
      returns (r: Unpacking)
      requires Sound() && IsStamp(stamp) && |bodies| == |members|
      modifies this
      ensures Sound() && OutsideKept(old(fs), fs)
      ensures old(calls) <= calls && CallsInside(calls, |old(calls)|, fs.own)
      ensures r.Refused? <==>
        !((forall i :: 0 <= i < |members| ==> MayUnpack(members[i], PartsOf))
          && FitsIn(Unpacked(members), archiveSize, limit))
      ensures r.Refused? ==> fs == old(fs) && calls == old(calls)
    {
      var checked := CheckArchive(members, archiveSize, limit);
      if checked.Err? { return Refused(checked.error); }
      r := PlaceMembers(base, members, checked.value, stamp, bodies);
    }

    method PlaceMembers(base: seq<string>, members: seq<Member>, paths: seq<seq<string>>,
                        stamp: string, bodies: seq<Option<seq<bv8>>>)
      returns (r: Unpacking)
      requires Sound() && IsStamp(stamp) && |bodies| == |paths| == |members|
      modifies this
      ensures Sound() && OutsideKept(old(fs), fs) && !r.Refused?
      ensures old(calls) <= calls && CallsInside(calls, |old(calls)|, fs.own)
    {
      var n := 0;
      while n < |members|
        invariant n <= |members|
        invariant Sound() && OutsideKept(old(fs), fs)
        invariant old(calls) <= calls && CallsInside(calls, |old(calls)|, fs.own)
      {
        if paths[n] != [] {
          var one := PlaceMember(base, paths[n], members[n].isFolder, stamp, bodies[n]);
          if one.Some? { return Stopped(one.value); }
        }
        n := n + 1;
      }
      r := Done;
    }

    method PlaceMember(base: seq<string>, parts: seq<string>, isFolder: bool, stamp: string, body: Option<seq<bv8>>)
      returns (failed: Option<Error>)
      requires Sound() && IsStamp(stamp) && parts != []
      modifies this
      ensures Sound() && OutsideKept(old(fs), fs)
      ensures old(calls) <= calls && CallsInside(calls, |old(calls)|, fs.own)
    {
      if isFolder {
        var above := base + parts[..|parts| - 1];
        var made := MakeFolder(if above == [] then "." else Join(above), parts[|parts| - 1]);
        failed := if made.Err? then Some(made.error) else None;
      } else {
        var wrote, trail := WriteFile(Join(base + parts), stamp, body);
        failed := if wrote.Err? then Some(wrote.error) else None;
      }
    }
  }
}