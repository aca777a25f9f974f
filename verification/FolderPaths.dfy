// Server-relative paths (agent/files.py, parts_of and check_name), and the check
// of an archive's members before anything is written.

module FolderPaths {
  import opened Prelude

  // What a refusal is about; the code's message and status follow from it.
  datatype Refusal = NullByte | Absolute | Outside | BadName | LongName

  // str.strip's whitespace.
  predicate IsSpace(c: char) {
    || '\t' <= c <= '\r' || '\U{1c}' <= c <= ' ' || c == '\U{85}' || c == '\U{a0}' || c == '\U{1680}'
    || '\U{2000}' <= c <= '\U{200a}' || c == '\U{2028}' || c == '\U{2029}' || c == '\U{202f}'
    || c == '\U{205f}' || c == '\U{3000}'
  }

  function StripLeft(s: string): (r: string)
    ensures r == [] || !IsSpace(r[0])
    ensures |r| <= |s| && r == s[|s| - |r|..]
  {
    if s == [] || !IsSpace(s[0]) then s else StripLeft(s[1..])
  }

  function StripRight(s: string): (r: string)
    ensures r == [] || !IsSpace(r[|r| - 1])
    ensures |r| <= |s| && r == s[..|r|]
  {
    if s == [] || !IsSpace(s[|s| - 1]) then s else StripRight(s[..|s| - 1])
  }

  function Strip(s: string): string { StripRight(StripLeft(s)) }

  function Slashes(s: string): (r: string)
    ensures |r| == |s| && '\\' !in r
    ensures forall i :: 0 <= i < |s| ==> r[i] == if s[i] == '\\' then '/' else s[i]
  {
    seq(|s|, i requires 0 <= i < |s| => if s[i] == '\\' then '/' else s[i])
  }

  // str.split("/").
  function Split(s: string): (r: seq<string>)
    ensures r != [] && forall p :: p in r ==> '/' !in p
  {
    if s == [] then [[]]
    else
      var rest := Split(s[..|s| - 1]);
      if s[|s| - 1] == '/' then rest + [[]]
      else rest[..|rest| - 1] + [rest[|rest| - 1] + [s[|s| - 1]]]
  }

  // "/".join.
  function Join(parts: seq<string>): string {
    if parts == [] then []
    else if |parts| == 1 then parts[0]
    else Join(parts[..|parts| - 1]) + "/" + parts[|parts| - 1]
  }

  lemma JoinOneMore(parts: seq<string>, p: string)
    requires parts != []
    ensures Join(parts + [p]) == Join(parts) + "/" + p
  {
    assert (parts + [p])[..|parts|] == parts;
  }

  lemma JoinLonger(parts: seq<string>, c: char)
    requires parts != []
    ensures Join(parts[..|parts| - 1] + [parts[|parts| - 1] + [c]]) == Join(parts) + [c]
  {
    var front, last := parts[..|parts| - 1], parts[|parts| - 1];
    assert parts == front + [last];
    if front == [] {
      assert parts == [last] && front + [last + [c]] == [last + [c]];
    } else {
      JoinOneMore(front, last);
      JoinOneMore(front, last + [c]);
      OneLonger(Join(front) + "/", last, c);
    }
  }

  lemma OneLonger(s: string, p: string, c: char)
    ensures s + (p + [c]) == s + p + [c]
  {}

  lemma {:induction false} JoinAfterSplit(s: string)
    ensures Join(Split(s)) == s
  {
    if s != [] {
      var init, rest := s[..|s| - 1], Split(s[..|s| - 1]);
      JoinAfterSplit(init);
      if s[|s| - 1] == '/' {
        JoinOneMore(rest, []);
      } else {
        JoinLonger(rest, s[|s| - 1]);
      }
      assert s == init + [s[|s| - 1]];
    }
  }

  lemma {:induction false} SplitOfMore(s: string, p: string)
    requires '/' !in p
    ensures Split(s + "/" + p) == Split(s) + [p]
  {
    var t := s + "/" + p;
    if p == [] {
      assert t[..|t| - 1] == s;
    } else {
      var q := p[..|p| - 1];
      assert t[..|t| - 1] == s + "/" + q && p == q + [p[|p| - 1]];
      SplitOfMore(s, q);
      assert (Split(s) + [q])[..|Split(s)|] == Split(s);
    }
  }

  lemma {:induction false} SplitOfOne(p: string)
    requires '/' !in p
    ensures Split(p) == [p]
  {
    if p != [] {
      SplitOfOne(p[..|p| - 1]);
      assert p == p[..|p| - 1] + [p[|p| - 1]];
    }
  }

  lemma {:induction false} SplitAfterJoin(parts: seq<string>)
    requires parts != [] && forall p :: p in parts ==> '/' !in p
    ensures Split(Join(parts)) == parts
  {
    if |parts| == 1 {
      assert parts == [parts[0]];
      SplitOfOne(parts[0]);
    } else {
      var init, last := parts[..|parts| - 1], parts[|parts| - 1];
      assert init + [last] == parts;
      SplitAfterJoin(init);
      assert '/' !in last by { assert last in parts; }
      SplitOfMore(Join(init), last);
    }
  }

  // The parts that count: all but "" and ".".
  function Kept(parts: seq<string>): (r: seq<string>)
    ensures forall p :: p in r <==> p in parts && p != "" && p != "."
  {
    if parts == [] then []
    else
      var rest := Kept(parts[..|parts| - 1]);
      var p := parts[|parts| - 1];
      if p == "" || p == "." then rest else rest + [p]
  }

  // One name in one folder: nothing the kernel would walk anywhere with.
  predicate IsName(p: string) {
    p != "" && p != "." && p != ".." && '/' !in p && '\U{0}' !in p && '\\' !in p
  }

  predicate HasDrive(raw: string) { |raw| > 1 && raw[1] == ':' }

  function Raw(rel: string): string { Strip(Slashes(if rel == "" then "." else rel)) }

  function PartsOf(rel: string): Result<seq<string>, Refusal> { Judged(Raw(rel)) }

  function Judged(raw: string): Result<seq<string>, Refusal> {
    if '\U{0}' in raw then Err(NullByte)
    else if (raw != "" && raw[0] == '/') || HasDrive(raw) then Err(Absolute)
    else if ".." in Split(raw) then Err(Outside)
    else Ok(Kept(Split(raw)))
  }

  ghost predicate InSome(parts: seq<string>, c: char) { exists p :: p in parts && c in p }

  lemma InSomeOfMore(parts: seq<string>, p: string, c: char)
    ensures InSome(parts + [p], c) <==> InSome(parts, c) || c in p
  {
    var all := parts + [p];
    if InSome(parts, c) {
      var q :| q in parts && c in q;
      assert q in all;
    }
    if c in p { assert all[|parts|] == p && p in all; }
    if InSome(all, c) {
      var q :| q in all && c in q;
      assert q in parts || q == p;
    }
  }

  lemma {:induction false} InSplit(s: string, c: char)
    requires c != '/'
    ensures c in s <==> InSome(Split(s), c)
  {
    if s == [] {
      InSomeOfMore([], [], c);
      assert [] + [[]] == Split(s);
    } else {
      var init, last := s[..|s| - 1], s[|s| - 1];
      var rest := Split(init);
      assert s == init + [last];
      InSplit(init, c);
      if last == '/' {
        InSomeOfMore(rest, [], c);
      } else {
        var front, part := rest[..|rest| - 1], rest[|rest| - 1];
        assert rest == front + [part];
        InSomeOfMore(front, part, c);
        InSomeOfMore(front, part + [last], c);
      }
    }
  }

  lemma NotInParts(s: string, c: char, p: string)
    requires c != '/' && c !in s && p in Split(s)
    ensures c !in p
  {
    InSplit(s, c);
  }

  lemma RawHasNoBackslash(rel: string)
    ensures '\\' !in Raw(rel)
  {
    var t := Slashes(if rel == "" then "." else rel);
    var left := StripLeft(t);
    assert forall c :: c in left ==> c in t;
    assert forall c :: c in StripRight(left) ==> c in left;
  }

  lemma JudgedAreNames(raw: string, p: string)
    requires '\\' !in raw && Judged(raw).Ok? && p in Judged(raw).value
    ensures IsName(p)
  {
    NotInParts(raw, '\\', p);
    NotInParts(raw, '\U{0}', p);
  }

  // What a path comes to is names only: no "..", nothing absolute, nothing with a
  // separator left in it.
  lemma PartsAreNames(rel: string)
    requires PartsOf(rel).Ok?
    ensures forall p :: p in PartsOf(rel).value ==> IsName(p)
  {
    var raw := Raw(rel);
    RawHasNoBackslash(rel);
    AllJudgedAreNames(raw);
  }

  lemma AllJudgedAreNames(raw: string)
    requires '\\' !in raw && Judged(raw).Ok?
    ensures forall p :: p in Judged(raw).value ==> IsName(p)
  {
    forall p | p in Judged(raw).value
      ensures IsName(p)
    {
      JudgedAreNames(raw, p);
    }
  }

  lemma {:induction false} KeepsNames(parts: seq<string>)
    requires forall p :: p in parts ==> IsName(p)
    ensures Kept(parts) == parts
  {
    if parts != [] {
      KeepsNames(parts[..|parts| - 1]);
      assert parts[|parts| - 1] in parts && parts == parts[..|parts| - 1] + [parts[|parts| - 1]];
    }
  }

  lemma {:induction false} KeptIsNoLonger(parts: seq<string>)
    ensures |Join(Kept(parts))| <= |Join(parts)|
  {
    if parts != [] {
      var init, p := parts[..|parts| - 1], parts[|parts| - 1];
      KeptIsNoLonger(init);
      if p != "" && p != "." {
        var all := Kept(parts);
        assert all[..|all| - 1] == Kept(init);
      }
    }
  }

  lemma JoinIsNotEmpty(parts: seq<string>)
    requires parts != [] && forall p :: p in parts ==> IsName(p)
    ensures Join(parts) != "" && Join(parts)[0] != '/' && '/' !in parts[0]
  {
    if |parts| > 1 {
      var init := parts[..|parts| - 1];
      JoinIsNotEmpty(init);
      assert Join(parts)[0] == Join(init)[0];
    } else {
      assert parts[0] in parts;
    }
  }

  lemma HasNone(parts: seq<string>, c: char)
    requires parts != [] && c != '/' && forall p :: p in parts ==> '/' !in p && c !in p
    ensures c !in Join(parts)
  {
    SplitAfterJoin(parts);
    InSplit(Join(parts), c);
  }

  lemma JoinIsRaw(parts: seq<string>)
    requires parts != [] && forall p :: p in parts ==> IsName(p)
    ensures Raw(Join(parts)) == Strip(Join(parts)) && '\U{0}' !in Join(parts)
  {
    HasNone(parts, '\\');
    HasNone(parts, '\U{0}');
    JoinIsNotEmpty(parts);
    assert Slashes(Join(parts)) == Join(parts);
  }

  lemma PartsAreNoLonger(raw: string)
    ensures |Join(Kept(Split(raw)))| <= |raw|
  {
    JoinAfterSplit(raw);
    KeptIsNoLonger(Split(raw));
  }

  lemma SameLengthIsPlain(s: string)
    requires |Strip(s)| >= |s|
    ensures Strip(s) == s
  {}

  lemma JudgedAreKept(raw: string, parts: seq<string>)
    requires Judged(raw) == Ok(parts)
    ensures parts == Kept(Split(raw))
  {}

  lemma ReadBackMeansPlain(parts: seq<string>)
    requires parts != [] && forall p :: p in parts ==> IsName(p)
    requires PartsOf(Join(parts)) == Ok(parts)
    ensures Strip(Join(parts)) == Join(parts)
  {
    var s := Join(parts);
    JudgedAreKept(Raw(s), parts);
    PartsAreNoLonger(Raw(s));
    JoinIsRaw(parts);
    SameLengthIsPlain(s);
  }

  lemma PlainReadsBack(parts: seq<string>)
    requires parts != [] && forall p :: p in parts ==> IsName(p)
    requires Strip(Join(parts)) == Join(parts) && !HasDrive(Join(parts))
    ensures PartsOf(Join(parts)) == Ok(parts)
  {
    JoinIsRaw(parts);
    SplitAfterJoin(parts);
    KeepsNames(parts);
    JoinIsNotEmpty(parts);
  }

  // A list of names, joined, reads back as itself exactly when its ends have no
  // spaces to strip and it does not look like a drive.
  lemma NamesReadBack(parts: seq<string>)
    requires parts != [] && forall p :: p in parts ==> IsName(p)
    ensures PartsOf(Join(parts)) == Ok(parts) <==> Strip(Join(parts)) == Join(parts) && !HasDrive(Join(parts))
  {
    if PartsOf(Join(parts)) == Ok(parts) {
      ReadBackMeansPlain(parts);
      JoinIsRaw(parts);
    } else if Strip(Join(parts)) == Join(parts) && !HasDrive(Join(parts)) {
      PlainReadsBack(parts);
    }
  }

  // --- names and archives --------------------------------------------------------------

  predicate OnlyDots(s: string) { forall c :: c in s ==> c == '.' }

  // check_name.
  function NameOf(name: string): (r: Result<string, Refusal>)
    ensures r.Ok? ==> IsName(r.value) && |r.value| <= 255
  {
    var n := Strip(name);
    if n == "" || '/' in n || '\\' in n || '\U{0}' in n || OnlyDots(n) then Err(BadName)
    else if |n| > 255 then Err(LongName)
    else assert OnlyDots("..") && OnlyDots("."); Ok(n)
  }

  datatype Member = Member(name: string, isLink: bool, isFolder: bool, size: nat)

  datatype ArchiveRefusal = MemberOutside | MemberIsLink | TooBig | BlowsUp

  const MAX_RATIO: nat := 200
  const MAX_SMALL: nat := 67108864

  function Unpacked(members: seq<Member>): nat {
    if members == [] then 0 else Unpacked(members[..|members| - 1]) + members[|members| - 1].size
  }

  predicate FitsIn(total: nat, archiveSize: nat, limit: nat) {
    total <= limit && (archiveSize == 0 || total <= archiveSize * MAX_RATIO || total <= MAX_SMALL)
  }

  type Reader = string -> Result<seq<string>, Refusal>

  predicate MayUnpack(m: Member, read: Reader) { read(m.name).Ok? && !m.isLink }

  predicate ReadsAs(m: Member, parts: seq<string>, read: Reader) { read(m.name) == Ok(parts) && !m.isLink }

  method CheckMember(m: Member, read: Reader) returns (r: Result<seq<string>, ArchiveRefusal>)
    ensures r.Ok? <==> MayUnpack(m, read)
    ensures r.Ok? ==> ReadsAs(m, r.value, read)
  {
    var p := read(m.name);
    if p.Err? { return Err(MemberOutside); }
    if m.isLink { return Err(MemberIsLink); }
    r := Ok(p.value);
  }

  method CheckMembers(members: seq<Member>, read: Reader)
    returns (r: Result<seq<seq<string>>, ArchiveRefusal>, total: nat)
    ensures r.Ok? <==> forall i :: 0 <= i < |members| ==> MayUnpack(members[i], read)
    ensures r.Ok? ==> |r.value| == |members| && total == Unpacked(members)
    ensures r.Ok? ==> forall i :: 0 <= i < |members| ==> ReadsAs(members[i], r.value[i], read)
  {
    var parts: seq<seq<string>> := [];
    var n := 0;
    total := 0;
    while n < |members|
      invariant |parts| == n <= |members|
      invariant total == Unpacked(members[..n])
      invariant forall i :: 0 <= i < n ==> ReadsAs(members[i], parts[i], read)
    {
      assert members[..n + 1][..n] == members[..n];
      var p := CheckMember(members[n], read);
      if p.Err? { return Err(p.error), total; }
      total := total + members[n].size;
      parts := parts + [p.value];
      n := n + 1;
    }
    assert members[..n] == members;
    r := Ok(parts);
  }

  // What all of it unpacks to.
  method CheckTotal(total: nat, archiveSize: nat, limit: nat) returns (why: Option<ArchiveRefusal>)
    ensures why.None? <==> FitsIn(total, archiveSize, limit)
    ensures why == Some(TooBig) <==> total > limit
    ensures why.Some? ==> why.value.TooBig? || why.value.BlowsUp?
  {
    if total > limit { return Some(TooBig); }
    if archiveSize > 0 && total > archiveSize * MAX_RATIO && total > MAX_SMALL { return Some(BlowsUp); }
    why := None;
  }

  // check_archive: every member and the whole, before anything is written.
  method CheckArchive(members: seq<Member>, archiveSize: nat, limit: nat)
    returns (r: Result<seq<seq<string>>, ArchiveRefusal>)
    ensures r.Ok? <==>
      && (forall i :: 0 <= i < |members| ==> MayUnpack(members[i], PartsOf))
      && FitsIn(Unpacked(members), archiveSize, limit)
    ensures r.Ok? ==>
      |r.value| == |members| && forall i :: 0 <= i < |members| ==> ReadsAs(members[i], r.value[i], PartsOf)
  {
    var total;
    r, total := CheckMembers(members, PartsOf);
    if r.Err? { return; }
    var why := CheckTotal(total, archiveSize, limit);
    if why.Some? { return Err(why.value); }
  }
}
