// Exactly which paths and names are let through, and as what, in terms of the text
// itself: the slashes turned, the spaces cut off its ends, the names between slashes.

module FolderNames {
  import opened Prelude
  import opened FolderPaths

  predicate AreSpaces(s: string) { forall c :: c in s ==> IsSpace(c) }

  // `r` is `s` without the spaces at its ends, `a` and `b`, and with every other character.
  predicate IsCutTo(s: string, a: string, r: string, b: string) {
    && s == a + r + b && AreSpaces(a) && AreSpaces(b)
    && (r != "" ==> !IsSpace(r[0]) && !IsSpace(r[|r| - 1]))
  }

  ghost predicate IsStripped(s: string, r: string) { exists a, b :: IsCutTo(s, a, r, b) }

  lemma {:induction false} LeftCut(s: string) returns (a: string)
    ensures s == a + StripLeft(s) && AreSpaces(a)
  {
    if s == [] || !IsSpace(s[0]) {
      a := [];
    } else {
      var rest := LeftCut(s[1..]);
      a := [s[0]] + rest;
      MoreSpaces(s[0], rest);
      Regroup([s[0]], rest, StripLeft(s[1..]));
      assert s == [s[0]] + s[1..];
    }
  }

  lemma {:induction false} RightCut(s: string) returns (b: string)
    ensures s == StripRight(s) + b && AreSpaces(b)
  {
    if s == [] || !IsSpace(s[|s| - 1]) {
      b := [];
    } else {
      var init, c := s[..|s| - 1], s[|s| - 1];
      var rest := RightCut(init);
      b := rest + [c];
      SpacesMore(rest, c);
      Regroup(StripRight(init), rest, [c]);
      assert s == init + [c];
    }
  }

  lemma MoreSpaces(c: char, s: string)
    requires IsSpace(c) && AreSpaces(s)
    ensures AreSpaces([c] + s)
  {}

  lemma SpacesMore(s: string, c: char)
    requires IsSpace(c) && AreSpaces(s)
    ensures AreSpaces(s + [c])
  {}

  lemma Regroup(a: string, b: string, c: string)
    ensures (a + b) + c == a + (b + c)
  {}

  lemma {:induction false} StripCuts(s: string)
    ensures IsStripped(s, Strip(s))
  {
    var left := StripLeft(s);
    var a := LeftCut(s);
    var b := RightCut(left);
    Regroup(a, Strip(s), b);
    EndsAreKept(left);
    assert IsCutTo(s, a, Strip(s), b);
  }

  lemma EndsAreKept(left: string)
    requires left == "" || !IsSpace(left[0])
    ensures var r := StripRight(left); r != "" ==> !IsSpace(r[0]) && !IsSpace(r[|r| - 1])
  {
    var r := StripRight(left);
    if r != "" { FirstOfPrefix(left, r); }
  }

  lemma FirstOfPrefix(s: string, r: string)
    requires r != "" && r <= s
    ensures r[0] == s[0]
  {}

  // There is one way to cut a text.
  lemma OneCut(s: string, r: string, t: string)
    requires IsStripped(s, r) && IsStripped(s, t)
    ensures r == t
  {
    var a, b :| IsCutTo(s, a, r, b);
    var x, y :| IsCutTo(s, x, t, y);
    if r != "" { SomethingIsKept(s, a, r, b, x, t, y); }
    if t != "" { SomethingIsKept(s, x, t, y, a, r, b); }
    if r != "" {
      FirstIsNoSooner(s, a, r, b, x, t, y);
      FirstIsNoSooner(s, x, t, y, a, r, b);
      LastIsNoLater(s, a, r, b, x, t, y);
      LastIsNoLater(s, x, t, y, a, r, b);
      assert r == s[|a|..|a| + |r|] && t == s[|x|..|x| + |t|];
    }
  }

  lemma CharOfParts(s: string, a: string, r: string, b: string, k: nat)
    requires s == a + r + b && k < |s|
    ensures k < |a| ==> s[k] == a[k]
    ensures |a| <= k < |a| + |r| ==> s[k] == r[k - |a|]
    ensures |a| + |r| <= k ==> s[k] == b[k - |a| - |r|]
  {}

  // A character that is kept one way is no space, so it is kept the other way.
  lemma SomethingIsKept(s: string, a: string, r: string, b: string, x: string, t: string, y: string)
    requires IsCutTo(s, a, r, b) && IsCutTo(s, x, t, y) && r != ""
    ensures |x| <= |a| < |x| + |t|
  {
    CharOfParts(s, a, r, b, |a|);
    CharOfParts(s, x, t, y, |a|);
    assert s[|a|] == r[0];
  }

  lemma FirstIsNoSooner(s: string, a: string, r: string, b: string, x: string, t: string, y: string)
    requires IsCutTo(s, a, r, b) && IsCutTo(s, x, t, y) && r != ""
    ensures |x| <= |a|
  {
    SomethingIsKept(s, a, r, b, x, t, y);
  }

  lemma LastIsNoLater(s: string, a: string, r: string, b: string, x: string, t: string, y: string)
    requires IsCutTo(s, a, r, b) && IsCutTo(s, x, t, y) && r != ""
    ensures |a| + |r| <= |x| + |t|
  {
    var k := |a| + |r| - 1;
    CharOfParts(s, a, r, b, k);
    CharOfParts(s, x, t, y, k);
    assert s[k] == r[|r| - 1];
  }

  // A slash for every backslash, and every other character as it is.
  predicate IsTurned(s: string, r: string) {
    |r| == |s| && forall i :: 0 <= i < |s| ==> r[i] == if s[i] == '\\' then '/' else s[i]
  }

  // The text a path is judged by.
  ghost predicate IsRaw(rel: string, raw: string) { exists t :: IsTurned(rel, t) && IsStripped(t, raw) }

  // What stands between the slashes.
  predicate IsSplit(s: string, parts: seq<string>) {
    parts != [] && (forall p :: p in parts ==> '/' !in p) && Join(parts) == s
  }

  lemma SplitIs(s: string, parts: seq<string>)
    ensures IsSplit(s, parts) <==> parts == Split(s)
  {
    JoinAfterSplit(s);
    if IsSplit(s, parts) { SplitAfterJoin(parts); }
  }

  predicate IsNothing(p: string) { p == "" || p == "." }

  // The parts that name something, in their order.
  ghost predicate IsNamesOf(parts: seq<string>, names: seq<string>) {
    exists at: seq<nat> :: ArePlaces(parts, at) && names == Picked(parts, at)
  }

  // Every place of a part that names something, in order.
  ghost predicate ArePlaces(parts: seq<string>, at: seq<nat>) {
    && (forall i :: 0 <= i < |at| ==> IsPlace(parts, at[i]))
    && (forall i, j :: 0 <= i < j < |at| ==> at[i] < at[j])
    && (forall k: nat :: IsPlace(parts, k) ==> k in at)
  }

  predicate IsPlace(parts: seq<string>, k: nat) { k < |parts| && !IsNothing(parts[k]) }

  lemma PlacesOfMore(init: seq<string>, p: string, k: nat)
    ensures IsPlace(init + [p], k) <==> IsPlace(init, k) || (k == |init| && !IsNothing(p))
  {}

  lemma OnePlaceMore(init: seq<string>, p: string, before: seq<nat>)
    requires ArePlaces(init, before)
    ensures ArePlaces(init + [p], if IsNothing(p) then before else before + [|init|])
  {
    forall k: nat
      ensures IsPlace(init + [p], k) <==> IsPlace(init, k) || (k == |init| && !IsNothing(p))
    {
      PlacesOfMore(init, p, k);
    }
    if !IsNothing(p) { InMore(before, |init|); }
  }

  lemma InMore(before: seq<nat>, n: nat)
    ensures forall k: nat :: k in before + [n] <==> k in before || k == n
  {}

  // The parts at some places.
  function Picked(parts: seq<string>, at: seq<nat>): seq<string>
    requires forall i :: 0 <= i < |at| ==> at[i] < |parts|
  { seq(|at|, i requires 0 <= i < |at| => parts[at[i]]) }

  lemma {:induction false} KeptAt(parts: seq<string>) returns (at: seq<nat>)
    ensures ArePlaces(parts, at)
    ensures Kept(parts) == Picked(parts, at)
  {
    if parts == [] {
      at := [];
    } else {
      var init, p := parts[..|parts| - 1], parts[|parts| - 1];
      assert parts == init + [p];
      var before := KeptAt(init);
      at := if IsNothing(p) then before else before + [|init|];
      OnePlaceMore(init, p, before);
      OnePickedMore(init, p, before);
    }
  }

  lemma OnePickedMore(init: seq<string>, p: string, before: seq<nat>)
    requires forall i :: 0 <= i < |before| ==> before[i] < |init|
    ensures Picked(init + [p], before) == Picked(init, before)
    ensures Picked(init + [p], before + [|init|]) == Picked(init, before) + [p]
  {}

  lemma KeptAreNames(parts: seq<string>)
    ensures IsNamesOf(parts, Kept(parts))
  {
    var at := KeptAt(parts);
  }

  predicate IsAbsolute(raw: string) {
    || (|raw| >= 1 && raw[0] == '/')
    || (|raw| >= 2 && raw[1] == ':')
  }

  ghost predicate LeadsOut(raw: string) { exists parts :: IsSplit(raw, parts) && ".." in parts }

  lemma LeadsOutIs(raw: string)
    ensures LeadsOut(raw) <==> ".." in Split(raw)
  {
    SplitIs(raw, Split(raw));
    forall parts | IsSplit(raw, parts)
      ensures parts == Split(raw)
    {
      SplitIs(raw, parts);
    }
  }

  lemma RawIs(rel: string)
    ensures rel != "" ==> IsRaw(rel, Raw(rel))
    ensures Judged(Raw("")) == Ok([])
  {
    StripCuts(Slashes(rel));
    if rel != "" { assert IsTurned(rel, Slashes(rel)); }
    EmptyIsHere();
  }

  lemma EmptyIsHere()
    ensures Judged(Raw("")) == Ok([])
  {
    ADotStays(".");
    ADotIsHere(".");
  }

  lemma ADotStays(s: string)
    requires |s| == 1 && s[0] == '.'
    ensures Strip(Slashes(s)) == s
  {
    assert Slashes(s) == s;
    assert !IsSpace(s[0]);
  }

  lemma ADotIsHere(s: string)
    requires |s| == 1 && s[0] == '.'
    ensures Judged(s) == Ok([])
  {
    assert s == ".";
    SplitOfOne(s);
    NothingIsKept([s], s);
    DotsDiffer(s);
  }

  lemma DotsDiffer(s: string)
    requires |s| == 1
    ensures ".." !in [s]
  {
    assert |".."| == 2;
  }

  lemma NothingIsKept(parts: seq<string>, p: string)
    requires parts == [p] && p == "."
    ensures Kept(parts) == []
  {
    assert parts[..0] == [];
  }

  // Which refusal, or the names between its slashes.
  ghost predicate IsVerdictOn(raw: string, r: Result<seq<string>, Refusal>) {
    if '\U{0}' in raw then r == Err(NullByte)
    else if IsAbsolute(raw) then r == Err(Absolute)
    else if LeadsOut(raw) then r == Err(Outside)
    else r.Ok? && AreNamesIn(raw, r.value)
  }

  ghost predicate AreNamesIn(raw: string, names: seq<string>) {
    exists parts :: IsSplit(raw, parts) && IsNamesOf(parts, names)
  }

  lemma NamesAreIn(raw: string)
    ensures AreNamesIn(raw, Kept(Split(raw)))
  {
    SplitIs(raw, Split(raw));
    KeptAreNames(Split(raw));
  }

  lemma VerdictIs(raw: string)
    ensures IsVerdictOn(raw, Judged(raw))
  {
    LeadsOutIs(raw);
    NamesAreIn(raw);
  }

  // For every path but the empty one, which is the folder itself: it is refused for a
  // null byte, for being absolute (or on a drive), or for a "..", in that order, and
  // otherwise comes to exactly the names between its slashes.
  lemma WhichPathsPass(rel: string, raw: string)
    requires rel != "" && IsRaw(rel, raw)
    ensures IsVerdictOn(raw, PartsOf(rel))
    ensures PartsOf("") == Ok([])
  {
    OneRaw(rel, raw);
    VerdictIs(raw);
    EmptyIsHere();
  }

  lemma OneRaw(rel: string, raw: string)
    requires rel != "" && IsRaw(rel, raw)
    ensures raw == Raw(rel)
  {
    RawIs(rel);
    var t :| IsTurned(rel, t) && IsStripped(t, raw);
    assert t == Slashes(rel);
    StripCuts(t);
    OneCut(t, raw, Strip(t));
  }

  // And of names: what is left of it without the spaces at its ends is the name, unless
  // it is nothing, not a single name, only dots, or too long.
  lemma WhichNamesPass(name: string, n: string)
    requires IsStripped(name, n)
    ensures NameOf(name) == if IsBad(n) then Err(BadName) else if |n| > 255 then Err(LongName) else Ok(n)
  {
    StripCuts(name);
    OneCut(name, n, Strip(name));
    DotsAre(n);
  }

  predicate IsBad(n: string) { n == "" || '/' in n || '\\' in n || '\U{0}' in n || IsDots(n) }

  predicate IsDots(n: string) { forall i :: 0 <= i < |n| ==> n[i] == '.' }

  lemma DotsAre(n: string)
    ensures OnlyDots(n) <==> IsDots(n)
  {
    forall i | 0 <= i < |n|
      ensures n[i] in n
    {}
    forall c | c in n
      ensures exists i :: 0 <= i < |n| && n[i] == c
    {}
  }

  // An archive fits if it unpacks to no more than there is room for and, unless its
  // size is not known, to no more than 200 times its size or 64 MiB.
  lemma WhatFits(total: nat, archiveSize: nat, limit: nat)
    ensures FitsIn(total, archiveSize, limit) <==>
      total <= limit && (archiveSize > 0 && total > 200 * archiveSize ==> total <= 64 * 1024 * 1024)
  {}

  // What an archive unpacks to is what its members add up to.
  lemma {:induction false} UnpackedIsTheSum(members: seq<Member>, sizes: seq<nat>)
    requires |sizes| == |members| && forall i :: 0 <= i < |members| ==> sizes[i] == members[i].size
    ensures Unpacked(members) == Sum(sizes)
  {
    if members != [] { UnpackedIsTheSum(members[..|members| - 1], sizes[..|sizes| - 1]); }
  }
}
