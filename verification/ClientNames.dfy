// The review's verdicts by what is written in the jars: the names they go by and the
// names they require, with no set of lowered names in between. What is gone is gone
// by a chain of requirements that ends at a renderer.

module ClientNames {
  import opened Prelude
  import opened ClientOverrides

  // A mod id, or a name under `provides`; empty ones name nothing.
  predicate IsNamed(x: Item, n: string) { n != "" && (x.modId == Some(n) || n in x.offers) }

  predicate IsAnonymous(x: Item) { (x.modId.None? || x.modId.value == "") && forall n :: n in x.offers ==> n == "" }

  // What a jar is listed as.
  predicate IsListedAs(x: Item, l: string) {
    if x.name.None? || x.name.value == "" then l == x.fileName else l == x.name.value
  }

  predicate NamesMatch(d: string, n: string, rules: Rules) { rules.lower(d) == rules.lower(n) }

  ghost predicate Requires(r: Item, x: Item, rules: Rules) {
    exists d, n :: d in r.deps && IsNamed(x, n) && NamesMatch(d, n, rules)
  }

  lemma RequiresIs(r: Item, x: Item, rules: Rules)
    ensures Requires(r, x, rules) <==> DepsOf(r, rules) * IdsOf(x, rules) != {}
  {
    if Requires(r, x, rules) {
      var d, n :| d in r.deps && IsNamed(x, n) && NamesMatch(d, n, rules);
      assert rules.lower(d) in DepsOf(r, rules) * IdsOf(x, rules);
    }
    if DepsOf(r, rules) * IdsOf(x, rules) != {} {
      var l :| l in DepsOf(r, rules) * IdsOf(x, rules);
      var d := DepIs(r, l, rules);
      var n := IdIs(x, l, rules);
      assert NamesMatch(d, n, rules);
    }
  }

  lemma DepIs(r: Item, l: string, rules: Rules) returns (d: string)
    requires l in DepsOf(r, rules)
    ensures d in r.deps && rules.lower(d) == l
  {
    d :| d in r.deps && rules.lower(d) == l;
  }

  lemma IdIs(x: Item, l: string, rules: Rules) returns (n: string)
    requires l in IdsOf(x, rules)
    ensures IsNamed(x, n) && rules.lower(n) == l
  {
    if x.modId.Some? && x.modId.value != "" && l == rules.lower(x.modId.value) {
      n := x.modId.value;
    } else {
      n :| n in x.offers && n != "" && rules.lower(n) == l;
    }
  }

  lemma LabelIs(x: Item)
    ensures forall l :: IsListedAs(x, l) <==> l == Label(x)
  {}

  // --- what stays, by name ---------------------------------------------------------------

  // Whatever a staying mod requires by any of its names stays, if it is listed
  // otherwise and is not one no server keeps.
  lemma RequiredNamesStay(before: seq<Item>, after: seq<Item>, gone: set<string>, rules: Rules,
                          r: nat, p: nat, d: string, n: string, l: string)
    requires Applied(before, after, gone, rules) && (forall x :: x in before ==> IsScanned(x))
    requires r < |before| && p < |before| && after[r].verdict.Server?
    requires d in before[r].deps && IsNamed(before[p], n) && NamesMatch(d, n, rules)
    requires IsListedAs(before[r], l) && !IsListedAs(before[p], l)
    ensures after[p].verdict.Server? || after[p].verdict.Keep? <==> !after[p].never
    ensures after[p].never ==> after[r].operator == Some(Allow)
  {
    assert Requires(before[r], before[p], rules);
    RequiresIs(before[r], before[p], rules);
    VerdictsAre(before, after, gone, rules, r);
    VerdictsAre(before, after, gone, rules, p);
    LabelIs(before[r]);
    LabelIs(before[p]);
    RequiredJarsStay(before, after, gone, rules, r, p);
  }

  // Everything else a jar comes out with: the operator's decision on it and the rest
  // of its record; and if it does not remain, it is client-only unless it was under
  // review, undecided, and in need of nothing that is gone.
  lemma WhatElseComesOut(before: seq<Item>, after: seq<Item>, gone: set<string>, rules: Rules, p: nat)
    requires Applied(before, after, gone, rules) && (forall x :: x in before ==> IsScanned(x)) && p < |before|
    ensures var x, y := before[p], after[p];
      && var decision := rules.decide(x.fileName, x.modId, x.projectId);
      && y == x.(verdict := y.verdict, operator := decision, whitelisted := decision == Some(Allow),
                 never := y.never, requiredBy := y.requiredBy)
      && (!Remains(y) ==>
            (y.verdict.Review? <==> x.verdict.Review? && decision.None? && !y.never)
            && (!y.verdict.Review? <==> y.verdict.Client?))
      && (y.requiredBy != {} <==> y.verdict.Keep?)
  {
    var closed := EachClosed(EachSeeded(EachDecided(before, rules), rules), gone, rules);
    ClosedElse(before[p], gone, rules);
    ClosedIs(before[p], gone, rules);
    assert after[p] == Protected(closed[p], SetOf(closed), rules);
  }

  lemma ClosedElse(x: Item, gone: set<string>, rules: Rules)
    requires IsScanned(x)
    ensures var y, decision := Closed(Seeded(Decided(x, rules), rules), gone, rules),
                               rules.decide(x.fileName, x.modId, x.projectId);
      && y == x.(verdict := y.verdict, operator := decision, whitelisted := decision == Some(Allow), never := y.never)
      && (y.verdict.Review? <==> x.verdict.Review? && decision.None? && !y.never)
      && (y.verdict.Review? || y.verdict.Client? || y.verdict.Server?)
  {}

  ghost predicate Protects(r: Item, x: Item, l: string, gone: set<string>, rules: Rules) {
    StaysByItself(r, gone, rules) && Requires(r, x, rules) && IsListedAs(r, l) && !IsListedAs(x, l)
  }

  ghost predicate IsProtectedBy(before: seq<Item>, x: Item, l: string, gone: set<string>, rules: Rules) {
    exists i :: 0 <= i < |before| && Protects(before[i], x, l, gone, rules)
  }

  // A kept jar names exactly the staying jars that require it.
  lemma WhoIsNamed(before: seq<Item>, after: seq<Item>, gone: set<string>, rules: Rules, p: nat, l: string)
    requires Applied(before, after, gone, rules) && (forall x :: x in before ==> IsScanned(x)) && p < |before|
    requires after[p].verdict.Keep?
    ensures l in after[p].requiredBy <==> IsProtectedBy(before, before[p], l, gone, rules)
  {
    var closed := EachClosed(EachSeeded(EachDecided(before, rules), rules), gone, rules);
    ClosedIs(before[p], gone, rules);
    NamedIs(closed[p], SetOf(closed), rules);
    ProtectorsAre(before, closed, gone, rules, p, l);
  }

  lemma NamedIs(x: Item, all: set<Item>, rules: Rules)
    requires !x.verdict.Keep? && Protected(x, all, rules).verdict.Keep?
    ensures Protected(x, all, rules).requiredBy == Protectors(x, all, rules)
  {}

  lemma ProtectorsAre(before: seq<Item>, closed: seq<Item>, gone: set<string>, rules: Rules, p: nat, l: string)
    requires ClosesTo(before, closed, gone, rules) && p < |before|
    ensures l in Protectors(closed[p], SetOf(closed), rules) <==> IsProtectedBy(before, before[p], l, gone, rules)
  {
    if IsProtectedBy(before, before[p], l, gone, rules) {
      var i: nat :| i < |before| && Protects(before[i], before[p], l, gone, rules);
      ProtectsIs(before, closed, gone, rules, i, p, l);
      assert closed[i] in SetOf(closed);
    }
    if l in Protectors(closed[p], SetOf(closed), rules) {
      var r :| r in SetOf(closed) && Votes(r, closed[p], rules) && Label(r) == l;
      var i: nat :| i < |closed| && closed[i] == r;
      ProtectsIs(before, closed, gone, rules, i, p, l);
    }
  }

  lemma ProtectsIs(before: seq<Item>, closed: seq<Item>, gone: set<string>, rules: Rules, i: nat, p: nat, l: string)
    requires ClosesTo(before, closed, gone, rules) && i < |before| && p < |before|
    ensures Protects(before[i], before[p], l, gone, rules) <==>
      Votes(closed[i], closed[p], rules) && Label(closed[i]) == l && Label(closed[p]) != l
  {
    ClosedIs(before[i], gone, rules);
    ClosedIs(before[p], gone, rules);
    RequiresIs(before[i], before[p], rules);
    LabelIs(before[i]);
    LabelIs(before[p]);
  }

  // --- what is gone, by chains of requirements ----------------------------------------------

  // A renderer the operator did not allow.
  predicate IsRenderer(x: Item, rules: Rules) {
    rules.renderer(x.modId, x.fileName).Some? && rules.decide(x.fileName, x.modId, x.projectId) != Some(Allow)
  }

  // A jar that goes if what it requires goes: undecided, and not client already.
  predicate MayFall(x: Item, rules: Rules) {
    rules.decide(x.fileName, x.modId, x.projectId).None? && x.verdict != Client
  }

  // The name `l`, in lower case, goes with a jar; a renderer with no name of its own
  // goes by the one it is known by.
  ghost predicate GoesBy(x: Item, l: string, rules: Rules) { exists n :: IsNamed(x, n) && rules.lower(n) == l }

  ghost predicate RendererGoesBy(x: Item, l: string, rules: Rules)
    requires IsRenderer(x, rules)
  {
    || GoesBy(x, l, rules)
    || (IsAnonymous(x) && l == rules.lower(rules.renderer(x.modId, x.fileName).value))
  }

  // Along `path`: a renderer, then each jar requires a name of the one before it, and
  // `l` is a name of the last.
  ghost predicate Falls(items: seq<Item>, path: seq<nat>, l: string, rules: Rules)
    decreases |path|
  {
    && path != [] && path[|path| - 1] < |items|
    && var x := items[path[|path| - 1]];
    if |path| == 1 then IsRenderer(x, rules) && RendererGoesBy(x, l, rules)
    else
      && MayFall(x, rules) && GoesBy(x, l, rules)
      && exists d :: d in x.deps && Falls(items, path[..|path| - 1], rules.lower(d), rules)
  }

  ghost predicate HasFallen(items: seq<Item>, l: string, rules: Rules) { exists path :: Falls(items, path, l, rules) }

  lemma GoesByIs(x: Item, l: string, rules: Rules)
    ensures GoesBy(x, l, rules) <==> l in IdsOf(x, rules)
  {
    if l in IdsOf(x, rules) { var n := IdIs(x, l, rules); }
  }

  lemma AnonymousIs(x: Item, rules: Rules)
    ensures IsAnonymous(x) <==> IdsOf(x, rules) == {}
  {
    if !IsAnonymous(x) {
      var n := if x.modId.Some? && x.modId.value != "" then x.modId.value else var o :| o in x.offers && o != ""; o;
      assert rules.lower(n) in IdsOf(x, rules);
    }
  }

  lemma SeedNames(x: Item, rules: Rules)
    requires IsScanned(x)
    ensures IsSeed(Decided(x, rules), rules) <==> IsRenderer(x, rules)
    ensures IsRenderer(x, rules) ==>
      forall l :: l in SeedIds(Decided(x, rules), rules) <==> RendererGoesBy(x, l, rules)
  {
    AnonymousIs(x, rules);
    if IsRenderer(x, rules) {
      forall l
        ensures l in SeedIds(Decided(x, rules), rules) <==> RendererGoesBy(x, l, rules)
      {
        GoesByIs(x, l, rules);
        assert IdsOf(Decided(x, rules), rules) == IdsOf(x, rules);
      }
    }
  }

  // `seeded` is the scan once the operator and the renderers have been seen to.
  ghost predicate SeedsTo(before: seq<Item>, decided: seq<Item>, seeded: seq<Item>, rules: Rules) {
    && (forall x :: x in before ==> IsScanned(x))
    && decided == EachDecided(before, rules) && seeded == EachSeeded(decided, rules)
  }

  lemma NeedsIs(x: Item, gone: set<string>, rules: Rules)
    requires IsScanned(x)
    ensures var y := Seeded(Decided(x, rules), rules);
      && DepsOf(y, rules) == DepsOf(x, rules) && IdsOf(y, rules) == IdsOf(x, rules)
      && (Needs(y, gone, rules) <==>
            MayFall(x, rules) && !IsRenderer(x, rules) && DepsOf(x, rules) * gone != {})
  {}

  // A name some chain leads to is gone.
  lemma {:induction false} FallenIsGone(before: seq<Item>, decided: seq<Item>, seeded: seq<Item>,
                                        gone: set<string>, rules: Rules, path: seq<nat>, l: string)
    requires SeedsTo(before, decided, seeded, rules) && Falls(before, path, l, rules)
    requires IsLeast(SetOf(seeded), SeedsOf(SetOf(decided), rules), gone, rules)
    ensures l in gone
    decreases |path|
  {
    var p := path[|path| - 1];
    if |path| == 1 {
      RendererIsGone(before, decided, seeded, gone, rules, p, l);
    } else {
      var d :| d in before[p].deps && Falls(before, path[..|path| - 1], rules.lower(d), rules);
      FallenIsGone(before, decided, seeded, gone, rules, path[..|path| - 1], rules.lower(d));
      assert rules.lower(d) in DepsOf(before[p], rules) * gone;
      RequirerIsGone(before, decided, seeded, gone, rules, p, l);
    }
  }

  lemma RendererIsGone(before: seq<Item>, decided: seq<Item>, seeded: seq<Item>, gone: set<string>, rules: Rules,
                       p: nat, l: string)
    requires SeedsTo(before, decided, seeded, rules) && p < |before|
    requires IsLeast(SetOf(seeded), SeedsOf(SetOf(decided), rules), gone, rules)
    requires IsRenderer(before[p], rules) && RendererGoesBy(before[p], l, rules)
    ensures l in gone
  {
    SeedNames(before[p], rules);
    assert decided[p] in SetOf(decided);
    assert l in SeedsOf(SetOf(decided), rules);
  }

  lemma RequirerIsGone(before: seq<Item>, decided: seq<Item>, seeded: seq<Item>, gone: set<string>, rules: Rules,
                       p: nat, l: string)
    requires SeedsTo(before, decided, seeded, rules) && p < |before|
    requires IsLeast(SetOf(seeded), SeedsOf(SetOf(decided), rules), gone, rules)
    requires MayFall(before[p], rules) && GoesBy(before[p], l, rules) && DepsOf(before[p], rules) * gone != {}
    ensures l in gone
  {
    if IsRenderer(before[p], rules) {
      RendererIsGone(before, decided, seeded, gone, rules, p, l);
    } else {
      NeedsIs(before[p], gone, rules);
      GoesByIs(before[p], l, rules);
      assert seeded[p] in SetOf(seeded);
    }
  }

  lemma SeedsHaveFallen(before: seq<Item>, decided: seq<Item>, seeded: seq<Item>, rules: Rules, l: string)
    requires SeedsTo(before, decided, seeded, rules) && l in SeedsOf(SetOf(decided), rules)
    ensures HasFallen(before, l, rules)
  {
    var x :| x in SetOf(decided) && IsSeed(x, rules) && l in SeedIds(x, rules);
    var p: nat :| p < |decided| && decided[p] == x;
    assert before[p] in before;
    SeedNames(before[p], rules);
    assert Falls(before, [p], l, rules);
  }

  lemma OneMoreFalls(before: seq<Item>, rules: Rules, p: nat, d: string, l: string)
    requires p < |before| && MayFall(before[p], rules) && GoesBy(before[p], l, rules)
    requires d in before[p].deps && HasFallen(before, rules.lower(d), rules)
    ensures HasFallen(before, l, rules)
  {
    var path :| Falls(before, path, rules.lower(d), rules);
    assert (path + [p])[..|path|] == path;
    assert Falls(before, path + [p], l, rules);
  }

  // The fallen among the names gone are closed already.
  lemma FallenAreClosed(before: seq<Item>, decided: seq<Item>, seeded: seq<Item>, gone: set<string>, rules: Rules)
    requires SeedsTo(before, decided, seeded, rules)
    requires IsLeast(SetOf(seeded), SeedsOf(SetOf(decided), rules), gone, rules)
    ensures IsClosed(SetOf(seeded), (set l | l in gone && HasFallen(before, l, rules)), rules)
  {
    var fallen := set l | l in gone && HasFallen(before, l, rules);
    forall y | y in SetOf(seeded) && Needs(y, fallen, rules)
      ensures IdsOf(y, rules) <= fallen
    {
      var p: nat :| p < |seeded| && seeded[p] == y;
      assert before[p] in before;
      FallenTakesNames(before, seeded, gone, fallen, rules, p);
    }
  }

  lemma FallenTakesNames(before: seq<Item>, seeded: seq<Item>, gone: set<string>, fallen: set<string>, rules: Rules,
                         p: nat)
    requires p < |before| == |seeded| && IsScanned(before[p]) && seeded[p] == Seeded(Decided(before[p], rules), rules)
    requires fallen == (set l | l in gone && HasFallen(before, l, rules))
    requires Needs(seeded[p], fallen, rules) && seeded[p] in SetOf(seeded) && IsClosed(SetOf(seeded), gone, rules)
    ensures IdsOf(seeded[p], rules) <= fallen
  {
    NeedsIs(before[p], fallen, rules);
    NeedsIs(before[p], gone, rules);
    var need :| need in DepsOf(before[p], rules) * fallen;
    assert need in DepsOf(before[p], rules) * gone;
    var d := DepIs(before[p], need, rules);
    forall l | l in IdsOf(seeded[p], rules)
      ensures l in fallen
    {
      GoesByIs(before[p], l, rules);
      OneMoreFalls(before, rules, p, d, l);
    }
  }

  // For every scan: a name is gone if and only if a chain of requirements leads from a
  // renderer to a jar that goes by it.
  lemma GoneByAChain(before: seq<Item>, after: seq<Item>, gone: set<string>, rules: Rules, l: string)
    requires Applied(before, after, gone, rules) && forall x :: x in before ==> IsScanned(x)
    ensures l in gone <==> HasFallen(before, l, rules)
  {
    var decided := EachDecided(before, rules);
    var seeded := EachSeeded(decided, rules);
    if HasFallen(before, l, rules) {
      var path :| Falls(before, path, l, rules);
      FallenIsGone(before, decided, seeded, gone, rules, path, l);
    }
    if l in gone {
      var fallen := set n | n in gone && HasFallen(before, n, rules);
      FallenAreClosed(before, decided, seeded, gone, rules);
      forall n | n in SeedsOf(SetOf(decided), rules)
        ensures n in fallen
      {
        SeedsHaveFallen(before, decided, seeded, rules, n);
      }
      assert gone <= fallen;
    }
  }
}
