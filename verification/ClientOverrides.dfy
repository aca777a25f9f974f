// The last word on which mods a server keeps (app/clientscan.py, apply_overrides):
// the operator's decisions, the renderers no server keeps and everything that
// hard-requires them, and the protection of what a staying mod requires.

module ClientOverrides {
  import opened Prelude

  datatype Verdict = Client | Review | Keep | Server

  datatype Decision = Allow | Block

  // One jar as the scan left it; `never` is never_on_server, `requiredBy` who
  // protects it.
  datatype Item = Item(
    fileName: string, name: Option<string>, modId: Option<string>, projectId: Option<string>,
    offers: seq<string>, deps: seq<string>,
    verdict: Verdict, operator: Option<Decision>, whitelisted: bool, never: bool, requiredBy: set<string>)

  // What the pass asks of the rest of the program: the operator's list, the names
  // of renderers, and lower case.
  datatype Rules = Rules(
    decide: (string, Option<string>, Option<string>) -> Option<Decision>,
    renderer: (Option<string>, string) -> Option<string>,
    lower: string -> string)

  function IdsOf(x: Item, rules: Rules): set<string> {
    (if x.modId.Some? && x.modId.value != "" then {rules.lower(x.modId.value)} else {})
    + (set p | p in x.offers && p != "" :: rules.lower(p))
  }

  function DepsOf(x: Item, rules: Rules): set<string> {
    set d | d in x.deps :: rules.lower(d)
  }

  function Label(x: Item): string { if x.name.Some? && x.name.value != "" then x.name.value else x.fileName }

  predicate IsAllowed(x: Item) { x.operator == Some(Allow) }

  // --- the passes, one item at a time ------------------------------------------------

  function Decided(x: Item, rules: Rules): Item {
    match rules.decide(x.fileName, x.modId, x.projectId)
    case None => x
    case Some(Block) => x.(operator := Some(Block), verdict := Client)
    case Some(Allow) => x.(operator := Some(Allow), verdict := Server, whitelisted := true)
  }

  predicate IsSeed(x: Item, rules: Rules) {
    rules.renderer(x.modId, x.fileName).Some? && !IsAllowed(x)
  }

  function Off(x: Item): Item { x.(verdict := Client, never := true) }

  function Seeded(x: Item, rules: Rules): Item { if IsSeed(x, rules) then Off(x) else x }

  function SeedIds(x: Item, rules: Rules): set<string>
    requires IsSeed(x, rules)
  {
    if IdsOf(x, rules) != {} then IdsOf(x, rules) else {rules.lower(rules.renderer(x.modId, x.fileName).value)}
  }

  // Neither allowed by the operator nor client already.
  predicate IsOpen(x: Item) { !x.verdict.Client? && !IsAllowed(x) }

  predicate Needs(x: Item, gone: set<string>, rules: Rules) { IsOpen(x) && DepsOf(x, rules) * gone != {} }

  function Closed(x: Item, gone: set<string>, rules: Rules): Item { if Needs(x, gone, rules) then Off(x) else x }

  predicate Votes(r: Item, x: Item, rules: Rules) {
    r.verdict.Server? && DepsOf(r, rules) * IdsOf(x, rules) != {}
  }

  function Protectors(x: Item, all: set<Item>, rules: Rules): set<string> {
    (set r | r in all && Votes(r, x, rules) :: Label(r)) - {Label(x)}
  }

  predicate MayBeKept(x: Item) { !x.verdict.Server? && !x.whitelisted && !x.never }

  function Protected(x: Item, all: set<Item>, rules: Rules): Item {
    if MayBeKept(x) && Protectors(x, all, rules) != {} then x.(verdict := Keep, requiredBy := Protectors(x, all, rules))
    else x
  }

  // --- the least fixpoint ----------------------------------------------------------------

  function SeedsOf(all: set<Item>, rules: Rules): set<string> {
    set x, id | x in all && IsSeed(x, rules) && id in SeedIds(x, rules) :: id
  }

  // Whoever needs a name that is gone takes its own names with it.
  ghost predicate IsClosed(all: set<Item>, gone: set<string>, rules: Rules) {
    forall x :: x in all && Needs(x, gone, rules) ==> IdsOf(x, rules) <= gone
  }

  ghost predicate IsLeast(all: set<Item>, seeds: set<string>, gone: set<string>, rules: Rules) {
    && seeds <= gone && IsClosed(all, gone, rules)
    && forall more: set<string> :: seeds <= more && IsClosed(all, more, rules) ==> gone <= more
  }

  lemma OneLeast(all: set<Item>, seeds: set<string>, gone: set<string>, gone': set<string>, rules: Rules)
    requires IsLeast(all, seeds, gone, rules) && IsLeast(all, seeds, gone', rules)
    ensures gone == gone'
  {}

  function SetOf(items: seq<Item>): set<Item> { set x | x in items }

  function EachDecided(items: seq<Item>, rules: Rules): (r: seq<Item>)
    ensures |r| == |items| && forall i :: 0 <= i < |items| ==> r[i] == Decided(items[i], rules)
  {
    seq(|items|, i requires 0 <= i < |items| => Decided(items[i], rules))
  }

  function EachSeeded(items: seq<Item>, rules: Rules): (r: seq<Item>)
    ensures |r| == |items| && forall i :: 0 <= i < |items| ==> r[i] == Seeded(items[i], rules)
  {
    seq(|items|, i requires 0 <= i < |items| => Seeded(items[i], rules))
  }

  function EachClosed(items: seq<Item>, gone: set<string>, rules: Rules): (r: seq<Item>)
    ensures |r| == |items| && forall i :: 0 <= i < |items| ==> r[i] == Closed(items[i], gone, rules)
  {
    seq(|items|, i requires 0 <= i < |items| => Closed(items[i], gone, rules))
  }

  function EachProtected(items: seq<Item>, all: set<Item>, rules: Rules): (r: seq<Item>)
    ensures |r| == |items| && forall i :: 0 <= i < |items| ==> r[i] == Protected(items[i], all, rules)
  {
    seq(|items|, i requires 0 <= i < |items| => Protected(items[i], all, rules))
  }

  // What the whole pass makes of a scan, with `gone` the names it came to.
  ghost predicate Applied(before: seq<Item>, after: seq<Item>, gone: set<string>, rules: Rules) {
    var decided := EachDecided(before, rules);
    var seeded := EachSeeded(decided, rules);
    var closed := EachClosed(seeded, gone, rules);
    && IsLeast(SetOf(seeded), SeedsOf(SetOf(decided), rules), gone, rules)
    && after == EachProtected(closed, SetOf(closed), rules)
  }

  // A fresh scan: nothing decided, protected or switched off yet.
  predicate IsScanned(x: Item) {
    !x.verdict.Keep? && x.operator.None? && !x.whitelisted && !x.never && x.requiredBy == {}
  }

  // --- what it promises --------------------------------------------------------------------

  lemma SameSets(a: seq<Item>, b: seq<Item>, f: Item -> Item, fa: seq<Item>, fb: seq<Item>)
    requires SetOf(a) == SetOf(b) && |fa| == |a| && |fb| == |b|
    requires forall i :: 0 <= i < |a| ==> fa[i] == f(a[i])
    requires forall i :: 0 <= i < |b| ==> fb[i] == f(b[i])
    ensures SetOf(fa) == SetOf(fb)
  {
    forall x | x in fa
      ensures x in fb
    {
      var i :| 0 <= i < |a| && fa[i] == x;
      assert a[i] in SetOf(a);
      var j :| 0 <= j < |b| && b[j] == a[i];
      assert fb[j] == x;
    }
    forall x | x in fb
      ensures x in fa
    {
      var i :| 0 <= i < |b| && fb[i] == x;
      assert b[i] in SetOf(b);
      var j :| 0 <= j < |a| && a[j] == b[i];
      assert fa[j] == x;
    }
  }

  // The order of the jars does not matter: in any other order (or with some of
  // them listed twice) every jar comes out the same.
  lemma OrderDoesNotMatter(before: seq<Item>, after: seq<Item>, gone: set<string>,
                           before': seq<Item>, after': seq<Item>, gone': set<string>, rules: Rules, i: nat, j: nat)
    requires Applied(before, after, gone, rules) && Applied(before', after', gone', rules)
    requires SetOf(before) == SetOf(before') && i < |before| && j < |before'| && before[i] == before'[j]
    ensures gone == gone' && after[i] == after'[j]
  {
    var decided, decided' := EachDecided(before, rules), EachDecided(before', rules);
    var seeded, seeded' := EachSeeded(decided, rules), EachSeeded(decided', rules);
    SameSets(before, before', x => Decided(x, rules), decided, decided');
    SameSets(decided, decided', x => Seeded(x, rules), seeded, seeded');
    OneLeast(SetOf(seeded), SeedsOf(SetOf(decided), rules), gone, gone', rules);
    var closed, closed' := EachClosed(seeded, gone, rules), EachClosed(seeded', gone, rules);
    SameSets(seeded, seeded', x => Closed(x, gone, rules), closed, closed');
  }

  // Every name of a jar that is switched off is gone.
  lemma OffIsGone(decided: seq<Item>, seeded: seq<Item>, gone: set<string>, rules: Rules, p: nat)
    requires p < |decided| && seeded == EachSeeded(decided, rules) && !decided[p].never
    requires IsLeast(SetOf(seeded), SeedsOf(SetOf(decided), rules), gone, rules)
    requires Closed(seeded[p], gone, rules).never
    ensures IdsOf(decided[p], rules) <= gone
  {
    assert seeded[p] in SetOf(seeded) && decided[p] in SetOf(decided);
    if IsSeed(decided[p], rules) {
      forall id | id in IdsOf(decided[p], rules)
        ensures id in gone
      {
        assert id in SeedIds(decided[p], rules);
        assert id in SeedsOf(SetOf(decided), rules);
      }
    }
  }

  // --- every verdict, from the scan and the operator's list ---------------------------

  function DecisionOn(x: Item, rules: Rules): Option<Decision> { rules.decide(x.fileName, x.modId, x.projectId) }

  // A scanned jar that stays of its own: allowed, or found fit for a server, not
  // blocked, no renderer and in need of none.
  predicate StaysByItself(x: Item, gone: set<string>, rules: Rules) {
    match DecisionOn(x, rules)
    case Some(decision) => decision.Allow?
    case None => x.verdict.Server? && rules.renderer(x.modId, x.fileName).None? && DepsOf(x, rules) * gone == {}
  }

  // One no server keeps: a renderer, or in need of one, and not allowed.
  predicate NeverStays(x: Item, gone: set<string>, rules: Rules) {
    && DecisionOn(x, rules) != Some(Allow)
    && (rules.renderer(x.modId, x.fileName).Some?
        || (DecisionOn(x, rules).None? && !x.verdict.Client? && DepsOf(x, rules) * gone != {}))
  }

  // One that a jar of another name, staying of its own, requires.
  ghost predicate IsWanted(x: Item, before: seq<Item>, gone: set<string>, rules: Rules) {
    exists i :: 0 <= i < |before| && Wants(before[i], x, gone, rules)
  }

  predicate Wants(r: Item, x: Item, gone: set<string>, rules: Rules) {
    StaysByItself(r, gone, rules) && DepsOf(r, rules) * IdsOf(x, rules) != {} && Label(r) != Label(x)
  }

  lemma ClosedIs(x: Item, gone: set<string>, rules: Rules)
    requires IsScanned(x)
    ensures var y := Closed(Seeded(Decided(x, rules), rules), gone, rules);
      && (y.verdict.Server? <==> StaysByItself(x, gone, rules))
      && (y.never <==> NeverStays(x, gone, rules))
      && (y.whitelisted ==> y.verdict.Server?) && !y.verdict.Keep?
      && DepsOf(y, rules) == DepsOf(x, rules) && IdsOf(y, rules) == IdsOf(x, rules) && Label(y) == Label(x)
  {}

  // `closed` is the scan, item by item, once the closure is done.
  ghost predicate ClosesTo(before: seq<Item>, closed: seq<Item>, gone: set<string>, rules: Rules) {
    && |before| == |closed|
    && (forall i :: 0 <= i < |before| ==> IsScanned(before[i]))
    && (forall i :: 0 <= i < |before| ==> closed[i] == Closed(Seeded(Decided(before[i], rules), rules), gone, rules))
  }

  lemma WantedIsProtected(before: seq<Item>, closed: seq<Item>, gone: set<string>, rules: Rules, i: nat, p: nat)
    requires ClosesTo(before, closed, gone, rules) && i < |before| && p < |before|
    ensures Wants(before[i], before[p], gone, rules) <==>
      Votes(closed[i], closed[p], rules) && Label(closed[i]) != Label(closed[p])
  {
    ClosedIs(before[i], gone, rules);
    ClosedIs(before[p], gone, rules);
  }

  lemma ProtectedExactlyWhenWanted(before: seq<Item>, closed: seq<Item>, gone: set<string>, rules: Rules, p: nat)
    requires ClosesTo(before, closed, gone, rules) && p < |before|
    ensures Protectors(closed[p], SetOf(closed), rules) != {} <==> IsWanted(before[p], before, gone, rules)
  {
    if IsWanted(before[p], before, gone, rules) {
      var i :| 0 <= i < |before| && Wants(before[i], before[p], gone, rules);
      WantedIsProtected(before, closed, gone, rules, i, p);
      assert closed[i] in SetOf(closed);
      assert Label(closed[i]) in Protectors(closed[p], SetOf(closed), rules);
    }
    if Protectors(closed[p], SetOf(closed), rules) != {} {
      var l :| l in Protectors(closed[p], SetOf(closed), rules);
      var r :| r in SetOf(closed) && Votes(r, closed[p], rules) && Label(r) == l;
      var i :| 0 <= i < |closed| && closed[i] == r;
      WantedIsProtected(before, closed, gone, rules, i, p);
    }
  }

  // Every verdict: a jar is left on as fit for a server exactly when it stays of its
  // own, kept exactly when it does not but is wanted and may stay, and off otherwise.
  lemma VerdictsAre(before: seq<Item>, after: seq<Item>, gone: set<string>, rules: Rules, p: nat)
    requires Applied(before, after, gone, rules) && (forall x :: x in before ==> IsScanned(x)) && p < |before|
    ensures var x := before[p];
      && (after[p].verdict.Server? <==> StaysByItself(x, gone, rules))
      && (after[p].verdict.Keep? <==>
            !StaysByItself(x, gone, rules) && !NeverStays(x, gone, rules) && IsWanted(x, before, gone, rules))
      && (after[p].never <==> NeverStays(x, gone, rules))
      && DepsOf(after[p], rules) == DepsOf(x, rules) && IdsOf(after[p], rules) == IdsOf(x, rules)
      && Label(after[p]) == Label(x)
  {
    var closed := EachClosed(EachSeeded(EachDecided(before, rules), rules), gone, rules);
    ClosedIs(before[p], gone, rules);
    ProtectedExactlyWhenWanted(before, closed, gone, rules, p);
  }

  // Afterwards, whatever a staying mod hard-requires from a jar of another name
  // stays too -- unless that jar is one no server keeps, which a staying mod can
  // only require when the operator allowed it.
  lemma RequiredJarsStay(before: seq<Item>, after: seq<Item>, gone: set<string>, rules: Rules, r: nat, p: nat)
    requires Applied(before, after, gone, rules) && (forall x :: x in before ==> IsScanned(x))
    requires r < |before| && p < |before| && after[r].verdict.Server?
    requires DepsOf(after[r], rules) * IdsOf(after[p], rules) != {} && Label(after[r]) != Label(after[p])
    ensures after[p].verdict.Server? || after[p].verdict.Keep? <==> !after[p].never
    ensures after[p].never ==> after[r].operator == Some(Allow)
  {
    VerdictsAre(before, after, gone, rules, r);
    VerdictsAre(before, after, gone, rules, p);
    assert Wants(before[r], before[p], gone, rules);
    if after[p].never { NeedsNothingGone(before, after, gone, rules, r, p); }
  }

  lemma NeedsNothingGone(before: seq<Item>, after: seq<Item>, gone: set<string>, rules: Rules, r: nat, p: nat)
    requires Applied(before, after, gone, rules) && (forall x :: x in before ==> IsScanned(x))
    requires r < |before| && p < |before| && StaysByItself(before[r], gone, rules) && NeverStays(before[p], gone, rules)
    requires DepsOf(before[r], rules) * IdsOf(before[p], rules) != {}
    ensures DecisionOn(before[r], rules) == Some(Allow) && after[r].operator == Some(Allow)
  {
    var decided := EachDecided(before, rules);
    var seeded := EachSeeded(decided, rules);
    ClosedIs(before[p], gone, rules);
    OffIsGone(decided, seeded, gone, rules, p);
    var d :| d in DepsOf(before[r], rules) * IdsOf(before[p], rules);
    assert d in DepsOf(before[r], rules) * gone;
  }

  predicate Remains(x: Item) { x.verdict.Server? || x.verdict.Keep? }

  // A jar remains if and only if it stays of its own, or it may stay and some jar that
  // stays of its own, not called what it is, requires it.
  lemma WhatRemains(before: seq<Item>, after: seq<Item>, gone: set<string>, rules: Rules, p: nat)
    requires Applied(before, after, gone, rules) && (forall x :: x in before ==> IsScanned(x)) && p < |before|
    ensures Remains(after[p]) <==>
      || StaysByItself(before[p], gone, rules)
      || (!NeverStays(before[p], gone, rules) && IsWanted(before[p], before, gone, rules))
  {
    VerdictsAre(before, after, gone, rules, p);
  }

  // --- a kept jar protects nobody --------------------------------------------------------

  lemma LeastWithout(all: set<Item>, fewer: set<Item>, x: Item, seeds: set<string>, gone: set<string>, rules: Rules)
    requires IsLeast(all, seeds, gone, rules) && all == fewer + {x} && !Needs(x, gone, rules)
    ensures IsLeast(fewer, seeds, gone, rules)
  {
    forall more: set<string> | seeds <= more && IsClosed(fewer, more, rules)
      ensures gone <= more
    {
      CommonIsClosed(all, fewer, x, gone, more, rules);
      assert gone <= more * gone;
    }
  }

  lemma CommonIsClosed(all: set<Item>, fewer: set<Item>, x: Item, gone: set<string>, more: set<string>, rules: Rules)
    requires all == fewer + {x} && !Needs(x, gone, rules)
    requires IsClosed(all, gone, rules) && IsClosed(fewer, more, rules)
    ensures IsClosed(all, more * gone, rules)
  {
    forall y | y in all && Needs(y, more * gone, rules)
      ensures IdsOf(y, rules) <= more * gone
    {
      var d :| d in DepsOf(y, rules) * (more * gone);
      assert d in DepsOf(y, rules) * gone && d in DepsOf(y, rules) * more;
    }
  }

  lemma SeedsWithout(all: set<Item>, fewer: set<Item>, x: Item, rules: Rules)
    requires all == fewer + {x} && !IsSeed(x, rules)
    ensures SeedsOf(all, rules) == SeedsOf(fewer, rules)
  {}

  lemma ProtectorsWithout(y: Item, all: set<Item>, fewer: set<Item>, x: Item, rules: Rules)
    requires all == fewer + {x} && !x.verdict.Server?
    ensures Protectors(y, all, rules) == Protectors(y, fewer, rules)
  {}

  lemma SetsWithout(a: seq<Item>, b: seq<Item>, x: Item, f: Item -> Item, fa: seq<Item>, fb: seq<Item>)
    requires SetOf(a) == SetOf(b) + {x} && |fa| == |a| && |fb| == |b|
    requires forall i :: 0 <= i < |a| ==> fa[i] == f(a[i])
    requires forall i :: 0 <= i < |b| ==> fb[i] == f(b[i])
    ensures SetOf(fa) == SetOf(fb) + {f(x)}
  {
    var bx, fbx := b + [x], fb + [f(x)];
    assert SetOf(bx) == SetOf(b) + {x};
    assert SetOf(fbx) == SetOf(fb) + {f(x)};
    SameSets(a, bx, f, fa, fbx);
  }

  // What a kept jar requires is not protected on its account, nor is it switched off:
  // with the jar out of the scan, every other jar comes out the same.
  lemma AKeptJarMakesNoDifference(before: seq<Item>, after: seq<Item>, gone: set<string>, r: nat,
                                  before': seq<Item>, after': seq<Item>, gone': set<string>,
                                  rules: Rules, p: nat, p': nat)
    requires Applied(before, after, gone, rules) && Applied(before', after', gone', rules)
    requires forall x :: x in before ==> IsScanned(x)
    requires r < |before| && after[r].verdict.Keep? && SetOf(before) == SetOf(before') + {before[r]}
    requires p < |before| && p' < |before'| && before[p] == before'[p']
    ensures gone == gone' && after[p] == after'[p']
  {
    var x := before[r];
    var decided, decided' := EachDecided(before, rules), EachDecided(before', rules);
    var seeded, seeded' := EachSeeded(decided, rules), EachSeeded(decided', rules);
    var closed, closed' := EachClosed(seeded, gone, rules), EachClosed(seeded', gone, rules);
    SetsWithout(before, before', x, y => Decided(y, rules), decided, decided');
    SetsWithout(decided, decided', decided[r], y => Seeded(y, rules), seeded, seeded');
    SetsWithout(seeded, seeded', seeded[r], y => Closed(y, gone, rules), closed, closed');
    KeptIsInert(before, after, gone, rules, r);
    SeedsWithout(SetOf(decided), SetOf(decided'), decided[r], rules);
    LeastWithout(SetOf(seeded), SetOf(seeded'), seeded[r], SeedsOf(SetOf(decided), rules), gone, rules);
    OneLeast(SetOf(seeded'), SeedsOf(SetOf(decided'), rules), gone, gone', rules);
    ProtectorsWithout(closed[p], SetOf(closed), SetOf(closed'), closed[r], rules);
  }

  // A kept jar is no renderer, needs none, and has no vote.
  lemma KeptIsInert(before: seq<Item>, after: seq<Item>, gone: set<string>, rules: Rules, r: nat)
    requires Applied(before, after, gone, rules) && (forall x :: x in before ==> IsScanned(x))
    requires r < |before| && after[r].verdict.Keep?
    ensures var decided := Decided(before[r], rules);
      && !IsSeed(decided, rules)
      && !Needs(Seeded(decided, rules), gone, rules)
      && !Closed(Seeded(decided, rules), gone, rules).verdict.Server?
  {
    VerdictsAre(before, after, gone, rules, r);
    ClosedIs(before[r], gone, rules);
  }

  // --- a blocked jar ------------------------------------------------------------------------

  // A jar the operator blocked is kept, for all that, if and only if it is no renderer
  // and some jar of another name that stays of its own requires it.
  lemma ABlockedJarIsKept(before: seq<Item>, after: seq<Item>, gone: set<string>, rules: Rules, p: nat)
    requires Applied(before, after, gone, rules) && (forall x :: x in before ==> IsScanned(x)) && p < |before|
    requires DecisionOn(before[p], rules) == Some(Block)
    ensures !after[p].verdict.Server?
    ensures after[p].verdict.Keep? <==>
      rules.renderer(before[p].modId, before[p].fileName).None? && IsWanted(before[p], before, gone, rules)
  {
    VerdictsAre(before, after, gone, rules, p);
  }

  // A blocked b that a requires.
  const BlockB := Rules((f, m, p) => if f == "b" then Some(Block) else None, (m, f) => None, s => s)

  function BlockedB(): Item { JarB.(operator := Some(Block), verdict := Client) }

  lemma BIsBlocked()
    ensures EachDecided([JarA, JarB], BlockB) == [JarA, BlockedB()]
    ensures EachSeeded([JarA, BlockedB()], BlockB) == [JarA, BlockedB()]
    ensures EachClosed([JarA, BlockedB()], {}, BlockB) == [JarA, BlockedB()]
    ensures IsLeast(SetOf([JarA, BlockedB()]), SeedsOf(SetOf([JarA, BlockedB()]), BlockB), {}, BlockB)
  {
    assert "a"[0] == 'a' && "b"[0] == 'b';
  }

  lemma BIsWanted()
    ensures Protected(JarA, {JarA, BlockedB()}, BlockB) == JarA
    ensures Protected(BlockedB(), {JarA, BlockedB()}, BlockB) == BlockedB().(verdict := Keep, requiredBy := {"a"})
  {
    assert "a"[0] == 'a' && "b"[0] == 'b';
    assert IdsOf(BlockedB(), BlockB) == {"b"} && DepsOf(JarA, BlockB) == {"b"};
    assert "b" in DepsOf(JarA, BlockB) * IdsOf(BlockedB(), BlockB);
    assert Votes(JarA, BlockedB(), BlockB) && !Votes(BlockedB(), BlockedB(), BlockB);
    assert Protectors(BlockedB(), {JarA, BlockedB()}, BlockB) == {"a"};
  }

  lemma ABlockedJarStaysOn() returns (after: seq<Item>)
    ensures Applied([JarA, JarB], after, {}, BlockB) && IsScanned(JarA) && IsScanned(JarB)
    ensures |after| == 2 && after[1].operator == Some(Block) && after[1].verdict.Keep?
  {
    BIsBlocked();
    BIsWanted();
    assert SetOf([JarA, BlockedB()]) == {JarA, BlockedB()};
    after := EachProtected([JarA, BlockedB()], {JarA, BlockedB()}, BlockB);
  }

  // So what a kept jar requires can go: here a requires b, b requires c, and c,
  // scanned as client-only, is switched off under the b that is kept.
  function Jar(name: string, deps: seq<string>, verdict: Verdict): Item {
    Item(name, None, Some(name), None, [], deps, verdict, None, false, false, {})
  }

  const NoRules := Rules((f, m, p) => None, (m, f) => None, s => s)

  const JarA := Jar("a", ["b"], Server)
  const JarB := Jar("b", ["c"], Review)
  const JarC := Jar("c", [], Client)

  lemma JarIs(name: string, deps: seq<string>, verdict: Verdict)
    requires name != ""
    ensures var x := Jar(name, deps, verdict);
      IdsOf(x, NoRules) == {name} && DepsOf(x, NoRules) == (set d | d in deps) && Label(x) == name
  {}

  lemma NothingGoes(items: seq<Item>)
    requires forall x :: x in items ==> IsScanned(x)
    ensures EachDecided(items, NoRules) == EachSeeded(items, NoRules) == EachClosed(items, {}, NoRules) == items
    ensures IsLeast(SetOf(items), SeedsOf(SetOf(items), NoRules), {}, NoRules)
  {}

  lemma WhoVotesForWhom()
    ensures Protectors(JarB, {JarA, JarB, JarC}, NoRules) == {"a"}
    ensures Protectors(JarC, {JarA, JarB, JarC}, NoRules) == {}
    ensures "c" in DepsOf(JarB, NoRules) * IdsOf(JarC, NoRules)
  {
    JarIs("a", ["b"], Server);
    JarIs("b", ["c"], Review);
    JarIs("c", [], Client);
    assert "a"[0] == 'a' && "b"[0] == 'b' && "c"[0] == 'c';
    assert "b" in DepsOf(JarA, NoRules) * IdsOf(JarB, NoRules);
    assert Votes(JarA, JarB, NoRules) && !Votes(JarA, JarC, NoRules);
  }

  lemma AKeptJarLosesWhatItRequires() returns (after: seq<Item>)
    ensures IsScanned(JarA) && IsScanned(JarB) && IsScanned(JarC)
    ensures Applied([JarA, JarB, JarC], after, {}, NoRules)
    ensures |after| == 3 && after[0].verdict.Server? && after[1].verdict.Keep? && after[2].verdict.Client?
    ensures DepsOf(after[1], NoRules) * IdsOf(after[2], NoRules) != {}
    ensures Label(after[1]) == "b" && Label(after[2]) == "c"
  {
    var before := [JarA, JarB, JarC];
    NothingGoes(before);
    assert SetOf(before) == {JarA, JarB, JarC};
    after := [JarA, KeptB(), JarC];
    BIsProtected();
    assert EachProtected(before, SetOf(before), NoRules) == after;
  }

  function KeptB(): Item { JarB.(verdict := Keep, requiredBy := {"a"}) }

  lemma BIsProtected()
    ensures Protected(JarA, {JarA, JarB, JarC}, NoRules) == JarA
    ensures Protected(JarB, {JarA, JarB, JarC}, NoRules) == KeptB()
    ensures Protected(JarC, {JarA, JarB, JarC}, NoRules) == JarC
    ensures DepsOf(KeptB(), NoRules) * IdsOf(JarC, NoRules) != {}
  {
    WhoVotesForWhom();
    assert DepsOf(KeptB(), NoRules) == DepsOf(JarB, NoRules);
  }

  // --- the pass, in place -------------------------------------------------------------------

  function Open(items: seq<Item>): nat {
    if items == [] then 0 else Open(items[..|items| - 1]) + if IsOpen(items[|items| - 1]) then 1 else 0
  }

  lemma {:induction false} OneLessOpen(items: seq<Item>, n: nat)
    requires n < |items| && IsOpen(items[n])
    ensures Open(items[n := Off(items[n])]) == Open(items) - 1
  {
    var init := items[..|items| - 1];
    if n < |init| {
      OneLessOpen(init, n);
      assert items[n := Off(items[n])][..|items| - 1] == init[n := Off(items[n])];
    } else {
      assert items[n := Off(items[n])][..|items| - 1] == init;
    }
  }

  method Decide(a: array<Item>, rules: Rules)
    modifies a
    ensures a[..] == EachDecided(old(a[..]), rules)
  {
    for n := 0 to a.Length
      invariant forall i :: 0 <= i < a.Length ==> a[i] == if i < n then Decided(old(a[i]), rules) else old(a[i])
    {
      var decision := rules.decide(a[n].fileName, a[n].modId, a[n].projectId);
      if decision == Some(Block) {
        a[n] := a[n].(operator := decision, verdict := Client);
      } else if decision.Some? {
        a[n] := a[n].(operator := decision, verdict := Server, whitelisted := true);
      }
    }
  }

  // The names that go with the jars in front of the n-th.
  function SeedsUpTo(items: seq<Item>, n: nat, rules: Rules): set<string>
    requires n <= |items|
  { SeedsOf(SetOf(items[..n]), rules) }

  lemma SeedsOneFurther(items: seq<Item>, n: nat, rules: Rules)
    requires n < |items|
    ensures SeedsUpTo(items, n + 1, rules)
         == SeedsUpTo(items, n, rules) + if IsSeed(items[n], rules) then SeedIds(items[n], rules) else {}
  {
    assert SetOf(items[..n + 1]) == SetOf(items[..n]) + {items[n]};
  }

  lemma SeedsOfAll(items: seq<Item>, rules: Rules)
    ensures SeedsUpTo(items, |items|, rules) == SeedsOf(SetOf(items), rules) && SeedsUpTo(items, 0, rules) == {}
  {
    assert items[..|items|] == items;
  }

  lemma EachIsSeeded(was: seq<Item>, now: seq<Item>, rules: Rules)
    requires |now| == |was| && forall i :: 0 <= i < |was| ==> now[i] == Seeded(was[i], rules)
    ensures now == EachSeeded(was, rules)
  {}

  method SwitchOffRenderers(a: array<Item>, rules: Rules) returns (gone: set<string>)
    modifies a
    ensures a[..] == EachSeeded(old(a[..]), rules) && gone == SeedsOf(SetOf(old(a[..])), rules)
  {
    gone := {};
    ghost var was := a[..];
    SeedsOfAll(was, rules);
    for n := 0 to a.Length
      invariant forall i :: 0 <= i < a.Length ==> a[i] == if i < n then Seeded(was[i], rules) else was[i]
      invariant gone == SeedsUpTo(was, n, rules)
    {
      SeedsOneFurther(was, n, rules);
      if IsSeed(a[n], rules) {
        gone := gone + SeedIds(a[n], rules);
        a[n] := Off(a[n]);
      }
    }
    EachIsSeeded(was, a[..], rules);
  }

  // How far the closure has come from `was`: jars switched off because they need
  // a name that is gone, and no name gone that need not be.
  ghost predicate ClosesFrom(was: seq<Item>, now: seq<Item>, seeds: set<string>, gone: set<string>, rules: Rules) {
    && |now| == |was|
    && seeds <= gone
    && (forall i :: 0 <= i < |was| ==>
          now[i] == was[i] || (now[i] == Off(was[i]) && Needs(was[i], gone, rules) && IdsOf(was[i], rules) <= gone))
    && (forall more: set<string> :: seeds <= more && IsClosed(SetOf(was), more, rules) ==> gone <= more)
  }

  lemma OneMoreOff(was: seq<Item>, now: seq<Item>, seeds: set<string>, gone: set<string>, rules: Rules, n: nat)
    requires ClosesFrom(was, now, seeds, gone, rules) && n < |now| && Needs(now[n], gone, rules)
    ensures ClosesFrom(was, now[n := Off(now[n])], seeds, gone + IdsOf(now[n], rules), rules)
  {
    assert now[n] == was[n] && was[n] in SetOf(was);
    forall more: set<string> | seeds <= more && IsClosed(SetOf(was), more, rules)
      ensures gone + IdsOf(now[n], rules) <= more
    {
      var d :| d in DepsOf(was[n], rules) * gone;
      assert d in DepsOf(was[n], rules) * more;
      assert Needs(was[n], more, rules);
    }
    forall i | 0 <= i < |was| && now[i] != was[i]
      ensures Needs(was[i], gone + IdsOf(now[n], rules), rules)
    {
      var d :| d in DepsOf(was[i], rules) * gone;
      assert d in DepsOf(was[i], rules) * (gone + IdsOf(now[n], rules));
    }
    var d :| d in DepsOf(was[n], rules) * gone;
    assert d in DepsOf(was[n], rules) * (gone + IdsOf(now[n], rules));
  }

  lemma NothingLeftToClose(was: seq<Item>, now: seq<Item>, seeds: set<string>, gone: set<string>, rules: Rules)
    requires ClosesFrom(was, now, seeds, gone, rules) && forall i :: 0 <= i < |now| ==> !Needs(now[i], gone, rules)
    ensures IsLeast(SetOf(was), seeds, gone, rules) && now == EachClosed(was, gone, rules)
  {
    forall x | x in SetOf(was) && Needs(x, gone, rules)
      ensures IdsOf(x, rules) <= gone
    {
      var i :| 0 <= i < |was| && was[i] == x;
      assert now[i] != was[i];
    }
    forall i | 0 <= i < |was|
      ensures now[i] == Closed(was[i], gone, rules)
    {}
  }

  // One pass over the jars.
  method Pass(a: array<Item>, ghost was: seq<Item>, ghost seeds: set<string>, before: set<string>, rules: Rules)
    returns (gone: set<string>, changed: bool)
    requires ClosesFrom(was, a[..], seeds, before, rules)
    modifies a
    ensures ClosesFrom(was, a[..], seeds, gone, rules)
    ensures Open(a[..]) + (if changed then 1 else 0) <= Open(old(a[..]))
    ensures !changed ==> forall i :: 0 <= i < a.Length ==> !Needs(a[i], gone, rules)
  {
    gone, changed := before, false;
    for n := 0 to a.Length
      invariant ClosesFrom(was, a[..], seeds, gone, rules)
      invariant Open(a[..]) + (if changed then 1 else 0) <= Open(old(a[..]))
      invariant !changed ==> forall i :: 0 <= i < n ==> !Needs(a[i], gone, rules)
    {
      if Needs(a[n], gone, rules) {
        OneMoreOff(was, a[..], seeds, gone, rules, n);
        OneLessOpen(a[..], n);
        ghost var next := a[..][n := Off(a[n])];
        gone := gone + IdsOf(a[n], rules);
        a[n] := Off(a[n]);
        assert a[..] == next;
        changed := true;
      }
    }
  }

  // Changed until stable. It ends: every pass but the last switches a jar off.
  method SwitchOffWhatNeedsThem(a: array<Item>, seeds: set<string>, rules: Rules) returns (gone: set<string>)
    modifies a
    ensures IsLeast(SetOf(old(a[..])), seeds, gone, rules) && a[..] == EachClosed(old(a[..]), gone, rules)
  {
    gone := seeds;
    ghost var was := a[..];
    var changed := seeds != {};
    while changed
      invariant ClosesFrom(was, a[..], seeds, gone, rules)
      invariant !changed ==> forall i :: 0 <= i < a.Length ==> !Needs(a[i], gone, rules)
      decreases Open(a[..]) + if changed then 1 else 0
    {
      gone, changed := Pass(a, was, seeds, gone, rules);
    }
    NothingLeftToClose(was, a[..], seeds, gone, rules);
  }

  // Who, of the staying mods, requires each name.
  ghost predicate VotersAre(voters: map<string, set<string>>, all: set<Item>, rules: Rules) {
    && (forall d, l :: d in voters && l in voters[d] ==> HasVoter(all, d, l, rules))
    && (forall r, d :: r in all && r.verdict.Server? && d in DepsOf(r, rules) ==> d in voters && Label(r) in voters[d])
  }

  ghost predicate HasVoter(all: set<Item>, d: string, l: string, rules: Rules) {
    exists r :: r in all && r.verdict.Server? && d in DepsOf(r, rules) && Label(r) == l
  }

  function ProtectorsIn(voters: map<string, set<string>>, ids: set<string>): set<string> {
    set d, l | d in ids && d in voters && l in voters[d] :: l
  }

  lemma VotersProtect(voters: map<string, set<string>>, all: set<Item>, x: Item, rules: Rules)
    requires VotersAre(voters, all, rules)
    ensures ProtectorsIn(voters, IdsOf(x, rules)) - {Label(x)} == Protectors(x, all, rules)
  {
    forall l | l in ProtectorsIn(voters, IdsOf(x, rules)) && l != Label(x)
      ensures l in Protectors(x, all, rules)
    {
      var d :| d in IdsOf(x, rules) && d in voters && l in voters[d];
      var r :| r in all && r.verdict.Server? && d in DepsOf(r, rules) && Label(r) == l;
      assert d in DepsOf(r, rules) * IdsOf(x, rules);
      assert Votes(r, x, rules);
    }
    forall l | l in Protectors(x, all, rules)
      ensures l in ProtectorsIn(voters, IdsOf(x, rules)) - {Label(x)}
    {
      var r :| r in all && Votes(r, x, rules) && Label(r) == l;
      var d :| d in DepsOf(r, rules) * IdsOf(x, rules);
      assert d in voters && l in voters[d];
    }
  }

  method CountVotes(a: array<Item>, rules: Rules) returns (voters: map<string, set<string>>)
    ensures VotersAre(voters, SetOf(a[..]), rules)
  {
    voters := map[];
    for n := 0 to a.Length
      invariant VotersAre(voters, SetOf(a[..n]), rules)
    {
      assert SetOf(a[..n + 1]) == SetOf(a[..n]) + {a[n]};
      if a[n].verdict.Server? { voters := AddVotes(voters, SetOf(a[..n]), a[n], rules); }
    }
    assert a[..a.Length] == a[..];
  }

  // `mod` votes for every dependency it names.
  method AddVotes(before: map<string, set<string>>, ghost all: set<Item>, mod: Item, rules: Rules)
    returns (voters: map<string, set<string>>)
    requires VotersAre(before, all, rules) && mod.verdict.Server?
    ensures VotersAre(voters, all + {mod}, rules)
  {
    voters := before;
    for k := 0 to |mod.deps|
      invariant forall d, l :: d in voters && l in voters[d] ==> HasVoter(all + {mod}, d, l, rules)
      invariant forall r, d :: r in all && r.verdict.Server? && d in DepsOf(r, rules) ==>
        d in voters && Label(r) in voters[d]
      invariant forall i :: 0 <= i < k ==>
        rules.lower(mod.deps[i]) in voters && Label(mod) in voters[rules.lower(mod.deps[i])]
    {
      var d := rules.lower(mod.deps[k]);
      assert d in DepsOf(mod, rules);
      voters := voters[d := (if d in voters then voters[d] else {}) + {Label(mod)}];
    }
  }

  method Protect(a: array<Item>, rules: Rules)
    modifies a
    ensures a[..] == EachProtected(old(a[..]), SetOf(old(a[..])), rules)
  {
    var voters := CountVotes(a, rules);
    ghost var all := SetOf(a[..]);
    for n := 0 to a.Length
      invariant forall i :: 0 <= i < a.Length ==> a[i] == if i < n then Protected(old(a[i]), all, rules) else old(a[i])
    {
      if MayBeKept(a[n]) {
        VotersProtect(voters, all, a[n], rules);
        var protectors := ProtectorsIn(voters, IdsOf(a[n], rules)) - {Label(a[n])};
        if protectors != {} { a[n] := a[n].(verdict := Keep, requiredBy := protectors); }
      }
    }
  }

  method ApplyOverrides(a: array<Item>, rules: Rules) returns (gone: set<string>)
    modifies a
    ensures Applied(old(a[..]), a[..], gone, rules)
  {
    Decide(a, rules);
    gone := SwitchOffRenderers(a, rules);
    gone := SwitchOffWhatNeedsThem(a, gone, rules);
    Protect(a, rules);
  }
}
