// Rolling stats rows up into buckets (app/history.py: _bucket, _roll).
//
// Times are seconds of UTC. CPU is a real: the rounding to two decimals is not
// modelled. Groups are listed in the order their first row is met, as a dict
// lists them.

module StatsRollup {
  import opened Prelude

  const DAY := 86400
  const ROLLED := 15

  datatype Data = Data(samples: int, up: int, online: int, maxPlayers: Option<int>,
                       cpu: Option<real>, mem: Option<int>, memLimit: Option<int>)

  datatype Row = Row(server: string, at: int, res: int, data: Data)

  // --- buckets -------------------------------------------------------------------

  function MinuteOfDay(t: int): int { t % DAY / 60 }

  function Bucket(t: int, minutes: nat): int
    requires minutes > 0
  {
    var since := MinuteOfDay(t);
    t - t % DAY + (since - since % minutes) * 60
  }

  lemma BucketIsInTheDay(t: int, minutes: nat)
    requires minutes > 0
    ensures Bucket(t, minutes) - Bucket(t, minutes) % DAY == t - t % DAY
    ensures MinuteOfDay(Bucket(t, minutes)) == MinuteOfDay(t) - MinuteOfDay(t) % minutes
    ensures Bucket(t, minutes) <= t
  {
    var since := MinuteOfDay(t);
    var floor := since - since % minutes;
    assert 0 <= since % minutes <= since < 1440;
    assert Bucket(t, minutes) == t - t % DAY + floor * 60;
    assert t - t % DAY == t / DAY * DAY;
    SplitDay(t / DAY, floor * 60);
  }

  lemma SplitDay(days: int, rest: int)
    requires 0 <= rest < DAY
    ensures (days * DAY + rest) % DAY == rest
  {}

  // A bucket of a multiple of 15 minutes is made of whole 15-minute buckets.
  lemma BucketsNest(t: int, minutes: nat)
    requires minutes > 0 && minutes % ROLLED == 0
    ensures Bucket(Bucket(t, ROLLED), minutes) == Bucket(t, minutes)
  {
    BucketIsInTheDay(t, ROLLED);
    FloorsNest(MinuteOfDay(t), minutes / ROLLED);
  }

  lemma FloorsNest(x: nat, k: nat)
    requires k > 0
    ensures var m := ROLLED * k; var y := x - x % ROLLED;
      y - y % m == x - x % m
  {
    var m := ROLLED * k;
    var q, r := x / m, x % m;
    var a, b := r / ROLLED, r % ROLLED;
    Whole(x, m);
    FineFloor(q, k, a, b);
    FloorIs(q, r, m);
    FloorIs(q, ROLLED * a, m);
  }

  lemma Whole(x: nat, m: nat)
    requires m > 0
    ensures x == x / m * m + x % m
  {}

  lemma FineFloor(q: int, k: int, a: nat, b: nat)
    requires b < ROLLED
    ensures var x := q * (ROLLED * k) + (ROLLED * a + b);
      x - x % ROLLED == q * (ROLLED * k) + ROLLED * a
  {
    Parts(q, k, a, b);
    FloorIs(q * k + a, b, ROLLED);
  }

  lemma FloorIs(q: int, r: nat, m: nat)
    requires r < m
    ensures q * m + r - (q * m + r) % m == q * m
  {
    Remainder(q, r, m);
  }

  lemma Parts(q: int, k: int, a: int, b: int)
    ensures q * (ROLLED * k) == (q * k) * ROLLED
    ensures q * (ROLLED * k) + (ROLLED * a + b) == (q * k + a) * ROLLED + b
  {}

  lemma Remainder(q: int, r: nat, m: nat)
    requires r < m
    ensures (m * q + r) % m == r && (q * m + r) % m == r
  {
    var x := m * q + r;
    var d := x / m - q;
    assert m * d == r - x % m;
    AtLeastOne(m, d);
  }

  lemma AtLeastOne(m: nat, d: int)
    ensures d >= 1 ==> m * d >= m
    ensures d <= -1 ==> m * d + m <= 0
  {}

  // --- what a group of rows comes to ------------------------------------------------

  datatype Acc = Acc(samples: int, up: int, online: Option<int>, maxPlayers: Option<int>,
                     cpuSum: real, cpuCount: nat, memSum: int, memCount: nat, memLimit: Option<int>)

  const Zero := Acc(0, 0, None, None, 0.0, 0, 0, 0, None)

  // A reading of 0 counts as none, as it does where the code tests it.
  function Truthy(x: Option<int>): Option<int> {
    if x == Some(0) then None else x
  }

  function MaxOf(a: Option<int>, b: Option<int>): Option<int> {
    if a.None? then b else if b.None? then a else if a.value >= b.value then a else b
  }

  function Single(d: Data): Acc {
    var mem := Truthy(d.mem);
    Acc(d.samples, d.up, Some(d.online), Truthy(d.maxPlayers),
        if d.cpu.Some? then d.cpu.value else 0.0, if d.cpu.Some? then 1 else 0,
        if mem.Some? then mem.value else 0, if mem.Some? then 1 else 0, Truthy(d.memLimit))
  }

  function Plus(a: Acc, b: Acc): Acc {
    Acc(a.samples + b.samples, a.up + b.up, MaxOf(a.online, b.online), MaxOf(a.maxPlayers, b.maxPlayers),
        a.cpuSum + b.cpuSum, a.cpuCount + b.cpuCount, a.memSum + b.memSum, a.memCount + b.memCount,
        MaxOf(a.memLimit, b.memLimit))
  }

  lemma PlusSwaps(a: Acc, b: Acc, c: Acc)
    ensures Plus(Plus(a, b), c) == Plus(Plus(a, c), b)
    ensures Plus(a, Plus(b, c)) == Plus(Plus(a, b), c)
    ensures Plus(a, Zero) == a == Plus(Zero, a)
  {}

  // int() truncates towards zero.
  function Truncated(sum: int, count: nat): int
    requires count > 0
  {
    if sum >= 0 then sum / count else -(-sum / count)
  }

  function Out(a: Acc): Data {
    Data(a.samples, a.up, if a.online.Some? then a.online.value else 0, a.maxPlayers,
         if a.cpuCount > 0 then Some(a.cpuSum / a.cpuCount as real) else None,
         if a.memCount > 0 then Some(Truncated(a.memSum, a.memCount)) else None,
         a.memLimit)
  }

  function Total(rows: seq<Row>): Acc {
    if rows == [] then Zero else Plus(Total(rows[..|rows| - 1]), Single(rows[|rows| - 1].data))
  }

  // --- rolling up ---------------------------------------------------------------------

  datatype GroupKey = GroupKey(server: string, at: int)

  datatype Group = Group(key: GroupKey, acc: Acc)

  function KeyOf(r: Row, minutes: nat): GroupKey
    requires minutes > 0
  { GroupKey(r.server, Bucket(r.at, minutes)) }

  function Added(groups: seq<Group>, k: GroupKey, a: Acc): seq<Group> {
    if groups == [] then [Group(k, a)]
    else if groups[0].key == k then [Group(k, Plus(groups[0].acc, a))] + groups[1..]
    else [groups[0]] + Added(groups[1..], k, a)
  }

  function Rolled(rows: seq<Row>, minutes: nat): seq<Group>
    requires minutes > 0
  {
    if rows == [] then []
    else
      var r := rows[|rows| - 1];
      Added(Rolled(rows[..|rows| - 1], minutes), KeyOf(r, minutes), Single(r.data))
  }

  function RowsOf(groups: seq<Group>, minutes: nat): (rows: seq<Row>)
    ensures |rows| == |groups|
    ensures forall i :: 0 <= i < |rows| ==>
      rows[i] == Row(groups[i].key.server, groups[i].key.at, minutes, Out(groups[i].acc))
  {
    seq(|groups|, i requires 0 <= i < |groups| =>
      Row(groups[i].key.server, groups[i].key.at, minutes, Out(groups[i].acc)))
  }

  // --- rolling up twice ------------------------------------------------------------------

  // The part of a group that does not average: counts and peaks.
  datatype Kept = Kept(samples: int, up: int, online: Option<int>, maxPlayers: Option<int>, memLimit: Option<int>)

  function KeptOf(a: Acc): Kept { Kept(a.samples, a.up, a.online, a.maxPlayers, a.memLimit) }

  function KeptPlus(a: Kept, b: Kept): Kept {
    Kept(a.samples + b.samples, a.up + b.up, MaxOf(a.online, b.online), MaxOf(a.maxPlayers, b.maxPlayers),
         MaxOf(a.memLimit, b.memLimit))
  }

  datatype Item = Item(key: GroupKey, kept: Kept)

  function ItemsOf(groups: seq<Group>): (items: seq<Item>)
    ensures |items| == |groups|
    ensures forall i :: 0 <= i < |items| ==> items[i] == Item(groups[i].key, KeptOf(groups[i].acc))
  {
    seq(|groups|, i requires 0 <= i < |groups| => Item(groups[i].key, KeptOf(groups[i].acc)))
  }

  function RowItems(rows: seq<Row>): (items: seq<Item>)
    ensures |items| == |rows|
    ensures forall i :: 0 <= i < |items| ==>
      items[i] == Item(GroupKey(rows[i].server, rows[i].at), KeptOf(Single(rows[i].data)))
  {
    seq(|rows|, i requires 0 <= i < |rows| =>
      Item(GroupKey(rows[i].server, rows[i].at), KeptOf(Single(rows[i].data))))
  }

  function Put(items: seq<Item>, x: Item): seq<Item> {
    if items == [] then [x]
    else if items[0].key == x.key then [Item(x.key, KeptPlus(items[0].kept, x.kept))] + items[1..]
    else [items[0]] + Put(items[1..], x)
  }

  function Coarse(x: Item, minutes: nat): Item
    requires minutes > 0
  { x.(key := GroupKey(x.key.server, Bucket(x.key.at, minutes))) }

  function Regrouped(items: seq<Item>, minutes: nat): seq<Item>
    requires minutes > 0
  {
    if items == [] then []
    else Put(Regrouped(items[..|items| - 1], minutes), Coarse(items[|items| - 1], minutes))
  }

  lemma {:induction false} AddedItems(groups: seq<Group>, k: GroupKey, a: Acc)
    ensures ItemsOf(Added(groups, k, a)) == Put(ItemsOf(groups), Item(k, KeptOf(a)))
  {
    if groups != [] {
      AddedItems(groups[1..], k, a);
      assert ItemsOf(groups)[1..] == ItemsOf(groups[1..]);
    }
  }

  lemma {:induction false} RolledItems(rows: seq<Row>, minutes: nat)
    requires minutes > 0
    ensures ItemsOf(Rolled(rows, minutes)) == Regrouped(RowItems(rows), minutes)
  {
    if rows != [] {
      var init, r := rows[..|rows| - 1], rows[|rows| - 1];
      RolledItems(init, minutes);
      AddedItems(Rolled(init, minutes), KeyOf(r, minutes), Single(r.data));
      assert RowItems(rows)[..|rows| - 1] == RowItems(init);
    }
  }

  // Rolled groups have at least one row, and no peak that is a zero.
  ghost predicate Proper(groups: seq<Group>) {
    forall i :: 0 <= i < |groups| ==>
      groups[i].acc.online.Some? && groups[i].acc.maxPlayers != Some(0) && groups[i].acc.memLimit != Some(0)
  }

  lemma {:induction false} AddedIsProper(groups: seq<Group>, k: GroupKey, d: Data)
    requires Proper(groups)
    ensures Proper(Added(groups, k, Single(d)))
  {
    if groups != [] { AddedIsProper(groups[1..], k, d); }
  }

  lemma {:induction false} RolledIsProper(rows: seq<Row>, minutes: nat)
    requires minutes > 0
    ensures Proper(Rolled(rows, minutes))
  {
    if rows != [] {
      RolledIsProper(rows[..|rows| - 1], minutes);
      var r := rows[|rows| - 1];
      AddedIsProper(Rolled(rows[..|rows| - 1], minutes), KeyOf(r, minutes), r.data);
    }
  }

  ghost predicate HasKey(items: seq<Item>, k: GroupKey) {
    exists i :: 0 <= i < |items| && items[i].key == k
  }

  lemma {:induction false} PutHasKey(items: seq<Item>, x: Item, k: GroupKey)
    ensures HasKey(Put(items, x), k) <==> HasKey(items, k) || k == x.key
  {
    if items == [] {
      assert Put(items, x)[0].key == x.key;
    } else {
      PutHasKey(items[1..], x, k);
      HasKeyTail(items, k);
      HasKeyTail(Put(items, x), k);
      if items[0].key != x.key { assert Put(items, x)[1..] == Put(items[1..], x); }
      else { assert Put(items, x)[1..] == items[1..]; }
    }
  }

  lemma HasKeyTail(items: seq<Item>, k: GroupKey)
    requires items != []
    ensures HasKey(items, k) <==> items[0].key == k || HasKey(items[1..], k)
  {
    if HasKey(items[1..], k) {
      var i :| 0 <= i < |items[1..]| && items[1..][i].key == k;
      assert items[i + 1].key == k;
    }
    if HasKey(items, k) && items[0].key != k {
      var i :| 0 <= i < |items| && items[i].key == k;
      assert items[1..][i - 1].key == k;
    }
  }

  // A group already there takes two additions in either order.
  lemma {:induction false} PutSwaps(items: seq<Item>, x: Item, y: Item)
    requires HasKey(items, x.key)
    ensures Put(Put(items, x), y) == Put(Put(items, y), x)
  {
    HasKeyTail(items, x.key);
    if items[0].key == x.key || items[0].key == y.key {
      KeptPlusSwaps(items[0].kept, x.kept, y.kept);
      if items[0].key != x.key || items[0].key != y.key {
        var z := if items[0].key == x.key then y else x;
        var w := if items[0].key == x.key then x else y;
        assert Put(items, w)[1..] == items[1..];
        assert Put(items, z)[1..] == Put(items[1..], z);
      } else {
        assert Put(items, x)[1..] == items[1..] == Put(items, y)[1..];
      }
    } else {
      PutSwaps(items[1..], x, y);
      assert Put(items, x)[1..] == Put(items[1..], x);
      assert Put(items, y)[1..] == Put(items[1..], y);
    }
  }

  lemma KeptPlusSwaps(a: Kept, b: Kept, c: Kept)
    ensures KeptPlus(KeptPlus(a, b), c) == KeptPlus(KeptPlus(a, c), b)
    ensures KeptPlus(a, KeptPlus(b, c)) == KeptPlus(KeptPlus(a, b), c)
  {}

  lemma {:induction false} PutTwice(items: seq<Item>, k: GroupKey, a: Kept, b: Kept)
    ensures Put(Put(items, Item(k, a)), Item(k, b)) == Put(items, Item(k, KeptPlus(a, b)))
  {
    if items == [] {
      assert Put([Item(k, a)], Item(k, b)) == [Item(k, KeptPlus(a, b))] + [];
    } else if items[0].key == k {
      KeptPlusSwaps(items[0].kept, a, b);
      assert Put(items, Item(k, a))[1..] == items[1..];
    } else {
      PutTwice(items[1..], k, a, b);
      assert Put(items, Item(k, a))[1..] == Put(items[1..], Item(k, a));
    }
  }

  lemma {:induction false} RegroupedHasKeys(items: seq<Item>, minutes: nat, i: nat)
    requires minutes > 0 && i < |items|
    ensures HasKey(Regrouped(items, minutes), Coarse(items[i], minutes).key)
  {
    var init, x := items[..|items| - 1], Coarse(items[|items| - 1], minutes);
    PutHasKey(Regrouped(init, minutes), x, Coarse(items[i], minutes).key);
    if i < |init| { RegroupedHasKeys(init, minutes, i); }
  }

  // Adding to one fine group adds to the coarse group it is in.
  lemma {:induction false} UpdateRegrouped(items: seq<Item>, i: nat, b: Kept, minutes: nat)
    requires minutes > 0 && i < |items|
    ensures Regrouped(items[i := Item(items[i].key, KeptPlus(items[i].kept, b))], minutes)
         == Put(Regrouped(items, minutes), Coarse(Item(items[i].key, b), minutes))
  {
    var more := items[i := Item(items[i].key, KeptPlus(items[i].kept, b))];
    var init, last := items[..|items| - 1], items[|items| - 1];
    if i == |init| {
      assert more[..|more| - 1] == init;
      PutTwice(Regrouped(init, minutes), Coarse(last, minutes).key, last.kept, b);
    } else {
      assert more[..|more| - 1] == init[i := Item(init[i].key, KeptPlus(init[i].kept, b))];
      UpdateRegrouped(init, i, b, minutes);
      RegroupedHasKeys(init, minutes, i);
      PutSwaps(Regrouped(init, minutes), Coarse(Item(items[i].key, b), minutes), Coarse(last, minutes));
    }
  }

  lemma {:induction false} PutIs(items: seq<Item>, x: Item) returns (i: nat)
    ensures i <= |items|
    ensures i == |items| ==> Put(items, x) == items + [x]
    ensures i < |items| ==>
      items[i].key == x.key && Put(items, x) == items[i := Item(x.key, KeptPlus(items[i].kept, x.kept))]
  {
    if items == [] || items[0].key == x.key { return 0; }
    i := PutIs(items[1..], x);
    i := i + 1;
    if i < |items| {
      assert items[i := Item(x.key, KeptPlus(items[i].kept, x.kept))]
          == [items[0]] + items[1..][i - 1 := Item(x.key, KeptPlus(items[i].kept, x.kept))];
    }
  }

  lemma {:induction false} RegroupTwice(items: seq<Item>, minutes: nat)
    requires minutes > 0 && minutes % ROLLED == 0
    ensures Regrouped(Regrouped(items, ROLLED), minutes) == Regrouped(items, minutes)
  {
    if items != [] {
      var init, x := items[..|items| - 1], items[|items| - 1];
      RegroupTwice(init, minutes);
      var fine, y := Regrouped(init, ROLLED), Coarse(x, ROLLED);
      BucketsNest(x.key.at, minutes);
      var i := PutIs(fine, y);
      if i == |fine| {
        assert (fine + [y])[..|fine|] == fine;
      } else {
        UpdateRegrouped(fine, i, y.kept, minutes);
      }
    }
  }

  // For every step that is a multiple of 15 minutes: rolling up rows that have
  // been compacted gives the same groups, in the same order, with the same
  // samples, minutes up, player peak, player limit and memory limit as rolling
  // up the raw rows.
  lemma RollingTwiceIsRollingOnce(rows: seq<Row>, minutes: nat)
    requires minutes > 0 && minutes % ROLLED == 0
    ensures ItemsOf(Rolled(RowsOf(Rolled(rows, ROLLED), ROLLED), minutes)) == ItemsOf(Rolled(rows, minutes))
  {
    var once := Rolled(rows, ROLLED);
    RolledIsProper(rows, ROLLED);
    assert RowItems(RowsOf(once, ROLLED)) == ItemsOf(once);
    RolledItems(RowsOf(once, ROLLED), minutes);
    RolledItems(rows, ROLLED);
    RolledItems(rows, minutes);
    RegroupTwice(RowItems(rows), minutes);
  }

  lemma {:induction false} RegroupedAppend(a: seq<Item>, b: seq<Item>, c: seq<Item>, minutes: nat)
    requires minutes > 0 && Regrouped(a, minutes) == Regrouped(b, minutes)
    ensures Regrouped(a + c, minutes) == Regrouped(b + c, minutes)
  {
    if c == [] {
      assert a + c == a && b + c == b;
    } else {
      RegroupedAppend(a, b, c[..|c| - 1], minutes);
      OneMoreItem(a, c, minutes);
      OneMoreItem(b, c, minutes);
    }
  }

  lemma OneMoreItem(a: seq<Item>, c: seq<Item>, minutes: nat)
    requires minutes > 0 && c != []
    ensures Regrouped(a + c, minutes)
         == Put(Regrouped(a + c[..|c| - 1], minutes), Coarse(c[|c| - 1], minutes))
  {
    assert (a + c)[..|a + c| - 1] == a + c[..|c| - 1];
  }

  lemma RowItemsAppend(rows: seq<Row>, since: seq<Row>)
    ensures RowItems(rows + since) == RowItems(rows) + RowItems(since)
  {}

  lemma RolledOn(a: seq<Row>, b: seq<Row>, since: seq<Row>, minutes: nat)
    requires minutes > 0 && ItemsOf(Rolled(a, minutes)) == ItemsOf(Rolled(b, minutes))
    ensures ItemsOf(Rolled(a + since, minutes)) == ItemsOf(Rolled(b + since, minutes))
  {
    RolledItems(a, minutes);
    RolledItems(b, minutes);
    RegroupedAppend(RowItems(a), RowItems(b), RowItems(since), minutes);
    RowItemsAppend(a, since);
    RowItemsAppend(b, since);
    RolledItems(a + since, minutes);
    RolledItems(b + since, minutes);
  }

  // What a chart reads is the compacted rows, then the raw rows since: they make
  // the same points (but for averages) as all the raw rows would.
  lemma ChartsReadTheSame(rows: seq<Row>, since: seq<Row>, minutes: nat)
    requires minutes > 0 && minutes % ROLLED == 0
    ensures ItemsOf(Rolled(RowsOf(Rolled(rows, ROLLED), ROLLED) + since, minutes))
         == ItemsOf(Rolled(rows + since, minutes))
  {
    RollingTwiceIsRollingOnce(rows, minutes);
    RolledOn(RowsOf(Rolled(rows, ROLLED), ROLLED), rows, since, minutes);
  }

  // Averages are another matter: the average of two groups' averages is the
  // average of their readings exactly when the groups are as large as each
  // other, or average the same.
  lemma AveragesNeedEqualGroups(a: Acc, b: Acc)
    requires a.cpuCount > 0 && b.cpuCount > 0
    ensures Out(Plus(Single(Out(a)), Single(Out(b)))).cpu == Out(Plus(a, b)).cpu
      <==> a.cpuCount == b.cpuCount || Out(a).cpu == Out(b).cpu
  {
    var m, n := a.cpuCount as real, b.cpuCount as real;
    var x, y := a.cpuSum / m, b.cpuSum / n;
    var twice := Plus(Single(Out(a)), Single(Out(b)));
    assert twice.cpuSum == x + y && twice.cpuCount == 2;
    AverageOf(twice);
    AverageOf(Plus(a, b));
    assert a.cpuSum == m * x && b.cpuSum == n * y;
    MeanOfMeans(m, n, x, y);
  }

  // A group of three and one of none over twice as many readings: 1.0 becomes 1.5.
  lemma AnAverageMoves(d: Data)
    ensures var three, none := Single(d.(cpu := Some(3.0))), Single(d.(cpu := Some(0.0)));
      && Out(Plus(three, Plus(none, none))).cpu == Some(1.0)
      && Out(Plus(Single(Out(three)), Single(Out(Plus(none, none))))).cpu == Some(1.5)
  {
    var three, none := Single(d.(cpu := Some(3.0))), Single(d.(cpu := Some(0.0)));
    AverageOf(Plus(three, Plus(none, none)));
    AverageOf(three);
    AverageOf(Plus(none, none));
    AverageOf(Plus(Single(Out(three)), Single(Out(Plus(none, none)))));
  }

  // --- the average of any number of groups -----------------------------------------------

  function Merged(groups: seq<Acc>): Acc {
    if groups == [] then Zero else Plus(Merged(groups[..|groups| - 1]), groups[|groups| - 1])
  }

  // The groups' rows, read again.
  function ReadAgain(groups: seq<Acc>): (again: seq<Acc>)
    ensures |again| == |groups|
    ensures forall i :: 0 <= i < |groups| ==> again[i] == Single(Out(groups[i]))
  {
    seq(|groups|, i requires 0 <= i < |groups| => Single(Out(groups[i])))
  }

  // A group's CPU average; 0 of a group with no CPU reading.
  function Mean(a: Acc): real { if a.cpuCount == 0 then 0.0 else a.cpuSum / a.cpuCount as real }

  function MeanSum(groups: seq<Acc>): real {
    if groups == [] then 0.0 else MeanSum(groups[..|groups| - 1]) + Mean(groups[|groups| - 1])
  }

  function Averaging(groups: seq<Acc>): nat {
    if groups == [] then 0
    else Averaging(groups[..|groups| - 1]) + (if groups[|groups| - 1].cpuCount > 0 then 1 else 0)
  }

  lemma ReadOneAgain(a: Acc)
    ensures Single(Out(a)).cpuSum == Mean(a)
    ensures Single(Out(a)).cpuCount == if a.cpuCount > 0 then 1 else 0
  {}

  lemma {:induction false} ReadAgainMerged(groups: seq<Acc>)
    ensures Merged(ReadAgain(groups)).cpuSum == MeanSum(groups)
    ensures Merged(ReadAgain(groups)).cpuCount == Averaging(groups)
  {
    if groups != [] {
      var init, last := groups[..|groups| - 1], groups[|groups| - 1];
      ReadAgainMerged(init);
      ReadOneAgain(last);
      assert ReadAgain(groups)[..|groups| - 1] == ReadAgain(init);
    }
  }

  lemma {:induction false} SomeAverage(groups: seq<Acc>)
    ensures Averaging(groups) > 0 <==> Merged(groups).cpuCount > 0
  {
    if groups != [] { SomeAverage(groups[..|groups| - 1]); }
  }

  lemma SameQuotient(a: real, b: real, m: real, n: real)
    requires m > 0.0 && n > 0.0
    ensures a / m == b / n <==> a * n == b * m
  {
    var x, y := a / m, b / n;
    assert a == x * m && b == y * n;
    Factored(x, m, n);
    Factored(y, n, m);
    if x * (m * n) == y * (m * n) { Cancels(x, y, m * n); }
  }

  lemma Factored(x: real, m: real, n: real)
    ensures x * m * n == x * (m * n) && m * n == n * m
  {}

  lemma Cancels(x: real, y: real, z: real)
    requires z != 0.0 && x * z == y * z
    ensures x == y
  {
    assert (x - y) * z == 0.0;
  }

  // `x`, n times over.
  function Times(x: real, n: nat): real { if n == 0 then 0.0 else Times(x, n - 1) + x }

  lemma {:induction false} TimesIs(x: real, n: nat)
    ensures Times(x, n) == x * n as real
  {
    if n > 0 { TimesIs(x, n - 1); }
  }

  lemma SameAverage(a: Acc, b: Acc)
    requires a.cpuCount > 0 && b.cpuCount > 0
    ensures Out(a).cpu == Out(b).cpu <==> Times(a.cpuSum, b.cpuCount) == Times(b.cpuSum, a.cpuCount)
  {
    AverageOf(a);
    AverageOf(b);
    SameQuotient(a.cpuSum, b.cpuSum, a.cpuCount as real, b.cpuCount as real);
    TimesIs(a.cpuSum, b.cpuCount);
    TimesIs(b.cpuSum, a.cpuCount);
  }

  // The same equality, with nothing divided.
  predicate SameSums(groups: seq<Acc>) {
    Times(MeanSum(groups), Merged(groups).cpuCount) == Times(Merged(groups).cpuSum, Averaging(groups))
  }

  ghost predicate AverageStays(groups: seq<Acc>) { Out(Merged(ReadAgain(groups))).cpu == Out(Merged(groups)).cpu }

  lemma AverageStaysWhen(groups: seq<Acc>)
    ensures AverageStays(groups) <==> Averaging(groups) == 0 || SameSums(groups)
  {
    ReadAgainMerged(groups);
    SomeAverage(groups);
    if Averaging(groups) > 0 {
      SameAverage(Merged(ReadAgain(groups)), Merged(groups));
    } else {
      NoAverage(Merged(ReadAgain(groups)));
      NoAverage(Merged(groups));
    }
  }

  lemma NoAverage(a: Acc)
    requires a.cpuCount == 0
    ensures Out(a).cpu == None
  {}

  // A group of no CPU reading sums to nothing, as every group of rows does.
  predicate IsSum(a: Acc) { a.cpuCount == 0 ==> a.cpuSum == 0.0 }

  lemma {:induction false} TotalIsSum(rows: seq<Row>)
    ensures IsSum(Total(rows))
  {
    if rows != [] { TotalIsSum(rows[..|rows| - 1]); }
  }

  function Sizes(n: nat, k: nat): nat { if k == 0 then 0 else Sizes(n, k - 1) + n }

  lemma {:induction false} EqualSizes(groups: seq<Acc>, n: nat)
    requires forall i :: 0 <= i < |groups| ==> IsSum(groups[i]) && (groups[i].cpuCount == 0 || groups[i].cpuCount == n)
    ensures Merged(groups).cpuCount == Sizes(n, Averaging(groups))
    ensures Merged(groups).cpuSum == Times(MeanSum(groups), n)
  {
    if groups == [] {
      TimesIs(0.0, n);
    } else {
      var init, last := groups[..|groups| - 1], groups[|groups| - 1];
      EqualSizes(init, n);
      OneOfSize(last, n);
      TimesOfSum(MeanSum(init), Mean(last), n);
    }
  }

  lemma OneOfSize(a: Acc, n: nat)
    requires IsSum(a) && (a.cpuCount == 0 || a.cpuCount == n)
    ensures a.cpuSum == Times(Mean(a), n)
  {
    TimesIs(Mean(a), n);
  }

  lemma {:induction false} TimesOfSum(x: real, y: real, n: nat)
    ensures Times(x + y, n) == Times(x, n) + Times(y, n)
  {
    if n > 0 { TimesOfSum(x, y, n - 1); }
  }

  lemma {:induction false} SumOfTimes(x: real, m: nat, n: nat)
    ensures Times(x, m + n) == Times(x, m) + Times(x, n)
  {
    if n > 0 { SumOfTimes(x, m, n - 1); }
  }

  lemma {:induction false} TimesOfTimes(x: real, n: nat, k: nat)
    ensures Times(x, Sizes(n, k)) == Times(Times(x, n), k)
  {
    if k > 0 {
      TimesOfTimes(x, n, k - 1);
      SumOfTimes(x, Sizes(n, k - 1), n);
    }
  }

  // As they are when every group that has a reading has as many as the others.
  lemma EqualGroupsAverage(groups: seq<Acc>, n: nat)
    requires forall i :: 0 <= i < |groups| ==> IsSum(groups[i]) && (groups[i].cpuCount == 0 || groups[i].cpuCount == n)
    ensures AverageStays(groups)
  {
    EqualSizes(groups, n);
    AverageStaysWhen(groups);
    TimesOfTimes(MeanSum(groups), n, Averaging(groups));
  }

  // --- which sizes, and which readings, keep the average ------------------------------------

  function Totals(lists: seq<seq<Row>>): (groups: seq<Acc>)
    ensures |groups| == |lists|
    ensures forall i :: 0 <= i < |lists| ==> groups[i] == Total(lists[i])
  {
    seq(|lists|, i requires 0 <= i < |lists| => Total(lists[i]))
  }

  // As many CPU readings in each group as `sizes` says.
  predicate AreOfSizes(lists: seq<seq<Row>>, sizes: seq<nat>) {
    |lists| == |sizes| && forall i :: 0 <= i < |lists| ==> Total(lists[i]).cpuCount == sizes[i]
  }

  predicate EquallyLarge(sizes: seq<nat>) {
    forall i, j :: 0 <= i < |sizes| && 0 <= j < |sizes| && sizes[i] > 0 && sizes[j] > 0 ==> sizes[i] == sizes[j]
  }

  ghost predicate AverageAlwaysStays(sizes: seq<nat>) {
    forall lists: seq<seq<Row>> :: AreOfSizes(lists, sizes) ==> AverageStays(Totals(lists))
  }

  function Reading(c: real): Row { Row("", 0, 1, Data(1, 1, 0, None, Some(c), None, None)) }

  function Same(n: nat, c: real): seq<Row> { if n == 0 then [] else Same(n - 1, c) + [Reading(c)] }

  lemma {:induction false} TotalOfSame(n: nat, c: real)
    ensures Total(Same(n, c)).cpuCount == n && Total(Same(n, c)).cpuSum == Times(c, n)
  {
    if n > 0 {
      TotalOfSame(n - 1, c);
      TotalOneMore(Same(n - 1, c), Reading(c));
    }
  }

  // Readings of 1 in one group and of 0 in all the others.
  function Spike(sizes: seq<nat>, i: nat): (lists: seq<seq<Row>>)
    ensures |lists| == |sizes|
    ensures forall j :: 0 <= j < |sizes| ==> lists[j] == Same(sizes[j], if j == i then 1.0 else 0.0)
  {
    seq(|sizes|, j requires 0 <= j < |sizes| => Same(sizes[j], if j == i then 1.0 else 0.0))
  }

  function Positive(sizes: seq<nat>): nat {
    if sizes == [] then 0 else Positive(sizes[..|sizes| - 1]) + if sizes[|sizes| - 1] > 0 then 1 else 0
  }

  lemma SpikeIsOfSizes(sizes: seq<nat>, i: nat)
    ensures AreOfSizes(Spike(sizes, i), sizes)
  {
    forall j | 0 <= j < |sizes|
      ensures Total(Spike(sizes, i)[j]).cpuCount == sizes[j]
    {
      TotalOfSame(sizes[j], if j == i then 1.0 else 0.0);
    }
  }

  lemma {:induction false} TimesOfUnit(n: nat)
    ensures Times(0.0, n) == 0.0 && Times(1.0, n) == n as real
  {
    if n > 0 { TimesOfUnit(n - 1); }
  }

  lemma MeanOfSame(a: Acc, c: real)
    requires a.cpuCount > 0 && a.cpuSum == Times(c, a.cpuCount)
    ensures Mean(a) == c
  {
    TimesIs(c, a.cpuCount);
  }

  lemma SpikeAt(n: nat, high: bool)
    ensures var a := Total(Same(n, if high then 1.0 else 0.0));
      && a.cpuCount == n
      && a.cpuSum == (if high then n as real else 0.0)
      && Mean(a) == (if high && n > 0 then 1.0 else 0.0)
  {
    var c := if high then 1.0 else 0.0;
    TotalOfSame(n, c);
    TimesOfUnit(n);
    if n > 0 { MeanOfSame(Total(Same(n, c)), c); }
  }

  ghost predicate ComesTo(groups: seq<Acc>, sizes: seq<nat>, sum: real, means: real) {
    && Merged(groups).cpuCount == Sum(sizes) && Averaging(groups) == Positive(sizes)
    && Merged(groups).cpuSum == sum && MeanSum(groups) == means
  }

  lemma ComesToOneMore(groups: seq<Acc>, sizes: seq<nat>, sum: real, means: real)
    requires groups != [] && sizes != [] && groups[|groups| - 1].cpuCount == sizes[|sizes| - 1]
    requires ComesTo(groups[..|groups| - 1], sizes[..|sizes| - 1], sum, means)
    ensures ComesTo(groups, sizes, sum + groups[|groups| - 1].cpuSum, means + Mean(groups[|groups| - 1]))
  {}

  lemma {:induction false} SpikeSums(sizes: seq<nat>, i: nat)
    ensures ComesTo(Totals(Spike(sizes, i)), sizes, if i < |sizes| then sizes[i] as real else 0.0,
                    if i < |sizes| && sizes[i] > 0 then 1.0 else 0.0)
  {
    if sizes != [] {
      var init, n := sizes[..|sizes| - 1], sizes[|sizes| - 1];
      SpikeSums(init, i);
      SpikeSplits(sizes, i);
      SpikeAt(n, |init| == i);
      ComesToOneMore(Totals(Spike(sizes, i)), sizes, if i < |init| then init[i] as real else 0.0,
                     if i < |init| && init[i] > 0 then 1.0 else 0.0);
    }
  }

  lemma SpikeSplits(sizes: seq<nat>, i: nat)
    requires sizes != []
    ensures var init, groups := sizes[..|sizes| - 1], Totals(Spike(sizes, i));
      && groups[..|groups| - 1] == Totals(Spike(init, i))
      && groups[|groups| - 1] == Total(Same(sizes[|sizes| - 1], if |init| == i then 1.0 else 0.0))
  {}

  lemma {:induction false} TimesOfWhole(n: nat, k: nat)
    ensures Times(n as real, k) == Sizes(n, k) as real
  {
    if k > 0 { TimesOfWhole(n, k - 1); }
  }

  lemma SpikeNeeds(sizes: seq<nat>, i: nat)
    requires i < |sizes| && sizes[i] > 0 && AverageStays(Totals(Spike(sizes, i)))
    ensures Positive(sizes) > 0 && Sum(sizes) == Sizes(sizes[i], Positive(sizes))
  {
    SpikeSums(sizes, i);
    SomeAreLarge(sizes, i);
    AverageStaysWhen(Totals(Spike(sizes, i)));
    SpikeComesTo(Totals(Spike(sizes, i)), Sum(sizes), sizes[i], Positive(sizes));
  }

  lemma SpikeComesTo(groups: seq<Acc>, all: nat, n: nat, k: nat)
    requires SameSums(groups) && MeanSum(groups) == 1.0 && Merged(groups).cpuCount == all
    requires Merged(groups).cpuSum == n as real && Averaging(groups) == k
    ensures all == Sizes(n, k)
  {
    TimesOfUnit(all);
    TimesOfWhole(n, k);
  }

  lemma {:induction false} SomeAreLarge(sizes: seq<nat>, i: nat)
    requires i < |sizes| && sizes[i] > 0
    ensures Positive(sizes) > 0
  {
    if i < |sizes| - 1 { SomeAreLarge(sizes[..|sizes| - 1], i); }
  }

  lemma {:induction false} MoreIsMore(m: nat, n: nat, k: nat)
    requires m < n && k > 0
    ensures Sizes(m, k) < Sizes(n, k)
  {
    if k > 1 { MoreIsMore(m, n, k - 1); }
  }

  lemma LargeAreEqual(sizes: seq<nat>, i: nat, j: nat)
    requires i < |sizes| && j < |sizes| && sizes[i] > 0 && sizes[j] > 0
    requires AverageStays(Totals(Spike(sizes, i))) && AverageStays(Totals(Spike(sizes, j)))
    ensures sizes[i] == sizes[j]
  {
    SpikeNeeds(sizes, i);
    SpikeNeeds(sizes, j);
    if sizes[i] < sizes[j] { MoreIsMore(sizes[i], sizes[j], Positive(sizes)); }
    if sizes[j] < sizes[i] { MoreIsMore(sizes[j], sizes[i], Positive(sizes)); }
  }

  lemma EqualStays(lists: seq<seq<Row>>, sizes: seq<nat>)
    requires AreOfSizes(lists, sizes) && EquallyLarge(sizes)
    ensures AverageStays(Totals(lists))
  {
    var groups := Totals(lists);
    var n := if exists i :: 0 <= i < |sizes| && sizes[i] > 0 then
        var i :| 0 <= i < |sizes| && sizes[i] > 0; sizes[i] else 0;
    forall i | 0 <= i < |groups|
      ensures IsSum(groups[i]) && (groups[i].cpuCount == 0 || groups[i].cpuCount == n)
    {
      TotalIsSum(lists[i]);
    }
    EqualGroupsAverage(groups, n);
  }

  // Rolling up groups of given sizes again keeps the CPU average, whatever the
  // readings, if and only if all groups with a reading are equally large.
  lemma AveragesNeedEqualSizes(sizes: seq<nat>)
    ensures AverageAlwaysStays(sizes) <==> EquallyLarge(sizes)
  {
    if AverageAlwaysStays(sizes) {
      forall i, j | 0 <= i < |sizes| && 0 <= j < |sizes| && sizes[i] > 0 && sizes[j] > 0
        ensures sizes[i] == sizes[j]
      {
        SpikeIsOfSizes(sizes, i);
        SpikeIsOfSizes(sizes, j);
        LargeAreEqual(sizes, i, j);
      }
    }
    if EquallyLarge(sizes) {
      forall lists: seq<seq<Row>> | AreOfSizes(lists, sizes)
        ensures AverageStays(Totals(lists))
      {
        EqualStays(lists, sizes);
      }
    }
  }

  // Of given readings, how size and average vary together: over the groups, the average
  // k times for each of the group's readings, less once for each of all readings.
  function Covariance(groups: seq<Acc>, k: nat, all: nat): real {
    if groups == [] then 0.0
    else
      var last := groups[|groups| - 1];
      Covariance(groups[..|groups| - 1], k, all) + Times(Times(Mean(last), last.cpuCount), k) - Times(Mean(last), all)
  }

  lemma {:induction false} CovarianceIs(groups: seq<Acc>, k: nat, all: nat)
    requires forall i :: 0 <= i < |groups| ==> IsSum(groups[i])
    ensures Covariance(groups, k, all) == Times(Merged(groups).cpuSum, k) - Times(MeanSum(groups), all)
  {
    if groups == [] {
      TimesOfUnit(k);
      TimesOfUnit(all);
    } else {
      var init, last := groups[..|groups| - 1], groups[|groups| - 1];
      CovarianceIs(init, k, all);
      OneOfSize(last, last.cpuCount);
      TimesOfSum(Merged(init).cpuSum, last.cpuSum, k);
      TimesOfSum(MeanSum(init), Mean(last), all);
    }
  }

  // And for given readings it keeps it if and only if size and average do not vary
  // together: with k groups that have a reading, k * size averages all readings.
  lemma AveragesOfGroups(lists: seq<seq<Row>>)
    ensures var groups := Totals(lists);
      AverageStays(groups) <==> Covariance(groups, Averaging(groups), Merged(groups).cpuCount) == 0.0
  {
    var groups := Totals(lists);
    forall i | 0 <= i < |groups|
      ensures IsSum(groups[i])
    {
      TotalIsSum(lists[i]);
    }
    CovarianceIs(groups, Averaging(groups), Merged(groups).cpuCount);
    StaysWithout(groups);
  }

  lemma StaysWithout(groups: seq<Acc>)
    ensures AverageStays(groups)
      <==> Times(Merged(groups).cpuSum, Averaging(groups)) - Times(MeanSum(groups), Merged(groups).cpuCount) == 0.0
  {
    AverageStaysWhen(groups);
    SomeAverage(groups);
  }

  lemma AverageOf(a: Acc)
    requires a.cpuCount > 0
    ensures Out(a).cpu == Some(a.cpuSum / a.cpuCount as real)
  {}

  lemma MeanOfMeans(m: real, n: real, x: real, y: real)
    requires m > 0.0 && n > 0.0
    ensures (x + y) / 2.0 == (m * x + n * y) / (m + n) <==> m == n || x == y
  {
    var mean := (m * x + n * y) / (m + n);
    assert mean * (m + n) == m * x + n * y;
    assert (m - n) * (x - y) == 2.0 * (m * x + n * y) - (m + n) * (x + y);
    if (x + y) / 2.0 == mean {
      assert (m - n) * (x - y) == 0.0;
    }
    if m == n || x == y {
      assert (m - n) * (x - y) == 0.0;
      assert mean * (m + n) == (x + y) / 2.0 * (m + n);
    }
  }

  // --- the code: a dict of lists, then one row per list --------------------------------

  lemma {:induction false} AddedAt(groups: seq<Group>, i: nat, a: Acc)
    requires i < |groups| && forall j :: 0 <= j < i ==> groups[j].key != groups[i].key
    ensures Added(groups, groups[i].key, a) == groups[i := Group(groups[i].key, Plus(groups[i].acc, a))]
  {
    if i > 0 { AddedAt(groups[1..], i - 1, a); }
  }

  lemma {:induction false} AddedAtEnd(groups: seq<Group>, k: GroupKey, a: Acc)
    requires forall j :: 0 <= j < |groups| ==> groups[j].key != k
    ensures Added(groups, k, a) == groups + [Group(k, a)]
  {
    if groups != [] { AddedAtEnd(groups[1..], k, a); }
  }

  // The dict's lists, in the order its keys came, total to the groups.
  ghost predicate ListsTotal(order: seq<GroupKey>, lists: map<GroupKey, seq<Row>>, groups: seq<Group>) {
    && |order| == |groups|
    && (forall k :: k in lists <==> k in order)
    && (forall i, j :: 0 <= i < j < |order| ==> order[i] != order[j])
    && (forall i :: 0 <= i < |order| ==> groups[i].key == order[i] && groups[i].acc == Total(lists[order[i]]))
  }

  lemma OneMoreRow(order: seq<GroupKey>, lists: map<GroupKey, seq<Row>>, groups: seq<Group>, k: GroupKey, r: Row)
    requires ListsTotal(order, lists, groups) && k in lists
    ensures ListsTotal(order, lists[k := lists[k] + [r]], Added(groups, k, Single(r.data)))
  {
    var i :| 0 <= i < |order| && order[i] == k;
    AddedAt(groups, i, Single(r.data));
    TotalOneMore(lists[k], r);
    ListGrows(order, lists, groups, i, lists[k] + [r], Plus(groups[i].acc, Single(r.data)));
  }

  lemma ListGrows(order: seq<GroupKey>, lists: map<GroupKey, seq<Row>>, groups: seq<Group>,
                  i: nat, rows: seq<Row>, a: Acc)
    requires ListsTotal(order, lists, groups) && i < |order| && a == Total(rows)
    ensures ListsTotal(order, lists[order[i] := rows], groups[i := Group(order[i], a)])
  {}

  lemma OneMoreList(order: seq<GroupKey>, lists: map<GroupKey, seq<Row>>, groups: seq<Group>, k: GroupKey, r: Row)
    requires ListsTotal(order, lists, groups) && k !in lists
    ensures ListsTotal(order + [k], lists[k := [r]], Added(groups, k, Single(r.data)))
  {
    AddedAtEnd(groups, k, Single(r.data));
    TotalOneMore([], r);
    assert [] + [r] == [r];
  }

  lemma TotalOneMore(rows: seq<Row>, r: Row)
    ensures Total(rows + [r]) == Plus(Total(rows), Single(r.data))
    ensures rows == [] ==> Total(rows + [r]) == Single(r.data)
  {
    assert (rows + [r])[..|rows|] == rows;
  }

  // --- what a rolled row says of its readings ----------------------------------------------

  // A bucket is `minutes` long, begins a whole number of buckets after midnight, and
  // ends with the day at the latest.
  predicate InBucket(at: int, t: int, minutes: nat) {
    && at - at % DAY == t - t % DAY && IsMultiple(at % DAY, 60 * minutes)
    && at <= t < at + 60 * minutes
  }

  predicate IsMultiple(x: int, n: nat) { n > 0 && x % n == 0 }

  lemma BucketHolds(at: int, t: int, minutes: nat)
    requires minutes > 0
    ensures InBucket(at, t, minutes) <==> at == Bucket(t, minutes)
  {
    BucketIsHeld(t, minutes);
    if InBucket(at, t, minutes) {
      OneFloor(at % DAY, Bucket(t, minutes) % DAY, t % DAY, 60 * minutes);
    }
  }

  lemma BucketIsHeld(t: int, minutes: nat)
    requires minutes > 0
    ensures InBucket(Bucket(t, minutes), t, minutes)
  {
    var since := MinuteOfDay(t);
    var floor := since - since % minutes;
    BucketIsInTheDay(t, minutes);
    Whole(since, minutes);
    InSeconds(floor, since / minutes, minutes);
    assert Bucket(t, minutes) == t - t % DAY + floor * 60;
    assert t == t - t % DAY + since * 60 + t % DAY % 60;
  }

  lemma InSeconds(floor: nat, q: nat, minutes: nat)
    requires minutes > 0 && floor == q * minutes
    ensures floor * 60 == q * (60 * minutes) && floor * 60 % (60 * minutes) == 0
  {
    Remainder(q, 0, 60 * minutes);
  }

  // Two multiples at most one step before the same moment are the same.
  lemma OneFloor(x: nat, y: nat, t: int, n: nat)
    requires IsMultiple(x, n) && IsMultiple(y, n) && x <= t < x + n && y <= t < y + n
    ensures x == y
  {
    Whole(x, n);
    Whole(y, n);
    var d := x / n - y / n;
    assert x - y == n * d;
    AtLeastOne(n, d);
  }

  // The rows of one server in one bucket, in their order.
  function In(rows: seq<Row>, server: string, at: int, minutes: nat): seq<Row> {
    if rows == [] then []
    else
      var rest, r := In(rows[..|rows| - 1], server, at, minutes), rows[|rows| - 1];
      if r.server == server && InBucket(at, r.at, minutes) then rest + [r] else rest
  }

  datatype Column = SampleCount | UpTime | PlayersOnline | PlayerLimit | MemoryUse | MemoryLimit

  function Value(d: Data, c: Column): Option<int> {
    match c
    case SampleCount => Some(d.samples)
    case UpTime => Some(d.up)
    case PlayersOnline => Some(d.online)
    case PlayerLimit => d.maxPlayers
    case MemoryUse => d.mem
    case MemoryLimit => d.memLimit
  }

  // All of a column's values, but of those that may be missing, the zeros too.
  function Values(rs: seq<Row>, c: Column): seq<int> {
    if rs == [] then []
    else
      var rest, x := Values(rs[..|rs| - 1], c), Value(rs[|rs| - 1].data, c);
      if x.None? || (x.value == 0 && (c.PlayerLimit? || c.MemoryUse? || c.MemoryLimit?)) then rest else rest + [x.value]
  }

  function CpuValues(rs: seq<Row>): seq<real> {
    if rs == [] then []
    else
      var rest, x := CpuValues(rs[..|rs| - 1]), rs[|rs| - 1].data.cpu;
      if x.None? then rest else rest + [x.value]
  }

  function SumOf(xs: seq<int>): int { if xs == [] then 0 else SumOf(xs[..|xs| - 1]) + xs[|xs| - 1] }

  function CpuSum(xs: seq<real>): real { if xs == [] then 0.0 else CpuSum(xs[..|xs| - 1]) + xs[|xs| - 1] }

  predicate IsPeak(m: Option<int>, xs: seq<int>) {
    if xs == [] then m == None else m.Some? && m.value in xs && forall x :: x in xs ==> x <= m.value
  }

  // Their sum over their number, towards zero.
  predicate IsWholeMean(q: Option<int>, xs: seq<int>) {
    if xs == [] then q == None
    else q.Some? && IsQuotient(q.value, SumOf(xs), |xs|)
  }

  predicate IsQuotient(q: int, sum: int, n: nat) {
    if sum >= 0 then q * n <= sum < q * n + n else q * n - n < sum <= q * n
  }

  predicate IsMean(c: Option<real>, xs: seq<real>) {
    if xs == [] then c == None else c.Some? && c.value * |xs| as real == CpuSum(xs)
  }

  predicate SumsUp(d: Data, rs: seq<Row>) {
    && rs != []
    && d.samples == SumOf(Values(rs, SampleCount)) && d.up == SumOf(Values(rs, UpTime))
    && IsPeak(Some(d.online), Values(rs, PlayersOnline))
    && IsPeak(d.maxPlayers, Values(rs, PlayerLimit)) && IsPeak(d.memLimit, Values(rs, MemoryLimit))
    && IsMean(d.cpu, CpuValues(rs)) && IsWholeMean(d.mem, Values(rs, MemoryUse))
  }

  predicate HasRowFor(out: seq<Row>, r: Row, minutes: nat) {
    exists i :: 0 <= i < |out| && out[i].server == r.server && InBucket(out[i].at, r.at, minutes)
  }

  // One row for each server and bucket that occurs, saying of the rows in it what is
  // to be said of them.
  ghost predicate IsRollUp(out: seq<Row>, rows: seq<Row>, minutes: nat) {
    && (forall i, j :: 0 <= i < j < |out| ==> out[i].server != out[j].server || out[i].at != out[j].at)
    && (forall r :: r in rows ==> HasRowFor(out, r, minutes))
    && (forall i :: 0 <= i < |out| ==>
          out[i].res == minutes && SumsUp(out[i].data, In(rows, out[i].server, out[i].at, minutes)))
  }

  lemma PeakOfMore(a: Option<int>, xs: seq<int>, x: int)
    requires IsPeak(a, xs)
    ensures IsPeak(MaxOf(a, Some(x)), xs + [x])
  {
    var m := MaxOf(a, Some(x));
    forall y | y in xs + [x]
      ensures y <= m.value
    {
      assert y == x || y in xs;
    }
  }

  lemma {:induction false} TotalPeaks(rs: seq<Row>)
    ensures IsPeak(Total(rs).online, Values(rs, PlayersOnline))
    ensures IsPeak(Total(rs).maxPlayers, Values(rs, PlayerLimit))
    ensures IsPeak(Total(rs).memLimit, Values(rs, MemoryLimit))
  {
    if rs != [] {
      var init, d := rs[..|rs| - 1], rs[|rs| - 1].data;
      TotalPeaks(init);
      PeakOfMore(Total(init).online, Values(init, PlayersOnline), d.online);
      if d.maxPlayers.Some? { PeakOfMore(Total(init).maxPlayers, Values(init, PlayerLimit), d.maxPlayers.value); }
      if d.memLimit.Some? { PeakOfMore(Total(init).memLimit, Values(init, MemoryLimit), d.memLimit.value); }
    }
  }

  lemma SumOfMore(xs: seq<int>, x: int)
    ensures SumOf(xs + [x]) == SumOf(xs) + x
  {
    assert (xs + [x])[..|xs|] == xs;
  }

  lemma CpuSumOfMore(xs: seq<real>, x: real)
    ensures CpuSum(xs + [x]) == CpuSum(xs) + x
  {
    assert (xs + [x])[..|xs|] == xs;
  }

  lemma {:induction false} TotalSums(rs: seq<Row>)
    ensures Total(rs).samples == SumOf(Values(rs, SampleCount))
    ensures Total(rs).up == SumOf(Values(rs, UpTime))
  {
    if rs != [] {
      var init, d := rs[..|rs| - 1], rs[|rs| - 1].data;
      TotalSums(init);
      SumOfMore(Values(init, SampleCount), d.samples);
      SumOfMore(Values(init, UpTime), d.up);
    }
  }

  lemma {:induction false} TotalMem(rs: seq<Row>)
    ensures Total(rs).memSum == SumOf(Values(rs, MemoryUse)) && Total(rs).memCount == |Values(rs, MemoryUse)|
  {
    if rs != [] {
      var init, d := rs[..|rs| - 1], rs[|rs| - 1].data;
      TotalMem(init);
      if d.mem.Some? { SumOfMore(Values(init, MemoryUse), d.mem.value); }
    }
  }

  lemma {:induction false} TotalCpu(rs: seq<Row>)
    ensures Total(rs).cpuSum == CpuSum(CpuValues(rs)) && Total(rs).cpuCount == |CpuValues(rs)|
  {
    if rs != [] {
      var init, d := rs[..|rs| - 1], rs[|rs| - 1].data;
      TotalCpu(init);
      if d.cpu.Some? { CpuSumOfMore(CpuValues(init), d.cpu.value); }
    }
  }

  lemma Divides(sum: int, n: nat)
    requires n > 0
    ensures IsQuotient(Truncated(sum, n), sum, n)
  {
    Quotient(if sum >= 0 then sum else -sum, n);
  }

  lemma Quotient(x: nat, n: nat)
    requires n > 0
    ensures x / n * n <= x < x / n * n + n && -(x / n) * n == -(x / n * n)
  {
    Whole(x, n);
  }

  lemma MeanTimes(sum: real, n: nat)
    requires n > 0
    ensures sum / n as real * n as real == sum
  {}

  // A group of rows comes out as what is to be said of them.
  lemma {:induction false} OutSumsUp(rs: seq<Row>)
    requires rs != []
    ensures SumsUp(Out(Total(rs)), rs)
  {
    TotalPeaks(rs);
    TotalSums(rs);
    OnlineIsThere(rs);
    OutMem(rs);
    OutCpu(rs);
  }

  lemma {:induction false} OnlineIsThere(rs: seq<Row>)
    requires rs != []
    ensures Values(rs, PlayersOnline) != []
  {}

  lemma {:induction false} OutMem(rs: seq<Row>)
    ensures IsWholeMean(Out(Total(rs)).mem, Values(rs, MemoryUse))
  {
    TotalMem(rs);
    if Values(rs, MemoryUse) != [] { Divides(Total(rs).memSum, Total(rs).memCount); }
  }

  lemma {:induction false} OutCpu(rs: seq<Row>)
    ensures IsMean(Out(Total(rs)).cpu, CpuValues(rs))
  {
    TotalCpu(rs);
    if CpuValues(rs) != [] { MeanTimes(Total(rs).cpuSum, Total(rs).cpuCount); }
  }

  // --- the groups, against the rows ---------------------------------------------------------

  ghost predicate GroupIs(g: Group, rows: seq<Row>, minutes: nat) {
    var rs := In(rows, g.key.server, g.key.at, minutes);
    rs != [] && g.acc == Total(rs)
  }

  ghost predicate GroupsAre(groups: seq<Group>, rows: seq<Row>, minutes: nat)
    requires minutes > 0
  {
    && (forall i, j :: 0 <= i < j < |groups| ==> groups[i].key != groups[j].key)
    && (forall i :: 0 <= i < |groups| ==> GroupIs(groups[i], rows, minutes))
    && (forall r :: r in rows ==> IsListed(groups, KeyOf(r, minutes)))
  }

  ghost predicate IsListed(groups: seq<Group>, k: GroupKey) {
    exists i :: 0 <= i < |groups| && groups[i].key == k
  }

  lemma InOneMore(rows: seq<Row>, r: Row, g: GroupKey, minutes: nat)
    requires minutes > 0
    ensures In(rows + [r], g.server, g.at, minutes)
         == In(rows, g.server, g.at, minutes) + if KeyOf(r, minutes) == g then [r] else []
  {
    assert (rows + [r])[..|rows|] == rows;
    BucketHolds(g.at, r.at, minutes);
  }

  lemma {:induction false} NoneIn(rows: seq<Row>, g: GroupKey, minutes: nat)
    requires minutes > 0 && forall r :: r in rows ==> KeyOf(r, minutes) != g
    ensures In(rows, g.server, g.at, minutes) == []
  {
    if rows != [] {
      var init, r := rows[..|rows| - 1], rows[|rows| - 1];
      NoneIn(init, g, minutes);
      assert r in rows;
      BucketHolds(g.at, r.at, minutes);
    }
  }

  lemma {:induction false} GroupStays(g: Group, rows: seq<Row>, r: Row, minutes: nat)
    requires minutes > 0 && GroupIs(g, rows, minutes) && KeyOf(r, minutes) != g.key
    ensures GroupIs(g, rows + [r], minutes)
  {
    InOneMore(rows, r, g.key, minutes);
  }

  lemma {:induction false} GroupGrows(g: Group, rows: seq<Row>, r: Row, minutes: nat)
    requires minutes > 0 && GroupIs(g, rows, minutes) && KeyOf(r, minutes) == g.key
    ensures GroupIs(Group(g.key, Plus(g.acc, Single(r.data))), rows + [r], minutes)
  {
    InOneMore(rows, r, g.key, minutes);
    TotalOneMore(In(rows, g.key.server, g.key.at, minutes), r);
  }

  lemma {:induction false} GroupIsNew(groups: seq<Group>, rows: seq<Row>, r: Row, minutes: nat)
    requires minutes > 0 && GroupsAre(groups, rows, minutes) && !IsListed(groups, KeyOf(r, minutes))
    ensures GroupIs(Group(KeyOf(r, minutes), Single(r.data)), rows + [r], minutes)
  {
    var k := KeyOf(r, minutes);
    NoneIn(rows, k, minutes);
    InOneMore(rows, r, k, minutes);
    assert [] + [r] == [r];
    TotalOneMore([], r);
    assert In(rows + [r], k.server, k.at, minutes) == [r];
  }

  lemma {:induction false} ListedOn(groups: seq<Group>, more: seq<Group>, k: GroupKey)
    requires |groups| <= |more| && forall i :: 0 <= i < |groups| ==> more[i].key == groups[i].key
    requires IsListed(groups, k)
    ensures IsListed(more, k)
  {
    var i :| 0 <= i < |groups| && groups[i].key == k;
    assert more[i].key == k;
  }

  function Grown(groups: seq<Group>, i: nat, r: Row): seq<Group>
    requires i < |groups|
  { groups[i := Group(groups[i].key, Plus(groups[i].acc, Single(r.data)))] }

  lemma {:induction false} EachGrows(groups: seq<Group>, rows: seq<Row>, r: Row, minutes: nat, i: nat, j: nat)
    requires minutes > 0 && GroupsAre(groups, rows, minutes)
    requires i < |groups| && groups[i].key == KeyOf(r, minutes) && j < |groups|
    ensures GroupIs(Grown(groups, i, r)[j], rows + [r], minutes)
  {
    if j == i {
      GroupGrows(groups[i], rows, r, minutes);
    } else {
      assert groups[j].key != groups[i].key;
      GroupStays(groups[j], rows, r, minutes);
    }
  }

  lemma {:induction false} GroupsGrow(groups: seq<Group>, rows: seq<Row>, r: Row, minutes: nat, i: nat)
    requires minutes > 0 && GroupsAre(groups, rows, minutes)
    requires i < |groups| && groups[i].key == KeyOf(r, minutes)
    ensures GroupsAre(Grown(groups, i, r), rows + [r], minutes)
  {
    var more := Grown(groups, i, r);
    forall j: nat | j < |groups|
      ensures GroupIs(more[j], rows + [r], minutes)
    {
      EachGrows(groups, rows, r, minutes, i, j);
    }
    assert more[i].key == KeyOf(r, minutes);
    ListedStill(groups, more, rows, r, minutes);
  }

  lemma {:induction false} ListedStill(groups: seq<Group>, more: seq<Group>, rows: seq<Row>, r: Row, minutes: nat)
    requires minutes > 0 && GroupsAre(groups, rows, minutes) && IsListed(more, KeyOf(r, minutes))
    requires |groups| <= |more| && forall i :: 0 <= i < |groups| ==> more[i].key == groups[i].key
    ensures forall x :: x in rows + [r] ==> IsListed(more, KeyOf(x, minutes))
  {
    forall x | x in rows + [r]
      ensures IsListed(more, KeyOf(x, minutes))
    {
      if x in rows { ListedOn(groups, more, KeyOf(x, minutes)); }
    }
  }

  lemma {:induction false} OneGroupMore(groups: seq<Group>, rows: seq<Row>, r: Row, minutes: nat)
    requires minutes > 0 && GroupsAre(groups, rows, minutes) && !IsListed(groups, KeyOf(r, minutes))
    ensures GroupsAre(Added(groups, KeyOf(r, minutes), Single(r.data)), rows + [r], minutes)
  {
    var k := KeyOf(r, minutes);
    AddedAtEnd(groups, k, Single(r.data));
    var more := groups + [Group(k, Single(r.data))];
    GroupIsNew(groups, rows, r, minutes);
    forall j | 0 <= j < |groups|
      ensures GroupIs(more[j], rows + [r], minutes)
    {
      GroupStays(groups[j], rows, r, minutes);
    }
    assert more[|groups|].key == k;
    ListedStill(groups, more, rows, r, minutes);
  }

  lemma {:induction false} RolledAre(rows: seq<Row>, minutes: nat)
    requires minutes > 0
    ensures GroupsAre(Rolled(rows, minutes), rows, minutes)
  {
    if rows != [] {
      var init, r := rows[..|rows| - 1], rows[|rows| - 1];
      RolledAre(init, minutes);
      var groups := Rolled(init, minutes);
      assert init + [r] == rows;
      if IsListed(groups, KeyOf(r, minutes)) {
        var i: nat :| i < |groups| && groups[i].key == KeyOf(r, minutes);
        AddedAt(groups, i, Single(r.data));
        GroupsGrow(groups, init, r, minutes, i);
      } else {
        OneGroupMore(groups, init, r, minutes);
      }
    }
  }

  // Rolled rows say exactly what is to be said of their rows.
  lemma {:induction false} RolledUp(rows: seq<Row>, minutes: nat)
    requires minutes > 0
    ensures IsRollUp(RowsOf(Rolled(rows, minutes), minutes), rows, minutes)
  {
    var groups := Rolled(rows, minutes);
    var out := RowsOf(groups, minutes);
    RolledAre(rows, minutes);
    forall i | 0 <= i < |out|
      ensures out[i].res == minutes && SumsUp(out[i].data, In(rows, out[i].server, out[i].at, minutes))
    {
      assert GroupIs(groups[i], rows, minutes);
      OutSumsUp(In(rows, out[i].server, out[i].at, minutes));
    }
    forall r | r in rows
      ensures HasRowFor(out, r, minutes)
    {
      RowIsThere(groups, out, r, minutes);
    }
    forall i, j | 0 <= i < j < |out|
      ensures out[i].server != out[j].server || out[i].at != out[j].at
    {
      assert groups[i].key != groups[j].key;
    }
  }

  lemma {:induction false} RowIsThere(groups: seq<Group>, out: seq<Row>, r: Row, minutes: nat)
    requires minutes > 0 && IsListed(groups, KeyOf(r, minutes)) && out == RowsOf(groups, minutes)
    ensures HasRowFor(out, r, minutes)
  {
    var i :| 0 <= i < |groups| && groups[i].key == KeyOf(r, minutes);
    BucketHolds(out[i].at, r.at, minutes);
  }

  method Roll(rows: seq<Row>, minutes: nat) returns (out: seq<Row>)
    requires minutes > 0
    ensures out == RowsOf(Rolled(rows, minutes), minutes)
    ensures IsRollUp(out, rows, minutes)
  {
    var order, lists := Lists(rows, minutes);
    ghost var groups := Rolled(rows, minutes);
    out := [];
    var n := 0;
    while n < |order|
      invariant 0 <= n <= |order|
      invariant out == RowsOf(groups[..n], minutes)
    {
      var total := Summed(lists[order[n]]);
      out := out + [Row(order[n].server, order[n].at, minutes, Out(total))];
      n := n + 1;
    }
    assert groups[..n] == groups;
    RolledUp(rows, minutes);
  }

  method Lists(rows: seq<Row>, minutes: nat) returns (order: seq<GroupKey>, lists: map<GroupKey, seq<Row>>)
    requires minutes > 0
    ensures ListsTotal(order, lists, Rolled(rows, minutes))
  {
    order, lists := [], map[];
    var n := 0;
    while n < |rows|
      invariant 0 <= n <= |rows|
      invariant ListsTotal(order, lists, Rolled(rows[..n], minutes))
    {
      var k := KeyOf(rows[n], minutes);
      assert rows[..n + 1][..n] == rows[..n];
      if k !in lists {
        OneMoreList(order, lists, Rolled(rows[..n], minutes), k, rows[n]);
        order := order + [k];
        lists := lists[k := [rows[n]]];
      } else {
        OneMoreRow(order, lists, Rolled(rows[..n], minutes), k, rows[n]);
        lists := lists[k := lists[k] + [rows[n]]];
      }
      n := n + 1;
    }
    assert rows[..n] == rows;
  }

  method Summed(rows: seq<Row>) returns (a: Acc)
    ensures a == Total(rows)
  {
    a := Zero;
    var n := 0;
    while n < |rows|
      invariant 0 <= n <= |rows|
      invariant a == Total(rows[..n])
    {
      assert rows[..n + 1][..n] == rows[..n];
      a := Plus(a, Single(rows[n].data));
      n := n + 1;
    }
    assert rows[..n] == rows;
  }
}
