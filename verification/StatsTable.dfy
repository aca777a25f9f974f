// The compactor as it is written: batches of the oldest rows, rolled up,
// inserted and deleted, until none is left before the cutoff.

module StatsTable {
  import opened Prelude
  import opened StatsRollup
  import opened StatsCompaction
  import opened CompactionRuns

  // --- `_roll` over a batch is the batch's new rows -------------------------------

  function RowsFor(keys: seq<Key>, t: Table): (rows: seq<Row>)
    requires forall k :: k in keys ==> k in t
    ensures |rows| == |keys|
    ensures forall i :: 0 <= i < |keys| ==> rows[i] == Row(keys[i].server, keys[i].at, keys[i].res, t[keys[i]])
  {
    seq(|keys|, i requires 0 <= i < |keys| => Row(keys[i].server, keys[i].at, keys[i].res, t[keys[i]]))
  }

  function Picked(keys: seq<Key>, t: Table): Table
    requires forall k :: k in keys ==> k in t
  {
    map k | k in keys :: t[k]
  }

  lemma OtherReadings(t: Table, k: Key, d: Data, server: string, at: int, end: int)
    requires k.res == 1 && k !in t && (k.server != server || !(at <= k.at < end))
    ensures Readings(t[k := d], server, at, end) == Readings(t, server, at, end)
  {
    SameReadings(t[k := d], t, server, at, end);
  }

  lemma NewestReading(t: Table, k: Key, d: Data, at: int)
    requires k.res == 1 && k !in t && at <= k.at
    ensures Readings(t[k := d], k.server, at, k.at + 1) == Plus(Readings(t, k.server, at, k.at + 1), Single(d))
  {
    OtherReadings(t, k, d, k.server, at, k.at);
    assert Key(k.server, k.at, 1) == k;
  }

  lemma {:induction false} ReadingsOneMore(t: Table, k: Key, d: Data, at: int, end: int)
    requires k.res == 1 && k !in t && at <= k.at < end
    ensures Readings(t[k := d], k.server, at, end) == Plus(Readings(t, k.server, at, end), Single(d))
    decreases end - at
  {
    if end == k.at + 1 {
      NewestReading(t, k, d, at);
    } else {
      ReadingsOneMore(t, k, d, at, end - 1);
      var last := Key(k.server, end - 1, 1);
      assert last != k;
      if last in t { PlusSwaps(Readings(t, k.server, at, end - 1), Single(d), Single(t[last])); }
    }
  }

  function BucketOf(x: Key): GroupKey { GroupKey(x.server, Into(x).at) }

  ghost predicate Occupied(t: Table, g: GroupKey) {
    exists x :: x in t && BucketOf(x) == g
  }

  ghost predicate Listed(groups: seq<Group>, g: GroupKey) {
    exists i :: 0 <= i < |groups| && groups[i].key == g
  }

  ghost predicate IsBucket(g: Group, t: Table) {
    && g.key.at % SPAN == 0
    && Occupied(t, g.key)
    && g.acc == Readings(t, g.key.server, g.key.at, g.key.at + SPAN)
  }

  // The groups are the buckets of the table, each with its readings' total.
  ghost predicate AreBuckets(groups: seq<Group>, t: Table) {
    && (forall i, j :: 0 <= i < j < |groups| ==> groups[i].key != groups[j].key)
    && (forall x :: x in t ==> Listed(groups, BucketOf(x)))
    && (forall i :: 0 <= i < |groups| ==> IsBucket(groups[i], t))
  }

  lemma OtherBucket(g: Group, t: Table, k: Key, d: Data)
    requires k.res == 1 && k !in t && IsBucket(g, t) && g.key != BucketOf(k)
    ensures IsBucket(g, t[k := d])
  {
    var x :| x in t && BucketOf(x) == g.key;
    assert x in t[k := d];
    OneBucketMore(t, k, d, g.key);
  }

  lemma ThisBucket(g: Group, t: Table, k: Key, d: Data)
    requires k.res == 1 && k !in t && IsBucket(g, t) && g.key == BucketOf(k)
    ensures IsBucket(Group(g.key, Plus(g.acc, Single(d))), t[k := d])
  {
    assert k in t[k := d];
    OneBucketMore(t, k, d, g.key);
  }

  lemma FirstOfBucket(t: Table, k: Key, d: Data)
    requires k.res == 1 && k !in t && !Occupied(t, BucketOf(k)) && forall x :: x in t ==> x.res == 1
    ensures IsBucket(Group(BucketOf(k), Single(d)), t[k := d])
  {
    assert k in t[k := d];
    IntoIsAround(k);
    NewBucket(t, k, d);
  }

  lemma ListedStays(groups: seq<Group>, more: seq<Group>, g: GroupKey)
    requires Listed(groups, g) && |groups| <= |more|
    requires forall i :: 0 <= i < |groups| ==> more[i].key == groups[i].key
    ensures Listed(more, g)
  {
    var i :| 0 <= i < |groups| && groups[i].key == g;
    assert more[i].key == g;
  }

  lemma OneMoreReading(groups: seq<Group>, t: Table, k: Key, d: Data)
    requires AreBuckets(groups, t) && k.res == 1 && k !in t && forall x :: x in t ==> x.res == 1
    ensures AreBuckets(Added(groups, BucketOf(k), Single(d)), t[k := d])
  {
    if Listed(groups, BucketOf(k)) {
      var i :| 0 <= i < |groups| && groups[i].key == BucketOf(k);
      AddedAt(groups, i, Single(d));
      OneMoreInBucket(groups, t, k, d, i);
    } else {
      AddedAtEnd(groups, BucketOf(k), Single(d));
      OneMoreBucket(groups, t, k, d);
    }
  }

  lemma OneMoreInBucket(groups: seq<Group>, t: Table, k: Key, d: Data, i: nat)
    requires AreBuckets(groups, t) && k.res == 1 && k !in t
    requires i < |groups| && groups[i].key == BucketOf(k)
    ensures AreBuckets(groups[i := Group(groups[i].key, Plus(groups[i].acc, Single(d)))], t[k := d])
  {
    var u, more := t[k := d], groups[i := Group(groups[i].key, Plus(groups[i].acc, Single(d)))];
    forall j | 0 <= j < |more|
      ensures IsBucket(more[j], u)
    {
      if j == i { ThisBucket(groups[i], t, k, d); } else { OtherBucket(groups[j], t, k, d); }
    }
    forall x | x in u
      ensures Listed(more, BucketOf(x))
    {
      if x == k { assert more[i].key == BucketOf(k); } else { ListedStays(groups, more, BucketOf(x)); }
    }
  }

  lemma OneMoreBucket(groups: seq<Group>, t: Table, k: Key, d: Data)
    requires AreBuckets(groups, t) && k.res == 1 && k !in t && forall x :: x in t ==> x.res == 1
    requires !Listed(groups, BucketOf(k))
    ensures AreBuckets(groups + [Group(BucketOf(k), Single(d))], t[k := d])
  {
    var u, more := t[k := d], groups + [Group(BucketOf(k), Single(d))];
    forall j | 0 <= j < |more|
      ensures IsBucket(more[j], u)
    {
      if j == |groups| { FirstOfBucket(t, k, d); } else { OtherBucket(groups[j], t, k, d); }
    }
    forall x | x in u
      ensures Listed(more, BucketOf(x))
    {
      if x == k { assert more[|groups|].key == BucketOf(k); } else { ListedStays(groups, more, BucketOf(x)); }
    }
  }

  lemma OneBucketMore(t: Table, k: Key, d: Data, g: GroupKey)
    requires k.res == 1 && k !in t && g.at % SPAN == 0
    ensures Readings(t[k := d], g.server, g.at, g.at + SPAN)
         == if g == BucketOf(k) then Plus(Readings(t, g.server, g.at, g.at + SPAN), Single(d))
            else Readings(t, g.server, g.at, g.at + SPAN)
  {
    IntoIsAround(k);
    if g == BucketOf(k) {
      ReadingsOneMore(t, k, d, g.at, g.at + SPAN);
    } else {
      if k.server == g.server && g.at <= k.at < g.at + SPAN { IntoIs(k, g.at); }
      OtherReadings(t, k, d, g.server, g.at, g.at + SPAN);
    }
  }

  lemma NothingInBucket(t: Table, k: Key, a: int)
    requires !Occupied(t, BucketOf(k)) && Into(k).at <= a < Into(k).at + SPAN
    ensures Key(k.server, a, 1) !in t
  {
    var x := Key(k.server, a, 1);
    IntoIsAround(k);
    IntoIs(x, Into(k).at);
    assert BucketOf(x) == BucketOf(k);
  }

  // The first reading from `at` up to `end`.
  lemma FirstReading(t: Table, k: Key, d: Data, at: int, end: int)
    requires k.res == 1 && k !in t && at <= k.at < end
    requires forall a :: at <= a < end ==> Key(k.server, a, 1) !in t
    ensures Readings(t[k := d], k.server, at, end) == Single(d)
  {
    SameReadings(t, map[], k.server, at, end);
    NoReadings(k.server, at, end);
    ReadingsOneMore(t, k, d, at, end);
    PlusSwaps(Single(d), Zero, Zero);
  }

  // A bucket nobody had a reading in.
  lemma NewBucket(t: Table, k: Key, d: Data)
    requires k.res == 1 && k !in t && !Occupied(t, BucketOf(k))
    ensures Readings(t[k := d], k.server, Into(k).at, Into(k).at + SPAN) == Single(d)
  {
    IntoIsAround(k);
    forall a | Into(k).at <= a < Into(k).at + SPAN
      ensures Key(k.server, a, 1) !in t
    {
      NothingInBucket(t, k, a);
    }
    FirstReading(t, k, d, Into(k).at, Into(k).at + SPAN);
  }

  lemma {:induction false} NoReadings(server: string, at: int, end: int)
    ensures Readings(map[], server, at, end) == Zero
    decreases end - at
  {
    if at < end { NoReadings(server, at, end - 1); }
  }

  lemma RolledOneMore(keys: seq<Key>, t: Table)
    requires keys != [] && forall k :: k in keys ==> k in t
    ensures var init, k := keys[..|keys| - 1], keys[|keys| - 1];
      && (forall x :: x in init ==> x in t)
      && Rolled(RowsFor(keys, t), ROLLED) == Added(Rolled(RowsFor(init, t), ROLLED), BucketOf(k), Single(t[k]))
      && Picked(keys, t) == Picked(init, t)[k := t[k]]
  {
    var init, k := keys[..|keys| - 1], keys[|keys| - 1];
    assert keys == init + [k];
    assert RowsFor(keys, t)[..|keys| - 1] == RowsFor(init, t);
  }

  lemma {:induction false} RolledAreBuckets(keys: seq<Key>, t: Table)
    requires Distinct(keys) && forall k :: k in keys ==> k in t && k.res == 1
    ensures AreBuckets(Rolled(RowsFor(keys, t), ROLLED), Picked(keys, t))
  {
    if keys != [] {
      var init, k := keys[..|keys| - 1], keys[|keys| - 1];
      RolledAreBuckets(init, t);
      RolledOneMore(keys, t);
      OneMoreReading(Rolled(RowsFor(init, t), ROLLED), Picked(init, t), k, t[k]);
    }
  }

  function KeyOfRow(r: Row): Key { Key(r.server, r.at, r.res) }

  // INSERT ... ON CONFLICT DO NOTHING, row by row.
  function InsertedRows(t: Table, out: seq<Row>): Table {
    if out == [] then t
    else
      var before := InsertedRows(t, out[..|out| - 1]);
      var r := out[|out| - 1];
      if KeyOfRow(r) in before then before else before[KeyOfRow(r) := r.data]
  }

  // Every row of `out` is one of the new rows.
  ghost predicate AllNew(out: seq<Row>, news: Table) {
    forall i :: 0 <= i < |out| ==> KeyOfRow(out[i]) in news && news[KeyOfRow(out[i])] == out[i].data
  }

  lemma {:induction false} InsertedRowAt(t: Table, out: seq<Row>, news: Table, k: Key)
    requires AllNew(out, news)
    ensures k in InsertedRows(t, out) <==> k in t || exists i :: 0 <= i < |out| && KeyOfRow(out[i]) == k
    ensures k in t ==> InsertedRows(t, out)[k] == t[k]
    ensures k in InsertedRows(t, out) && k !in t ==> k in news && InsertedRows(t, out)[k] == news[k]
  {
    if out != [] {
      var init, r := out[..|out| - 1], out[|out| - 1];
      assert forall i :: 0 <= i < |init| ==> init[i] == out[i];
      InsertedRowAt(t, init, news, k);
      if KeyOfRow(r) == k { assert KeyOfRow(out[|out| - 1]) == k; }
    }
  }

  lemma RolledRowIsNew(groups: seq<Group>, picked: Table, i: nat)
    requires AreBuckets(groups, picked) && i < |groups|
    ensures var r := RowsOf(groups, ROLLED)[i];
      KeyOfRow(r) in NewRows(picked) && NewRows(picked)[KeyOfRow(r)] == r.data
  {
    assert IsBucket(groups[i], picked);
    var x :| x in picked && BucketOf(x) == groups[i].key;
    assert Into(x) == KeyOfRow(RowsOf(groups, ROLLED)[i]);
  }

  lemma NewRowIsRolled(groups: seq<Group>, picked: Table, k: Key) returns (i: nat)
    requires AreBuckets(groups, picked) && k in NewRows(picked)
    ensures i < |groups| && KeyOfRow(RowsOf(groups, ROLLED)[i]) == k
  {
    var x :| x in picked && Into(x) == k;
    assert Listed(groups, BucketOf(x));
    i :| 0 <= i < |groups| && groups[i].key == BucketOf(x);
  }

  // Inserting what `_roll` makes of some readings inserts their new rows.
  lemma RollingInserts(t: Table, keys: seq<Key>)
    requires Distinct(keys) && forall k :: k in keys ==> k in t && k.res == 1
    ensures InsertedRows(t, RowsOf(Rolled(RowsFor(keys, t), ROLLED), ROLLED)) == Inserted(t, NewRows(Picked(keys, t)))
  {
    RolledAreBuckets(keys, t);
    BucketsInsert(t, Rolled(RowsFor(keys, t), ROLLED), Picked(keys, t));
  }

  lemma RolledRowsAreNew(groups: seq<Group>, picked: Table)
    requires AreBuckets(groups, picked)
    ensures AllNew(RowsOf(groups, ROLLED), NewRows(picked))
  {
    forall i | 0 <= i < |groups|
      ensures var r := RowsOf(groups, ROLLED)[i];
        KeyOfRow(r) in NewRows(picked) && NewRows(picked)[KeyOfRow(r)] == r.data
    {
      RolledRowIsNew(groups, picked, i);
    }
  }

  lemma BucketsInsertAt(t: Table, groups: seq<Group>, picked: Table, k: Key)
    requires AreBuckets(groups, picked)
    ensures k in InsertedRows(t, RowsOf(groups, ROLLED)) <==> k in t || k in NewRows(picked)
    ensures k in InsertedRows(t, RowsOf(groups, ROLLED)) ==>
      InsertedRows(t, RowsOf(groups, ROLLED))[k] == if k in t then t[k] else NewRows(picked)[k]
  {
    RolledRowsAreNew(groups, picked);
    InsertedRowAt(t, RowsOf(groups, ROLLED), NewRows(picked), k);
    if k in NewRows(picked) {
      var i := NewRowIsRolled(groups, picked, k);
    }
  }

  lemma BucketsInsert(t: Table, groups: seq<Group>, picked: Table)
    requires AreBuckets(groups, picked)
    ensures InsertedRows(t, RowsOf(groups, ROLLED)) == Inserted(t, NewRows(picked))
  {
    var done, spec := InsertedRows(t, RowsOf(groups, ROLLED)), Inserted(t, NewRows(picked));
    forall k: Key
      ensures (k in done <==> k in spec) && (k in done ==> done[k] == spec[k])
    {
      BucketsInsertAt(t, groups, picked, k);
    }
  }

  // --- one pass of the loop -----------------------------------------------------------

  function Before(raw: seq<Key>, edge: int): (r: seq<Key>)
    ensures forall k :: k in r <==> k in raw && k.at < edge
    ensures Distinct(raw) ==> Distinct(r)
  {
    if raw == [] then []
    else
      var rest := Before(raw[..|raw| - 1], edge);
      if raw[|raw| - 1].at < edge then rest + [raw[|raw| - 1]] else rest
  }

  lemma AllBefore(t: Table, raw: seq<Key>, edge: int, cutoff: int, batch: nat)
    requires Selects(raw, t, cutoff, batch) && raw != [] && |raw| == batch
    requires edge == Bucket(raw[|raw| - 1].at, ROLLED) && Before(raw, edge) != []
    ensures edge % SPAN == 0 && edge <= cutoff
    ensures Picked(Before(raw, edge), t) == RawRows(t, edge)
  {
    var last := raw[|raw| - 1];
    assert last in raw;
    IntoIsAround(last);
    forall k | k in t && Raw(k, edge)
      ensures k in raw
    {}
  }

  lemma OneWholeBucket(t: Table, raw: seq<Key>, whole: seq<Key>, edge: int, cutoff: int, batch: nat)
    requires cutoff % SPAN == 0 && Selects(raw, t, cutoff, batch) && raw != [] && |raw| == batch
    requires edge == Bucket(raw[|raw| - 1].at, ROLLED) + SPAN
    requires forall k :: k in whole <==> k in t && Raw(k, edge)
    ensures edge % SPAN == 0 && edge <= cutoff && whole != []
    ensures Picked(whole, t) == RawRows(t, edge)
  {
    var last := raw[|raw| - 1];
    assert last in raw;
    IntoIsAround(last);
    Apart(Into(last).at, cutoff);
    assert last in whole;
  }

  // The rows a pass takes are all the raw rows before a bucket edge.
  lemma TakesWhole(t: Table, raw: seq<Key>, whole: seq<Key>, edge: int, cutoff: int, batch: nat)
    requires cutoff % SPAN == 0 && Selects(raw, t, cutoff, batch) && raw != []
    requires |raw| < batch ==> whole == raw && edge == cutoff
    requires |raw| == batch ==>
      var first := Bucket(raw[|raw| - 1].at, ROLLED);
      || (edge == first && whole == Before(raw, first) && whole != [])
      || (edge == first + SPAN && Before(raw, first) == [] && Distinct(whole)
          && forall k :: k in whole <==> k in t && Raw(k, edge))
    ensures edge % SPAN == 0 && edge <= cutoff && whole != [] && Distinct(whole)
    ensures forall k :: k in whole ==> k in t && Raw(k, cutoff)
    ensures Picked(whole, t) == RawRows(t, edge)
    ensures |raw| < batch ==> Covers(t, Picked(whole, t), cutoff)
  {
    if |raw| == batch {
      if edge == Bucket(raw[|raw| - 1].at, ROLLED) {
        AllBefore(t, raw, edge, cutoff, batch);
      } else {
        OneWholeBucket(t, raw, whole, edge, cutoff, batch);
      }
    } else {
      assert raw[0] in raw;
      assert Picked(raw, t) == RawRows(t, cutoff);
    }
  }

  lemma {:induction false} DistinctSize(keys: seq<Key>)
    requires Distinct(keys)
    ensures |set k | k in keys| == |keys|
  {
    if keys != [] {
      var init, k := keys[..|keys| - 1], keys[|keys| - 1];
      DistinctSize(init);
      assert keys == init + [k];
      assert (set x | x in keys) == (set x | x in init) + {k};
    }
  }

  lemma GoneAreRaw(t: Table, whole: seq<Key>, cutoff: int)
    requires forall k :: k in whole ==> k in t && Raw(k, cutoff)
    ensures var u := Inserted(t, NewRows(Picked(whole, t))) - (set k | k in whole);
      forall k :: k in RawRows(u, cutoff) <==> k in RawRows(t, cutoff) && k !in whole
  {}

  lemma FewerRaw(t: Table, whole: seq<Key>, cutoff: int)
    requires Distinct(whole) && forall k :: k in whole ==> k in t && Raw(k, cutoff)
    ensures var u := Inserted(t, NewRows(Picked(whole, t))) - (set k | k in whole);
      |RawRows(u, cutoff)| + |whole| == |RawRows(t, cutoff)|
  {
    var u := Inserted(t, NewRows(Picked(whole, t))) - (set k | k in whole);
    var gone := set k | k in whole;
    DistinctSize(whole);
    GoneAreRaw(t, whole, cutoff);
    Fewer(RawRows(u, cutoff), RawRows(t, cutoff), gone);
  }

  lemma Fewer(less: Table, more: Table, gone: set<Key>)
    requires gone <= more.Keys && forall k :: k in less <==> k in more && k !in gone
    ensures |less| + |gone| == |more|
  {
    assert less.Keys == more.Keys - gone;
  }

  lemma PassKeepsClean(t: Table, whole: seq<Key>, edge: int, cutoff: int, limit: int)
    requires edge % SPAN == 0 && edge <= cutoff && cutoff % SPAN == 0
    requires (forall k :: k in whole ==> k in t) && Picked(whole, t) == RawRows(t, edge)
    ensures var u := Inserted(t, NewRows(Picked(whole, t))) - (set k | k in whole);
      Clean(u, cutoff, limit) == Clean(t, cutoff, limit)
  {
    var picked := Picked(whole, t);
    ReadIsPending(t, edge, cutoff, limit);
    InsertKeepsClean(t, picked, cutoff, limit);
    InsertSettles(t, picked, cutoff, limit, cutoff);
    DeleteKeepsClean(Inserted(t, NewRows(picked)), picked, cutoff, limit);
    assert picked.Keys == set k | k in whole;
  }

  lemma PassLeavesNone(t: Table, whole: seq<Key>, cutoff: int)
    requires forall k :: k in whole ==> k in t && Raw(k, cutoff)
    ensures var u := Inserted(t, NewRows(Picked(whole, t))) - (set k | k in whole);
      Covers(t, Picked(whole, t), cutoff) ==> NoRaw(u, cutoff)
  {}

  lemma PurgeIsClean(t: Table, cutoff: int, limit: int)
    requires cutoff % SPAN == 0 && NoRaw(t, cutoff)
    ensures RawRows(t, cutoff) == map[]
    ensures Purged(t, limit) == Clean(t, cutoff, limit)
    ensures forall k :: k in Purged(t, limit) ==> !Raw(k, cutoff) && k.at >= limit
  {
    PurgeKeepsClean(t, limit, cutoff, limit);
    NothingLeftToDo(Purged(t, limit), cutoff, limit);
  }

  // --- the table -----------------------------------------------------------------------

  class StatsRows {
    var rows: Table

    constructor (start: Table)
      ensures rows == start
    {
      rows := start;
    }

    // SELECT ... ORDER BY at LIMIT batch.
    method Select(edge: int, batch: nat) returns (raw: seq<Key>)
      requires batch > 0
      ensures Selects(raw, rows, edge, batch)
    {
      var left := set k | k in rows && Raw(k, edge);
      raw := [];
      while left != {} && |raw| < batch
        invariant Distinct(raw) && |raw| <= batch
        invariant forall k :: k in left <==> k in rows && Raw(k, edge) && k !in raw
        invariant forall k :: k in raw ==> k in rows && Raw(k, edge)
        invariant forall i, j :: 0 <= i < j < |raw| ==> raw[i].at <= raw[j].at
        invariant forall k, x :: k in raw && x in left ==> k.at <= x.at
        decreases left
      {
        var k := Earliest(left);
        raw := raw + [k];
        left := left - {k};
      }
      forall k | k in rows && Raw(k, edge) && k !in raw
        ensures |raw| == batch && (raw != [] ==> raw[|raw| - 1].at <= k.at)
      {
        assert k in left;
        if raw != [] { assert raw[|raw| - 1] in raw; }
      }
    }

    // SELECT of all of them, when one bucket holds more than a batch.
    method SelectAll(edge: int) returns (raw: seq<Key>)
      ensures Distinct(raw) && forall k :: k in raw <==> k in rows && Raw(k, edge)
    {
      var left := set k | k in rows && Raw(k, edge);
      raw := [];
      while left != {}
        invariant Distinct(raw)
        invariant forall k :: k in rows && Raw(k, edge) <==> k in left || k in raw
        invariant forall k :: k in left ==> k !in raw
        decreases left
      {
        var k :| k in left;
        raw := raw + [k];
        left := left - {k};
      }
    }

    method Earliest(keys: set<Key>) returns (k: Key)
      requires keys != {}
      ensures k in keys && forall x :: x in keys ==> k.at <= x.at
    {
      k :| k in keys;
      var left := keys - {k};
      while left != {}
        invariant left <= keys && k in keys
        invariant forall x :: x in keys && x !in left ==> k.at <= x.at
        decreases left
      {
        var x :| x in left;
        if x.at < k.at { k := x; }
        left := left - {x};
      }
    }

    method InsertRolled(keys: seq<Key>)
      requires Distinct(keys) && forall k :: k in keys ==> k in rows && k.res == 1
      modifies this
      ensures rows == Inserted(old(rows), NewRows(Picked(keys, old(rows))))
    {
      var out := Roll(RowsFor(keys, rows), ROLLED);
      RollingInserts(rows, keys);
      InsertRows(out);
    }

    method InsertRows(out: seq<Row>)
      modifies this
      ensures rows == InsertedRows(old(rows), out)
    {
      var n := 0;
      while n < |out|
        invariant 0 <= n <= |out|
        invariant rows == InsertedRows(old(rows), out[..n])
        modifies this
      {
        assert out[..n + 1][..n] == out[..n];
        if KeyOfRow(out[n]) !in rows {
          rows := rows[KeyOfRow(out[n]) := out[n].data];
        }
        n := n + 1;
      }
      assert out[..n] == out;
    }

    // Every pass takes a whole number of buckets, so the table it is on its way
    // to never changes; and every pass leaves fewer raw rows.
    method Compact(now: int, batch: nat) returns (rolled: nat)
      requires batch > 0
      modifies this
      ensures rows == Clean(old(rows), Cutoff(now), Limit(now))
      ensures forall k :: k in rows ==> !Raw(k, Cutoff(now)) && k.at >= Limit(now)
      ensures rolled == |RawRows(old(rows), Cutoff(now))|
    {
      var cutoff := Cutoff(now);
      CutoffsAreOrdered(now, now);
      rolled := 0;
      var done := false;
      while !done
        invariant Clean(rows, cutoff, Limit(now)) == Clean(old(rows), cutoff, Limit(now))
        invariant rolled + |RawRows(rows, cutoff)| == |RawRows(old(rows), cutoff)|
        invariant done ==> NoRaw(rows, cutoff)
        modifies this
        decreases !done, |RawRows(rows, cutoff)|
      {
        var raw := Select(cutoff, batch);
        if raw == [] { break; }
        var whole := raw;
        var edge := cutoff;
        if |raw| == batch {
          edge := Bucket(raw[|raw| - 1].at, ROLLED);
          whole := Before(raw, edge);
          if whole == [] {
            edge := edge + SPAN;
            whole := SelectAll(edge);
          }
        } else {
          done := true;
        }
        TakesWhole(rows, raw, whole, edge, cutoff, batch);
        PassKeepsClean(rows, whole, edge, cutoff, Limit(now));
        PassLeavesNone(rows, whole, cutoff);
        FewerRaw(rows, whole, cutoff);
        InsertRolled(whole);
        rows := rows - (set k | k in whole);
        rolled := rolled + |whole|;
      }
      PurgeIsClean(rows, cutoff, Limit(now));
      rows := map k | k in rows && k.at >= Limit(now) :: rows[k];
    }
  }
}
