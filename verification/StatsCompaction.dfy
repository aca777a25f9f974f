// Compacting the stats table (app/history.py: compact, _insert): one-minute rows
// before a cutoff become 15-minute rows, a batch at a time.
//
// The table is a map with the unique key (server, at, res). Each database
// session is one atomic transaction; any number of compactors, each with its
// own clock, and the recorder run between them, and any of them may die.

module StatsCompaction {
  import opened Prelude
  import opened StatsRollup

  const SPAN := 900
  const KEEP_RAW := 172800
  const KEEP_ALL := 2592000

  datatype Key = Key(server: string, at: int, res: int)

  type Table = map<Key, Data>

  function Cutoff(now: int): int { Bucket(now - KEEP_RAW, ROLLED) }

  function Limit(now: int): int { now - KEEP_ALL }

  lemma Quarter(t: int)
    ensures Bucket(t, ROLLED) == t - t % SPAN
  {
    QuarterOfDay(t % DAY);
    DaysAreWhole(t / DAY, t % DAY);
  }

  lemma QuarterOfDay(s: nat)
    ensures (s / 60 - s / 60 % ROLLED) * 60 == s - s % SPAN
  {
    var q, r := s / SPAN, s % SPAN;
    var u, v := r / 60, r % 60;
    assert s == 60 * (ROLLED * q + u) + v;
    assert s / 60 == ROLLED * q + u;
    assert (ROLLED * q + u) % ROLLED == u;
  }

  lemma DaysAreWhole(days: int, s: nat)
    ensures (DAY * days + s) % SPAN == s % SPAN
  {
    assert DAY * days + s == SPAN * (96 * days + s / SPAN) + s % SPAN;
  }

  lemma FloorsAreOrdered(a: int, b: int)
    requires a <= b
    ensures a - a % SPAN <= b - b % SPAN
    ensures (b - b % SPAN) % SPAN == 0
  {
    assert a / SPAN <= b / SPAN;
    assert b - b % SPAN == SPAN * (b / SPAN);
  }

  lemma CutoffsAreOrdered(a: int, b: int)
    requires a <= b
    ensures Cutoff(a) <= Cutoff(b) && Limit(a) <= Limit(b)
    ensures Cutoff(b) % SPAN == 0 && Limit(b) <= Cutoff(b)
  {
    Quarter(a - KEEP_RAW);
    Quarter(b - KEEP_RAW);
    FloorsAreOrdered(a - KEEP_RAW, b - KEEP_RAW);
  }

  // --- the table a clean run leaves ---------------------------------------------

  // A one-minute row that is before `edge`.
  predicate Raw(k: Key, edge: int) { k.res == 1 && k.at < edge }

  // The 15-minute row a reading goes into.
  function Into(k: Key): Key { Key(k.server, Bucket(k.at, ROLLED), ROLLED) }

  lemma IntoIsAround(k: Key)
    ensures Into(k).at % SPAN == 0 && Into(k).at <= k.at < Into(k).at + SPAN
  {
    Quarter(k.at);
  }

  // Two edges are a span apart.
  lemma Apart(a: int, b: int)
    requires a % SPAN == 0 && b % SPAN == 0 && a < b
    ensures a + SPAN <= b
  {}

  lemma IntoIs(k: Key, b: int)
    requires b % SPAN == 0 && b <= k.at < b + SPAN
    ensures Into(k).at == b
  {
    IntoIsAround(k);
    if b < Into(k).at { Apart(b, Into(k).at); }
    if Into(k).at < b { Apart(Into(k).at, b); }
  }

  // An edge does not cut a bucket.
  lemma IntoIsBefore(k: Key, e: int)
    requires e % SPAN == 0
    ensures k.at < e <==> Into(k).at < e
  {
    IntoIsAround(k);
    if Into(k).at < e { Apart(Into(k).at, e); }
  }

  // All of a server's readings from `at` up to `end`.
  function Readings(t: Table, server: string, at: int, end: int): Acc
    decreases end - at
  {
    if at >= end then Zero
    else
      var rest := Readings(t, server, at, end - 1);
      if Key(server, end - 1, 1) in t then Plus(rest, Single(t[Key(server, end - 1, 1)])) else rest
  }

  function RolledRow(t: Table, r: Key): Data {
    Out(Readings(t, r.server, r.at, r.at + SPAN))
  }

  lemma {:induction false} SameReadings(t: Table, u: Table, server: string, at: int, end: int)
    requires forall a :: at <= a < end ==>
      var k := Key(server, a, 1); (k in t <==> k in u) && (k in t ==> t[k] == u[k])
    ensures Readings(t, server, at, end) == Readings(u, server, at, end)
    decreases end - at
  {
    if at < end {
      SameReadings(t, u, server, at, end - 1);
      var k := Key(server, end - 1, 1);
      assert k in t <==> k in u;
    }
  }

  predicate Stays(k: Key, cutoff: int, limit: int) {
    k.at >= limit && !Raw(k, cutoff)
  }

  // Every row that is neither raw and old nor past keeping, and for every old
  // raw row its rolled row: the one already there, or the roll-up of its bucket.
  function Clean(t: Table, cutoff: int, limit: int): Table {
    (map k | k in (set x | x in t && Raw(x, cutoff) && Into(x).at >= limit :: Into(x)) :: RolledRow(t, k))
    + (map k | k in t && Stays(k, cutoff, limit) :: t[k])
  }

  ghost predicate Settles(t: Table, k: Key, cutoff: int, limit: int) {
    k.at >= limit && exists x :: x in t && Raw(x, cutoff) && Into(x) == k
  }

  lemma CleanIs(t: Table, cutoff: int, limit: int, k: Key)
    requires cutoff % SPAN == 0
    ensures k in Clean(t, cutoff, limit) <==> (k in t && Stays(k, cutoff, limit)) || Settles(t, k, cutoff, limit)
    ensures k in t && Stays(k, cutoff, limit) ==> Clean(t, cutoff, limit)[k] == t[k]
    ensures Settles(t, k, cutoff, limit) && k !in t ==> Clean(t, cutoff, limit)[k] == RolledRow(t, k)
    ensures Settles(t, k, cutoff, limit) ==> k.res == ROLLED && k.at < cutoff && k.at % SPAN == 0
  {
    forall x | x in t && Raw(x, cutoff)
      ensures Into(x).at < cutoff && Into(x).at % SPAN == 0
    {
      IntoIsAround(x);
    }
  }

  // --- the transactions ----------------------------------------------------------------

  // The rows of `_roll` over a whole number of buckets.
  function NewRows(rows: Table): Table {
    map k | k in (set x | x in rows :: Into(x)) :: RolledRow(rows, k)
  }

  // Insert, leaving any row already there alone.
  function Inserted(t: Table, rows: Table): Table { rows + t }

  function Purged(t: Table, limit: int): Table {
    map k | k in t && k.at >= limit :: t[k]
  }

  function RawRows(t: Table, edge: int): Table {
    map k | k in t && Raw(k, edge) :: t[k]
  }

  // --- one compactor's place in its loop ---------------------------------------------------

  datatype Place =
    | Reading                           // about to select a batch
    | Rereading(edge: int)              // about to select one whole bucket
    | Holding(rows: Table, more: bool)  // has rows in hand
    | Settled(rows: Table, more: bool)  // has inserted what they roll up to
    | Purging                           // its loop is over

  datatype Compactor = Compactor(now: int, place: Place)

  // The oldest rows before the cutoff, at most `batch` of them.
  ghost predicate Selects(raw: seq<Key>, t: Table, cutoff: int, batch: nat) {
    && Distinct(raw)
    && (forall k :: k in raw ==> k in t && Raw(k, cutoff))
    && |raw| <= batch
    && (forall i, j :: 0 <= i < j < |raw| ==> raw[i].at <= raw[j].at)
    && (forall k :: k in t && Raw(k, cutoff) && k !in raw ==> |raw| == batch && raw != [] && raw[|raw| - 1].at <= k.at)
  }

  function PickedBefore(t: Table, raw: seq<Key>, edge: int): Table
    requires forall k :: k in raw ==> k in t
  { map k | k in raw && k.at < edge :: t[k] }

  // What a compactor makes of the batch it read (the branches of the loop).
  function Sorted(t: Table, raw: seq<Key>, batch: nat): Place
    requires forall k :: k in raw ==> k in t
  {
    if raw == [] then Purging
    else if |raw| < batch then Holding(map k | k in raw :: t[k], false)
    else
      var edge := Bucket(raw[|raw| - 1].at, ROLLED);
      var whole := PickedBefore(t, raw, edge);
      if whole == map[] then Rereading(edge + SPAN) else Holding(whole, true)
  }

  lemma NoneIsMissed(t: Table, raw: seq<Key>, cutoff: int, batch: nat, edge: int, k: Key)
    requires Selects(raw, t, cutoff, batch) && raw != [] && edge <= raw[|raw| - 1].at && edge <= cutoff
    requires k in t && Raw(k, edge)
    ensures k in raw
  {}

  predicate IsEdge(edge: int, cutoff: int) { edge % SPAN == 0 && edge <= cutoff }

  lemma EdgeBelow(k: Key, cutoff: int)
    requires cutoff % SPAN == 0 && k.at < cutoff
    ensures var edge := Bucket(k.at, ROLLED);
      edge <= k.at < edge + SPAN && IsEdge(edge, cutoff) && IsEdge(edge + SPAN, cutoff)
  {
    IntoIsAround(k);
    assert Into(k).at == Bucket(k.at, ROLLED);
    Apart(Into(k).at, cutoff);
  }

  lemma FullBatchIsWhole(t: Table, raw: seq<Key>, cutoff: int, batch: nat)
    requires cutoff % SPAN == 0 && Selects(raw, t, cutoff, batch) && raw != [] && |raw| == batch
    ensures var edge := Bucket(raw[|raw| - 1].at, ROLLED);
      && IsEdge(edge, cutoff) && IsEdge(edge + SPAN, cutoff)
      && PickedBefore(t, raw, edge) == RawRows(t, edge)
      && RawRows(t, edge + SPAN) != map[]
  {
    var last := raw[|raw| - 1];
    var edge := Bucket(last.at, ROLLED);
    assert last in raw;
    EdgeBelow(last, cutoff);
    BeforeIsAllBefore(t, raw, cutoff, batch, edge);
    assert last in RawRows(t, edge + SPAN);
  }

  lemma BeforeIsAllBefore(t: Table, raw: seq<Key>, cutoff: int, batch: nat, edge: int)
    requires Selects(raw, t, cutoff, batch) && raw != [] && edge <= raw[|raw| - 1].at && edge <= cutoff
    ensures PickedBefore(t, raw, edge) == RawRows(t, edge)
  {
    var a, b := PickedBefore(t, raw, edge), RawRows(t, edge);
    forall k: Key
      ensures k in a <==> k in b
    {
      if k in b { NoneIsMissed(t, raw, cutoff, batch, edge, k); }
    }
  }

  lemma LastBatchIsWhole(t: Table, raw: seq<Key>, cutoff: int, batch: nat)
    requires Selects(raw, t, cutoff, batch) && |raw| < batch
    ensures (map k | k in raw :: t[k]) == RawRows(t, cutoff)
    ensures raw != [] ==> RawRows(t, cutoff) != map[]
  {
    if raw != [] {
      assert raw[0] in raw;
      assert raw[0] in RawRows(t, cutoff);
    }
  }

  // All raw rows before some edge that is not past the cutoff.
  ghost predicate WholeBuckets(t: Table, rows: Table, cutoff: int) {
    exists edge :: IsEdge(edge, cutoff) && rows == RawRows(t, edge)
  }

  ghost predicate IsWhole(t: Table, p: Place, cutoff: int) {
    match p
    case Purging => RawRows(t, cutoff) == map[]
    case Holding(rows, more) =>
      && rows != map[]
      && WholeBuckets(t, rows, cutoff)
      && (!more ==> rows == RawRows(t, cutoff))
    case Rereading(edge) => IsEdge(edge, cutoff) && RawRows(t, edge) != map[]
    case _ => false
  }

  lemma FullSortedIsWhole(t: Table, raw: seq<Key>, cutoff: int, batch: nat)
    requires cutoff % SPAN == 0 && Selects(raw, t, cutoff, batch) && raw != [] && |raw| == batch
    ensures IsWhole(t, Sorted(t, raw, batch), cutoff)
  {
    FullBatchIsWhole(t, raw, cutoff, batch);
    WholeAtEdge(t, Bucket(raw[|raw| - 1].at, ROLLED), cutoff);
  }

  lemma WholeAtEdge(t: Table, edge: int, cutoff: int)
    requires IsEdge(edge, cutoff) && IsEdge(edge + SPAN, cutoff) && RawRows(t, edge + SPAN) != map[]
    ensures var rows := RawRows(t, edge);
      IsWhole(t, if rows == map[] then Rereading(edge + SPAN) else Holding(rows, true), cutoff)
  {
    assert WholeBuckets(t, RawRows(t, edge), cutoff);
  }

  lemma LastSortedIsWhole(t: Table, raw: seq<Key>, cutoff: int, batch: nat)
    requires cutoff % SPAN == 0 && Selects(raw, t, cutoff, batch) && |raw| < batch
    ensures IsWhole(t, Sorted(t, raw, batch), cutoff)
  {
    LastBatchIsWhole(t, raw, cutoff, batch);
    assert IsEdge(cutoff, cutoff);
    assert raw != [] ==> WholeBuckets(t, map k | k in raw :: t[k], cutoff);
  }

  // Whatever was read is a whole number of buckets: all raw rows before some
  // bucket edge, that edge not past the cutoff; and the last batch is all of them.
  lemma SortedIsWhole(t: Table, raw: seq<Key>, cutoff: int, batch: nat)
    requires batch > 0 && cutoff % SPAN == 0 && Selects(raw, t, cutoff, batch)
    ensures IsWhole(t, Sorted(t, raw, batch), cutoff)
  {
    if |raw| == batch {
      FullSortedIsWhole(t, raw, cutoff, batch);
    } else {
      LastSortedIsWhole(t, raw, cutoff, batch);
    }
  }
}
