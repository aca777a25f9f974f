// Compactors, the recorder and crashes in any order: what the table comes to.

module CompactionRuns {
  import opened Prelude
  import opened StatsRollup
  import opened StatsCompaction

  // `base` is the table with no compactor ever run: what was there at first,
  // and what has been recorded since. `clock` is the latest any compactor's clock
  // has been so far.
  datatype World = World(table: Table, base: Table, compactors: map<nat, Compactor>, clock: Option<int>)

  datatype Step =
    | Start(who: nat, now: int)
    | Read(who: nat, raw: seq<Key>, batch: nat)
    | Reread(who: nat)
    | Insert(who: nat)
    | Delete(who: nat)
    | Purge(who: nat)
    | Crash(who: nat)
    | Record(rows: Table)

  // A reading is recorded as it is taken: at the time it is, it is not yet before
  // the cutoff of any compactor that has started.
  ghost predicate Enabled(w: World, step: Step) {
    match step
    case Start(i, now) => i !in w.compactors
    case Read(i, raw, batch) =>
      i in w.compactors && w.compactors[i].place.Reading? && batch > 0
      && Selects(raw, w.table, Cutoff(w.compactors[i].now), batch)
    case Reread(i) => i in w.compactors && w.compactors[i].place.Rereading?
    case Insert(i) => i in w.compactors && w.compactors[i].place.Holding?
    case Delete(i) => i in w.compactors && w.compactors[i].place.Settled?
    case Purge(i) => i in w.compactors && w.compactors[i].place.Purging?
    case Crash(_) => true
    case Record(rows) =>
      forall k :: k in rows ==> k.res == 1 && (w.clock.Some? ==> k.at >= Cutoff(w.clock.value))
  }

  function Later(clock: Option<int>, now: int): int {
    if clock.Some? && clock.value > now then clock.value else now
  }

  function At(w: World, i: nat, place: Place): map<nat, Compactor>
    requires i in w.compactors
  { w.compactors[i := w.compactors[i].(place := place)] }

  ghost function Next(w: World, step: Step): World
    requires Enabled(w, step)
  {
    match step
    case Start(i, now) =>
      w.(compactors := w.compactors[i := Compactor(now, Reading)], clock := Some(Later(w.clock, now)))
    case Read(i, raw, batch) => w.(compactors := At(w, i, Sorted(w.table, raw, batch)))
    case Reread(i) => w.(compactors := At(w, i, Holding(RawRows(w.table, w.compactors[i].place.edge), true)))
    case Insert(i) =>
      var Holding(rows, more) := w.compactors[i].place;
      w.(table := Inserted(w.table, NewRows(rows)), compactors := At(w, i, Settled(rows, more)))
    case Delete(i) =>
      var Settled(rows, more) := w.compactors[i].place;
      w.(table := w.table - rows.Keys, compactors := At(w, i, if more then Reading else Purging))
    case Purge(i) => w.(table := Purged(w.table, Limit(w.compactors[i].now)), compactors := w.compactors - {i})
    case Crash(i) => w.(compactors := w.compactors - {i})
    case Record(rows) => w.(table := Inserted(w.table, rows), base := Inserted(w.base, rows))
  }

  // --- what keeps the clean table the same --------------------------------------------

  // The raw rows of bucket `k` are the same in both tables.
  ghost predicate SameBucket(t: Table, u: Table, k: Key) {
    forall y: Key :: y.res == 1 && Into(y) == k ==> (y in t <==> y in u) && (y in t && y in u ==> t[y] == u[y])
  }

  lemma SameBucketRollsTheSame(t: Table, u: Table, k: Key)
    requires SameBucket(t, u, k) && k.res == ROLLED && k.at % SPAN == 0
    ensures RolledRow(t, k) == RolledRow(u, k)
  {
    forall a | k.at <= a < k.at + SPAN
      ensures var y := Key(k.server, a, 1); (y in t <==> y in u) && (y in t ==> t[y] == u[y])
    {
      IntoIs(Key(k.server, a, 1), k.at);
      assert Into(Key(k.server, a, 1)) == k;
    }
    SameReadings(t, u, k.server, k.at, k.at + SPAN);
  }

  // At one key: a kept row stays the same row, a new one is what its bucket
  // comes to, and a bucket not rolled yet stays the same bucket.
  ghost predicate SameAt(t: Table, u: Table, c: int, l: int, k: Key) {
    && (k in t && Stays(k, c, l) ==> k in u && u[k] == t[k])
    && (k in u && k !in t && Stays(k, c, l) ==> Settles(t, k, c, l) && u[k] == RolledRow(t, k))
    && (Settles(t, k, c, l) && k !in u ==> Settles(u, k, c, l) && SameBucket(t, u, k))
    && (Settles(u, k, c, l) ==> Settles(t, k, c, l))
  }

  lemma ComesToTheSameAt(t: Table, u: Table, c: int, l: int, k: Key)
    requires c % SPAN == 0 && SameAt(t, u, c, l, k)
    ensures k in Clean(t, c, l) <==> k in Clean(u, c, l)
    ensures k in Clean(t, c, l) ==> Clean(t, c, l)[k] == Clean(u, c, l)[k]
  {
    CleanIs(t, c, l, k);
    CleanIs(u, c, l, k);
    if Settles(t, k, c, l) && k !in u {
      SameBucketRollsTheSame(t, u, k);
    }
  }

  // Two tables alike in that way at every key come to the same.
  lemma ComeToTheSame(t: Table, u: Table, c: int, l: int)
    requires c % SPAN == 0 && forall k :: SameAt(t, u, c, l, k)
    ensures Clean(t, c, l) == Clean(u, c, l)
  {
    var a, b := Clean(t, c, l), Clean(u, c, l);
    forall k
      ensures k in a <==> k in b
      ensures k in a ==> a[k] == b[k]
    {
      assert SameAt(t, u, c, l, k);
      ComesToTheSameAt(t, u, c, l, k);
    }
  }

  lemma InsertedSettles(t: Table, rows: Table, c: int, l: int, k: Key)
    requires c % SPAN == 0 && Pending(t, rows, c, l)
    requires k in Inserted(t, NewRows(rows)) && k !in t && Stays(k, c, l)
    ensures Settles(t, k, c, l) && Inserted(t, NewRows(rows))[k] == RolledRow(t, k)
  {
    var x :| x in rows && Into(x) == k;
    assert SameBucket(t, rows, k);
    assert x in t;
    IntoIsAround(x);
    SameBucketRollsTheSame(t, rows, k);
  }

  // Inserting adds no raw row, so the same keys settle.
  lemma InsertKeepsSettles(t: Table, rows: Table, c: int, l: int, k: Key)
    requires c % SPAN == 0 && Pending(t, rows, c, l)
    ensures Settles(Inserted(t, NewRows(rows)), k, c, l) <==> Settles(t, k, c, l)
  {
    var u := Inserted(t, NewRows(rows));
    if Settles(t, k, c, l) {
      var x :| x in t && Raw(x, c) && Into(x) == k;
      assert x in u;
    }
    if Settles(u, k, c, l) {
      var x :| x in u && Raw(x, c) && Into(x) == k;
      assert x in t;
    }
  }

  lemma InsertKeepsClean(t: Table, rows: Table, c: int, l: int)
    requires c % SPAN == 0 && Pending(t, rows, c, l)
    ensures Clean(Inserted(t, NewRows(rows)), c, l) == Clean(t, c, l)
  {
    var u := Inserted(t, NewRows(rows));
    forall k | k in u && k !in t && Stays(k, c, l)
      ensures Settles(t, k, c, l) && u[k] == RolledRow(t, k)
    {
      InsertedSettles(t, rows, c, l, k);
    }
    forall k: Key
      ensures Settles(u, k, c, l) <==> Settles(t, k, c, l)
    {
      InsertKeepsSettles(t, rows, c, l, k);
    }
    assert forall k: Key :: Settles(t, k, c, l) && k !in u ==> SameBucket(t, u, k);
    ComeToTheSame(t, u, c, l);
  }

  lemma DeleteKeepsClean(t: Table, rows: Table, c: int, l: int)
    requires c % SPAN == 0 && RolledIn(t, rows, c, l)
    ensures Clean(t - rows.Keys, c, l) == Clean(t, c, l)
  {
    var u := t - rows.Keys;
    forall k | Settles(t, k, c, l) && k !in u
      ensures Settles(u, k, c, l) && SameBucket(t, u, k)
    {
      CleanIs(t, c, l, k);
      assert k !in t;
      var x :| x in t && Raw(x, c) && Into(x) == k;
      assert x in u;
    }
    forall k | Settles(u, k, c, l)
      ensures Settles(t, k, c, l)
    {
      var x :| x in u && Raw(x, c) && Into(x) == k;
      assert x in t;
    }
    ComeToTheSame(t, u, c, l);
  }

  lemma PurgeKeepsClean(t: Table, limit: int, c: int, l: int)
    requires c % SPAN == 0 && limit <= l
    ensures Clean(Purged(t, limit), c, l) == Clean(t, c, l)
  {
    var u := Purged(t, limit);
    forall k | Settles(t, k, c, l)
      ensures Settles(u, k, c, l) && SameBucket(t, u, k)
    {
      var x :| x in t && Raw(x, c) && Into(x) == k;
      forall y: Key | y.res == 1 && Into(y) == k
        ensures y in t <==> y in u
      {
        IntoIsAround(y);
      }
      IntoIsAround(x);
      assert x in u;
    }
    forall k | Settles(u, k, c, l)
      ensures Settles(t, k, c, l)
    {
      var x :| x in u && Raw(x, c) && Into(x) == k;
      assert x in t;
    }
    ComeToTheSame(t, u, c, l);
  }

  lemma RecordIntoClean(t: Table, rows: Table, c: int, l: int)
    requires c % SPAN == 0 && l <= c
    requires forall k :: k in rows ==> k.res == 1 && k.at >= c
    ensures Clean(Inserted(t, rows), c, l) == Inserted(Clean(t, c, l), rows)
  {
    var u := Inserted(t, rows);
    var a, b := Clean(u, c, l), Inserted(Clean(t, c, l), rows);
    forall k
      ensures k in a <==> k in b
      ensures k in a ==> a[k] == b[k]
    {
      CleanIs(u, c, l, k);
      CleanIs(t, c, l, k);
      SettlesTheSame(t, u, k, c, l);
    }
  }

  lemma SettlesTheSame(t: Table, u: Table, k: Key, c: int, l: int)
    requires c % SPAN == 0 && forall x :: Raw(x, c) ==> (x in t <==> x in u) && (x in t ==> t[x] == u[x])
    ensures Settles(t, k, c, l) <==> Settles(u, k, c, l)
    ensures Settles(t, k, c, l) ==> RolledRow(t, k) == RolledRow(u, k)
  {
    if Settles(t, k, c, l) {
      var x :| x in t && Raw(x, c) && Into(x) == k;
      assert x in u;
      IntoIsAround(x);
      IntoIsBefore(x, c);
      forall y: Key | y.res == 1 && Into(y) == k
        ensures Raw(y, c)
      {
        IntoIsBefore(y, c);
      }
      SameBucketRollsTheSame(t, u, k);
    }
    if Settles(u, k, c, l) {
      var x :| x in u && Raw(x, c) && Into(x) == k;
      assert x in t;
    }
  }

  // --- what a compactor in mid-loop may count on ----------------------------------------

  // Rows in hand: each one's roll-up is in the table or past keeping, or its
  // bucket is still in the table as it was read.
  ghost predicate Pending(t: Table, rows: Table, c: int, l: int) {
    forall x :: x in rows ==>
      Raw(x, c) && (Into(x) in t || Into(x).at < l || SameBucket(t, rows, Into(x)))
  }

  // Rows settled: each one's roll-up is in the table or past keeping.
  ghost predicate RolledIn(t: Table, rows: Table, c: int, l: int) {
    forall x :: x in rows ==> Raw(x, c) && (Into(x) in t || Into(x).at < l)
  }

  // No raw rows before the cutoff but those.
  ghost predicate Covers(t: Table, rows: Table, c: int) {
    forall k :: k in t && Raw(k, c) ==> k in rows
  }

  ghost predicate NoRaw(t: Table, c: int) {
    forall k :: k in t ==> !Raw(k, c)
  }

  ghost predicate PlaceHolds(t: Table, p: Place, c: int, l: int) {
    match p
    case Reading => true
    case Rereading(edge) => edge % SPAN == 0 && edge <= c
    case Holding(rows, more) => Pending(t, rows, c, l) && (!more ==> Covers(t, rows, c))
    case Settled(rows, more) => RolledIn(t, rows, c, l) && (!more ==> Covers(t, rows, c))
    case Purging => NoRaw(t, c)
  }

  // All that anybody else's transaction does to the table.
  ghost predicate Disturbs(t: Table, u: Table, c: int, l: int) {
    && (forall k :: k in t && k in u ==> u[k] == t[k])
    && (forall k :: k in u && k !in t && k.res == 1 ==> k.at >= c)
    && (forall k :: k in t && k !in u && k.res == 1 ==> Into(k) in u || Into(k).at < l)
    && (forall k :: k in t && k !in u && k.res == ROLLED ==> k.at < l)
  }

  lemma PlacesSurvive(t: Table, u: Table, p: Place, c: int, latestC: int, l: int)
    requires c % SPAN == 0 && c <= latestC && Disturbs(t, u, latestC, l) && PlaceHolds(t, p, c, l)
    ensures PlaceHolds(u, p, c, l)
  {
    if p.Holding? {
      forall x | x in p.rows
        ensures Into(x) in u || Into(x).at < l || SameBucket(u, p.rows, Into(x))
      {
        if !(Into(x) in u || Into(x).at < l) {
          assert SameBucket(t, p.rows, Into(x));
          IntoIsBefore(x, c);
          forall y: Key | y.res == 1 && Into(y) == Into(x)
            ensures (y in u <==> y in p.rows) && (y in u && y in p.rows ==> u[y] == p.rows[y])
          {
            IntoIsBefore(y, c);
            assert y.at < c;
          }
        }
      }
    }
  }

  ghost predicate Inv(w: World, latest: int) {
    && Clean(w.table, Cutoff(latest), Limit(latest)) == Clean(w.base, Cutoff(latest), Limit(latest))
    && forall i :: i in w.compactors ==>
         && w.compactors[i].now <= latest
         && PlaceHolds(w.table, w.compactors[i].place, Cutoff(w.compactors[i].now), Limit(latest))
  }

  // A run before any compactor, and one whose latest clock so far is known.
  ghost predicate Holds(w: World) {
    if w.clock.Some? then Inv(w, w.clock.value) else w.table == w.base && w.compactors == map[]
  }

  // A whole number of buckets, just read, is pending.
  lemma ReadIsPending(t: Table, edge: int, c: int, l: int)
    requires edge % SPAN == 0 && edge <= c
    ensures Pending(t, RawRows(t, edge), c, l)
  {
    var rows := RawRows(t, edge);
    forall x | x in rows
      ensures SameBucket(t, rows, Into(x))
    {
      IntoIsBefore(x, edge);
      forall y: Key | y.res == 1 && Into(y) == Into(x)
        ensures y in t <==> y in rows
      {
        IntoIsBefore(y, edge);
      }
    }
  }

  lemma ReadHolds(t: Table, raw: seq<Key>, batch: nat, c: int, l: int)
    requires batch > 0 && c % SPAN == 0 && Selects(raw, t, c, batch)
    ensures PlaceHolds(t, Sorted(t, raw, batch), c, l)
  {
    SortedIsWhole(t, raw, c, batch);
    var p := Sorted(t, raw, batch);
    if p.Holding? {
      var edge :| IsEdge(edge, c) && p.rows == RawRows(t, edge);
      ReadIsPending(t, edge, c, l);
      if !p.more {
        forall k | k in t && Raw(k, c)
          ensures k in p.rows
        {
          assert k in RawRows(t, c);
        }
      }
    } else if p.Purging? {
      forall k | k in t
        ensures !Raw(k, c)
      {
        assert k !in RawRows(t, c);
      }
    }
  }

  lemma OthersSurvive(w: World, u: Table, latest: int)
    requires Inv(w, latest) && Disturbs(w.table, u, Cutoff(latest), Limit(latest))
    ensures forall i :: i in w.compactors ==>
      PlaceHolds(u, w.compactors[i].place, Cutoff(w.compactors[i].now), Limit(latest))
  {
    forall i | i in w.compactors
      ensures PlaceHolds(u, w.compactors[i].place, Cutoff(w.compactors[i].now), Limit(latest))
    {
      CutoffsAreOrdered(w.compactors[i].now, latest);
      CutoffsAreOrdered(w.compactors[i].now, w.compactors[i].now);
      PlacesSurvive(w.table, u, w.compactors[i].place, Cutoff(w.compactors[i].now), Cutoff(latest), Limit(latest));
    }
  }

  lemma InsertSettles(t: Table, rows: Table, c: int, l: int, latestC: int)
    requires Pending(t, rows, c, l)
    ensures RolledIn(Inserted(t, NewRows(rows)), rows, c, l)
    ensures Covers(t, rows, c) ==> Covers(Inserted(t, NewRows(rows)), rows, c)
    ensures Disturbs(t, Inserted(t, NewRows(rows)), latestC, l)
  {
    forall x | x in rows
      ensures Into(x) in NewRows(rows)
    {}
  }

  lemma InsertKeeps(w: World, i: nat, latest: int)
    requires Inv(w, latest) && Enabled(w, Insert(i))
    ensures Inv(Next(w, Insert(i)), latest)
  {
    CutoffsAreOrdered(w.compactors[i].now, latest);
    var rows := w.compactors[i].place.rows;
    assert PlaceHolds(w.table, w.compactors[i].place, Cutoff(w.compactors[i].now), Limit(latest));
    InsertKeepsClean(w.table, rows, Cutoff(latest), Limit(latest));
    InsertSettles(w.table, rows, Cutoff(w.compactors[i].now), Limit(latest), Cutoff(latest));
    OthersSurvive(w, Inserted(w.table, NewRows(rows)), latest);
  }

  lemma DeleteDisturbs(t: Table, rows: Table, c: int, l: int)
    requires RolledIn(t, rows, c, l)
    ensures Disturbs(t, t - rows.Keys, c, l)
    ensures Covers(t, rows, c) ==> NoRaw(t - rows.Keys, c)
  {}

  lemma DeleteKeeps(w: World, i: nat, latest: int)
    requires Inv(w, latest) && Enabled(w, Delete(i))
    ensures Inv(Next(w, Delete(i)), latest)
  {
    CutoffsAreOrdered(w.compactors[i].now, latest);
    var rows := w.compactors[i].place.rows;
    assert PlaceHolds(w.table, w.compactors[i].place, Cutoff(w.compactors[i].now), Limit(latest));
    DeleteKeepsClean(w.table, rows, Cutoff(latest), Limit(latest));
    DeleteDisturbs(w.table, rows, Cutoff(w.compactors[i].now), Limit(latest));
    OthersSurvive(w, w.table - rows.Keys, latest);
  }

  lemma PurgeDisturbs(t: Table, limit: int, c: int, l: int)
    requires limit <= l
    ensures Disturbs(t, Purged(t, limit), c, l)
  {
    forall k | k in t && k !in Purged(t, limit) && k.res == 1
      ensures Into(k).at < l
    {
      IntoIsAround(k);
    }
  }

  lemma PurgeKeeps(w: World, i: nat, latest: int)
    requires Inv(w, latest) && Enabled(w, Purge(i))
    ensures Inv(Next(w, Purge(i)), latest)
  {
    var limit := Limit(w.compactors[i].now);
    CutoffsAreOrdered(w.compactors[i].now, latest);
    PurgeKeepsClean(w.table, limit, Cutoff(latest), Limit(latest));
    PurgeDisturbs(w.table, limit, Cutoff(latest), Limit(latest));
    OthersSurvive(w, Purged(w.table, limit), latest);
  }

  lemma RecordKeeps(w: World, rows: Table, latest: int)
    requires Inv(w, latest) && w.clock == Some(latest) && Enabled(w, Record(rows))
    ensures Inv(Next(w, Record(rows)), latest)
  {
    CutoffsAreOrdered(latest, latest);
    RecordIntoClean(w.table, rows, Cutoff(latest), Limit(latest));
    RecordIntoClean(w.base, rows, Cutoff(latest), Limit(latest));
    OthersSurvive(w, Inserted(w.table, rows), latest);
  }

  // A clock later than all before it asks for no more: what a later clean run makes
  // of a table is what it makes of the table an earlier one leaves.
  lemma CleanAgainAt(t: Table, c: int, l: int, c': int, l': int, k: Key)
    requires c % SPAN == 0 && c' % SPAN == 0 && l <= c <= c' && l <= l'
    ensures SameAt(t, Clean(t, c, l), c', l', k)
  {
    var u := Clean(t, c, l);
    CleanIs(t, c, l, k);
    if Settles(t, k, c', l') && k !in u { BucketUntouched(t, c, l, c', l', k); }
    if Settles(u, k, c', l') {
      var x :| x in u && Raw(x, c') && Into(x) == k;
      CleanIs(t, c, l, x);
    }
    if k in u && k !in t && Stays(k, c', l') {
      var x :| x in t && Raw(x, c) && Into(x) == k;
      assert Raw(x, c');
    }
  }

  lemma BucketUntouched(t: Table, c: int, l: int, c': int, l': int, k: Key)
    requires c % SPAN == 0 && c' % SPAN == 0 && l <= c <= c' && l <= l'
    requires Settles(t, k, c', l') && k !in Clean(t, c, l)
    ensures Settles(Clean(t, c, l), k, c', l') && SameBucket(t, Clean(t, c, l), k)
  {
    var u := Clean(t, c, l);
    CleanIs(t, c, l, k);
    var x :| x in t && Raw(x, c') && Into(x) == k;
    IntoIsBefore(x, c);
    IntoIsBefore(x, c');
    forall y: Key | y.res == 1 && Into(y) == k
      ensures (y in t <==> y in u) && (y in t && y in u ==> t[y] == u[y])
    {
      IntoIsAround(y);
      IntoIsBefore(y, c);
      IntoIsBefore(y, c');
      CleanIs(t, c, l, y);
    }
    assert x in u;
  }

  lemma CleanAgain(t: Table, c: int, l: int, c': int, l': int)
    requires c % SPAN == 0 && c' % SPAN == 0 && l <= c <= c' && l <= l'
    ensures Clean(Clean(t, c, l), c', l') == Clean(t, c', l')
  {
    forall k
      ensures SameAt(t, Clean(t, c, l), c', l', k)
    {
      CleanAgainAt(t, c, l, c', l', k);
    }
    ComeToTheSame(t, Clean(t, c, l), c', l');
  }

  lemma PlaceHoldsLater(t: Table, p: Place, c: int, l: int, l': int)
    requires PlaceHolds(t, p, c, l) && l <= l'
    ensures PlaceHolds(t, p, c, l')
  {}

  lemma HoldsLater(w: World, latest: int, later: int)
    requires Inv(w, latest) && latest <= later
    ensures Inv(w, later)
  {
    CutoffsAreOrdered(latest, later);
    CutoffsAreOrdered(latest, latest);
    CleanAgain(w.table, Cutoff(latest), Limit(latest), Cutoff(later), Limit(later));
    CleanAgain(w.base, Cutoff(latest), Limit(latest), Cutoff(later), Limit(later));
    forall i | i in w.compactors
      ensures PlaceHolds(w.table, w.compactors[i].place, Cutoff(w.compactors[i].now), Limit(later))
    {
      PlaceHoldsLater(w.table, w.compactors[i].place, Cutoff(w.compactors[i].now), Limit(latest), Limit(later));
    }
  }

  lemma StartKeeps(w: World, i: nat, now: int)
    requires Holds(w) && Enabled(w, Start(i, now))
    ensures Holds(Next(w, Start(i, now)))
  {
    if w.clock.Some? { HoldsLater(w, w.clock.value, Later(w.clock, now)); }
  }

  lemma StepKeeps(w: World, step: Step)
    requires Holds(w) && Enabled(w, step)
    ensures Holds(Next(w, step))
  {
    match step {
      case Start(i, now) => StartKeeps(w, i, now);
      case Read(i, raw, batch) =>
        CutoffsAreOrdered(w.compactors[i].now, w.compactors[i].now);
        ReadHolds(w.table, raw, batch, Cutoff(w.compactors[i].now), Limit(w.clock.value));
      case Reread(i) =>
        ReadIsPending(w.table, w.compactors[i].place.edge, Cutoff(w.compactors[i].now), Limit(w.clock.value));
      case Insert(i) => InsertKeeps(w, i, w.clock.value);
      case Delete(i) => DeleteKeeps(w, i, w.clock.value);
      case Purge(i) => PurgeKeeps(w, i, w.clock.value);
      case Record(rows) => if w.clock.Some? { RecordKeeps(w, rows, w.clock.value); }
      case Crash(i) =>
    }
  }

  ghost function After(start: Table, steps: seq<Step>): World {
    if steps == [] then World(start, start, map[], None)
    else
      var w := After(start, steps[..|steps| - 1]);
      if Enabled(w, steps[|steps| - 1]) then Next(w, steps[|steps| - 1]) else w
  }

  // Over weeks of hourly compactors, late reruns and crashes: at every moment the
  // table and all the readings ever recorded come to the same clean table.
  lemma {:induction false} EveryRunKeeps(start: Table, steps: seq<Step>)
    ensures Holds(After(start, steps))
  {
    if steps != [] {
      EveryRunKeeps(start, steps[..|steps| - 1]);
      var w := After(start, steps[..|steps| - 1]);
      if Enabled(w, steps[|steps| - 1]) { StepKeeps(w, steps[|steps| - 1]); }
    }
  }

  // However many compactors ran, in whatever order their transactions fell,
  // whoever died where, and whatever was recorded from first to last: the moment
  // one whose clock is the latest so far purges, the table is exactly what one
  // clean run makes of all the readings.
  lemma AnyInterleavingIsOneCleanRun(start: Table, steps: seq<Step>, i: nat)
    requires Enabled(After(start, steps), Purge(i))
    requires After(start, steps).clock == Some(After(start, steps).compactors[i].now)
    ensures var w, now := After(start, steps + [Purge(i)]), After(start, steps).compactors[i].now;
      w.table == Clean(w.base, Cutoff(now), Limit(now))
  {
    EveryRunKeeps(start, steps);
    var w := After(start, steps);
    var latest := w.clock.value;
    PurgeKeeps(w, i, latest);
    assert (steps + [Purge(i)])[..|steps|] == steps;
    var u := Next(w, Purge(i));
    CutoffsAreOrdered(latest, latest);
    NothingLeftToDo(u.table, Cutoff(latest), Limit(latest));
  }

  // The j-th step recorded a row at `k`.
  ghost predicate RecordedAt(start: Table, steps: seq<Step>, j: nat, k: Key)
    requires j < |steps|
  {
    steps[j].Record? && k in steps[j].rows && Enabled(After(start, steps[..j]), steps[j])
  }

  lemma RecordedSoFar(start: Table, steps: seq<Step>, j: nat, k: Key)
    requires steps != [] && j < |steps| - 1
    ensures RecordedAt(start, steps[..|steps| - 1], j, k) <==> RecordedAt(start, steps, j, k)
  {
    var init := steps[..|steps| - 1];
    assert init[..j] == steps[..j] && init[j] == steps[j];
  }

  // It was the first to: nothing was there to begin with, and nothing recorded before.
  ghost predicate FirstAt(start: Table, steps: seq<Step>, j: nat, k: Key)
    requires j < |steps|
  {
    && k !in start && RecordedAt(start, steps, j, k)
    && forall i :: 0 <= i < j ==> !RecordedAt(start, steps, i, k)
  }

  lemma {:induction false} OnlyReadingsCount(start: Table, steps: seq<Step>, k: Key)
    requires k !in start && forall i :: 0 <= i < |steps| ==> !RecordedAt(start, steps, i, k)
    ensures k !in After(start, steps).base
  {
    if steps != [] {
      var init := steps[..|steps| - 1];
      forall i | 0 <= i < |init|
        ensures !RecordedAt(start, init, i, k)
      {
        RecordedSoFar(start, steps, i, k);
      }
      OnlyReadingsCount(start, init, k);
      assert !RecordedAt(start, steps, |init|, k);
    }
  }

  lemma BaseOnlyGrows(start: Table, steps: seq<Step>, k: Key)
    requires steps != [] && k in After(start, steps[..|steps| - 1]).base
    ensures k in After(start, steps).base
    ensures After(start, steps).base[k] == After(start, steps[..|steps| - 1]).base[k]
  {
    var w, step := After(start, steps[..|steps| - 1]), steps[|steps| - 1];
    if Enabled(w, step) { BaseStays(w, step, k); }
  }

  lemma BaseStays(w: World, step: Step, k: Key)
    requires Enabled(w, step) && k in w.base
    ensures k in Next(w, step).base && Next(w, step).base[k] == w.base[k]
  {}

  lemma {:induction false} FirstReadingCounts(start: Table, steps: seq<Step>, j: nat, k: Key)
    requires j < |steps| && FirstAt(start, steps, j, k)
    ensures k in After(start, steps).base && After(start, steps).base[k] == steps[j].rows[k]
  {
    var init := steps[..|steps| - 1];
    forall i | 0 <= i < |init|
      ensures RecordedAt(start, init, i, k) <==> RecordedAt(start, steps, i, k)
    {
      RecordedSoFar(start, steps, i, k);
    }
    if j < |init| {
      FirstReadingCounts(start, init, j, k);
      BaseOnlyGrows(start, steps, k);
    } else {
      OnlyReadingsCount(start, init, k);
    }
  }

  // And what it is compared with has what was there to begin with, at every other key
  // the first row recorded since, and nothing else.
  lemma EveryReadingCounts(start: Table, steps: seq<Step>, k: Key)
    ensures k in start ==> k in After(start, steps).base && After(start, steps).base[k] == start[k]
    ensures forall j :: 0 <= j < |steps| && FirstAt(start, steps, j, k) ==>
      k in After(start, steps).base && After(start, steps).base[k] == steps[j].rows[k]
    ensures k in After(start, steps).base ==>
      k in start || exists j :: 0 <= j < |steps| && RecordedAt(start, steps, j, k)
  {
    StartCounts(start, steps, k);
    forall j | 0 <= j < |steps| && FirstAt(start, steps, j, k)
      ensures k in After(start, steps).base && After(start, steps).base[k] == steps[j].rows[k]
    {
      FirstReadingCounts(start, steps, j, k);
    }
    if k !in start && forall i :: 0 <= i < |steps| ==> !RecordedAt(start, steps, i, k) {
      OnlyReadingsCount(start, steps, k);
    }
  }

  lemma {:induction false} StartCounts(start: Table, steps: seq<Step>, k: Key)
    ensures k in start ==> k in After(start, steps).base && After(start, steps).base[k] == start[k]
  {
    if steps != [] && k in start {
      StartCounts(start, steps[..|steps| - 1], k);
      BaseOnlyGrows(start, steps, k);
    }
  }

  lemma NothingLeftToDo(t: Table, c: int, l: int)
    requires c % SPAN == 0 && forall k :: k in t ==> Stays(k, c, l)
    ensures Clean(t, c, l) == t
  {
    forall k
      ensures k in Clean(t, c, l) <==> k in t
      ensures k in t ==> Clean(t, c, l)[k] == t[k]
    {
      CleanIs(t, c, l, k);
    }
  }

  // Running it again, at once or ever so much later, is running it the last time
  // alone; at once, it changes nothing.
  lemma CleanIsIdempotent(t: Table, now: int, later: int)
    requires now <= later
    ensures Clean(Clean(t, Cutoff(now), Limit(now)), Cutoff(later), Limit(later))
         == Clean(t, Cutoff(later), Limit(later))
  {
    CutoffsAreOrdered(now, now);
    CutoffsAreOrdered(now, later);
    CleanAgain(t, Cutoff(now), Limit(now), Cutoff(later), Limit(later));
  }

  // --- how a compactor gets on ---------------------------------------------------------------

  // Only its own steps move a compactor.
  predicate IsOwn(step: Step, i: nat) { !step.Record? && step.who == i }

  lemma OthersStandStill(w: World, step: Step, i: nat)
    requires Enabled(w, step) && !IsOwn(step, i)
    ensures i in Next(w, step).compactors <==> i in w.compactors
    ensures i in w.compactors ==> Next(w, step).compactors[i] == w.compactors[i]
  {}

  ghost predicate IsAt(w: World, i: nat, now: int, place: Place) {
    i in w.compactors && w.compactors[i] == Compactor(now, place)
  }

  // From its start a compactor reads; of what it read it holds whole buckets, or reads one
  // bucket again, or has nothing more to roll up;
  lemma ACompactorReads(w: World, i: nat, now: int, raw: seq<Key>, batch: nat)
    requires Cutoff(now) % SPAN == 0
    ensures i !in w.compactors ==> Enabled(w, Start(i, now)) && IsAt(Next(w, Start(i, now)), i, now, Reading)
    ensures IsAt(w, i, now, Reading) && batch > 0 && Selects(raw, w.table, Cutoff(now), batch) ==>
      && Enabled(w, Read(i, raw, batch))
      && var t := Next(w, Read(i, raw, batch));
      t.table == w.table && i in t.compactors && t.compactors[i].now == now
      && IsWhole(w.table, t.compactors[i].place, Cutoff(now))
  {
    if IsAt(w, i, now, Reading) && batch > 0 && Selects(raw, w.table, Cutoff(now), batch) {
      SortedIsWhole(w.table, raw, Cutoff(now), batch);
    }
  }

  // reading a bucket again, it holds all of it;
  lemma ACompactorRereads(w: World, i: nat, now: int, edge: int)
    requires IsAt(w, i, now, Rereading(edge))
    ensures Enabled(w, Reread(i))
    ensures Next(w, Reread(i)).table == w.table
    ensures IsAt(Next(w, Reread(i)), i, now, Holding(RawRows(w.table, edge), true))
  {}

  // what it holds it inserts, rolled up, and then deletes;
  lemma ACompactorRolls(w: World, i: nat, now: int, rows: Table, more: bool)
    ensures IsAt(w, i, now, Holding(rows, more)) ==>
      && Enabled(w, Insert(i)) && IsAt(Next(w, Insert(i)), i, now, Settled(rows, more))
      && Next(w, Insert(i)).table == Inserted(w.table, NewRows(rows))
    ensures IsAt(w, i, now, Settled(rows, more)) ==>
      && Enabled(w, Delete(i)) && IsAt(Next(w, Delete(i)), i, now, if more then Reading else Purging)
      && (forall k :: k in Next(w, Delete(i)).table <==> k in w.table && k !in rows)
  {}

  // and with nothing more to roll up it purges, and is done. A crash ends it anywhere.
  lemma ACompactorEnds(w: World, i: nat, now: int)
    ensures IsAt(w, i, now, Purging) ==>
      && Enabled(w, Purge(i)) && i !in Next(w, Purge(i)).compactors
      && (forall k :: k in Next(w, Purge(i)).table <==> k in w.table && k.at >= Limit(now))
    ensures i !in Next(w, Crash(i)).compactors && Next(w, Crash(i)).table == w.table
  {}
}
