// The cache as an object: claims, the check whether a file is there, and pruning.

module DownloadCache {
  import opened Prelude
  import opened CacheClaims

  datatype File = File(mtime: real, size: nat)

  ghost function Total(files: map<Sha, File>): nat {
    if files == map[] then 0
    else
      var k :| k in files;
      files[k].size + Total(files - {k})
  }

  lemma {:induction false} TotalWithout(files: map<Sha, File>, k: Sha)
    requires k in files
    ensures Total(files) == files[k].size + Total(files - {k})
    decreases files
  {
    var j :| j in files && Total(files) == files[j].size + Total(files - {j});
    if j != k {
      TotalWithout(files - {j}, k);
      TotalWithout(files - {k}, j);
      assert files - {j} - {k} == files - {k} - {j};
    }
  }

  // The order `sorted` puts (mtime, size, ...) in.
  predicate NotAfter(a: File, b: File) {
    a.mtime < b.mtime || (a.mtime == b.mtime && a.size <= b.size)
  }

  ghost predicate OldestFirst(order: seq<Sha>, files: map<Sha, File>) {
    && Distinct(order)
    && (forall k :: k in order <==> k in files)
    && (forall i, j :: 0 <= i < j < |order| ==> NotAfter(files[order[i]], files[order[j]]))
  }

  // What pruning leaves. `inUse(i)` is who was claimed when it came to the i-th
  // oldest file; `stuck` is what cannot be deleted.
  ghost predicate Pruned(before: map<Sha, File>, after: map<Sha, File>, order: seq<Sha>,
                         inUse: nat -> set<Sha>, stuck: set<Sha>, limit: int) {
    && OldestFirst(order, before)
    && after.Keys <= before.Keys && (forall k :: k in after ==> after[k] == before[k])
    && (forall i :: 0 <= i < |order| && order[i] !in after ==> order[i] !in inUse(i) && order[i] !in stuck)
    // Oldest first: a younger file goes only when every older one went or could not.
    && (forall i, j :: 0 <= i < j < |order| && order[j] !in after && order[i] in after ==>
          order[i] in inUse(i) || order[i] in stuck)
    // It stops when the cache fits, or the rest is in use or stuck; and no sooner, and no later.
    && (Total(after) <= limit ||
        forall i :: 0 <= i < |order| && order[i] in after ==> order[i] in inUse(i) || order[i] in stuck)
    && (after != before ==> exists k :: k in before && k !in after && Total(after) + before[k].size > limit)
  }

  // Pruning that has come to the n-th oldest file.
  ghost predicate PrunedTo(before: map<Sha, File>, after: map<Sha, File>, order: seq<Sha>,
                           inUse: nat -> set<Sha>, stuck: set<Sha>, n: nat) {
    && n <= |order|
    && after.Keys <= before.Keys && (forall k :: k in after ==> after[k] == before[k])
    && (forall i :: n <= i < |order| ==> order[i] in after)
    && (forall i :: 0 <= i < n ==> (order[i] in after <==> order[i] in inUse(i) || order[i] in stuck))
  }

  lemma PrunesOneMore(before: map<Sha, File>, after: map<Sha, File>, order: seq<Sha>,
                      inUse: nat -> set<Sha>, stuck: set<Sha>, n: nat)
    requires OldestFirst(order, before) && PrunedTo(before, after, order, inUse, stuck, n) && n < |order|
    ensures PrunedTo(before, if order[n] in inUse(n) || order[n] in stuck then after else after - {order[n]},
                     order, inUse, stuck, n + 1)
  {}

  class Cache {
    var locks: map<Sha, nat>
    var users: map<Sha, nat>
    var holder: map<nat, nat>
    var claims: seq<Claim>
    var nextLock: nat
    var files: map<Sha, File>
    const limit: int

    function View(): State
      reads this
    {
      State(locks, users, holder, claims, nextLock)
    }

    constructor (limit: int, found: map<Sha, File>)
      ensures View() == Empty && files == found && this.limit == limit
    {
      locks, users, holder, claims, nextLock := map[], map[], map[], [], 0;
      files := found;
      this.limit := limit;
    }

    method Claim(sha: Sha, fetch: Option<nat>) returns (c: nat)
      modifies this
      ensures View() == Claimed(old(View()), sha, fetch) && c == |old(claims)| && files == old(files)
    {
      if sha !in locks {
        locks := locks[sha := nextLock];
        nextLock := nextLock + 1;
      }
      users := users[sha := if sha in users then users[sha] + 1 else 1];
      c := |claims|;
      claims := claims + [CacheClaims.Claim(sha, locks[sha], Waiting, fetch)];
    }

    method Enter(c: nat)
      requires CanEnter(View(), c)
      modifies this
      ensures View() == Entered(old(View()), c) && files == old(files)
    {
      holder := holder[claims[c].lock := c];
      claims := claims[c := claims[c].(stage := Inside)];
    }

    method Leave(c: nat)
      requires Inv(View()) && c < |claims| && !claims[c].stage.Gone?
      modifies this
      ensures View() == Left(old(View()), c) && files == old(files)
    {
      SomebodyLives(claims, c);
      var x := claims[c];
      if x.stage.Inside? { holder := holder - {x.lock}; }
      claims := claims[c := x.(stage := Gone)];
      users := users[x.sha := users[x.sha] - 1];
      if users[x.sha] == 0 {
        users := users - {x.sha};
        locks := locks - {x.sha};
      }
    }

    method Has(sha: Sha, size: nat, now: real) returns (there: bool)
      modifies `files
      ensures there == (sha in old(files) && old(files)[sha].size == size)
      ensures files == if there then old(files)[sha := File(now, size)] else old(files) - {sha}
    {
      if sha in files && files[sha].size == size {
        files := files[sha := File(now, size)];
        return true;
      }
      files := files - {sha};
      there := false;
    }

    method Oldest(left: set<Sha>) returns (k: Sha)
      requires left != {} && left <= files.Keys
      ensures k in left && forall x :: x in left ==> NotAfter(files[k], files[x])
    {
      k :| k in left;
      var rest := left - {k};
      while rest != {}
        invariant rest <= left && k in left
        invariant forall x :: x in left && x !in rest ==> NotAfter(files[k], files[x])
        decreases rest
      {
        var x :| x in rest;
        if NotAfter(files[x], files[k]) { k := x; }
        rest := rest - {x};
      }
    }

    method Sort() returns (order: seq<Sha>)
      ensures OldestFirst(order, files)
    {
      var left := files.Keys;
      order := [];
      while left != {}
        invariant left <= files.Keys && Distinct(order)
        invariant forall k :: k in files <==> k in left || k in order
        invariant forall k :: k in order ==> k !in left
        invariant forall i, j :: 0 <= i < j < |order| ==> NotAfter(files[order[i]], files[order[j]])
        invariant forall i, x :: 0 <= i < |order| && x in left ==> NotAfter(files[order[i]], files[x])
        decreases left
      {
        var k := Oldest(left);
        order := order + [k];
        left := left - {k};
      }
    }

    method Size(order: seq<Sha>) returns (size: nat)
      requires OldestFirst(order, files)
      ensures size == Total(files)
    {
      size := 0;
      var n := 0;
      ghost var rest := files;
      while n < |order|
        invariant n <= |order|
        invariant forall k :: k in rest <==> k in files && k !in order[..n]
        invariant forall k :: k in rest ==> rest[k] == files[k]
        invariant size + Total(rest) == Total(files)
      {
        assert order[..n + 1] == order[..n] + [order[n]];
        assert order[n] !in order[..n];
        TotalWithout(rest, order[n]);
        size := size + files[order[n]].size;
        rest := rest - {order[n]};
        n := n + 1;
      }
      assert order[..n] == order;
      assert rest == map[];
    }

    method Prune(inUse: nat -> set<Sha>, stuck: set<Sha>) returns (freed: nat, order: seq<Sha>)
      modifies `files
      ensures Pruned(old(files), files, order, inUse, stuck, limit)
      ensures freed + Total(files) == Total(old(files))
    {
      order := Sort();
      var size := Size(order);
      freed := 0;
      var n := 0;
      ghost var last := "";
      while n < |order| && size - freed > limit
        invariant PrunedTo(old(files), files, order, inUse, stuck, n)
        invariant freed + Total(files) == size == Total(old(files))
        invariant files != old(files) ==>
          last in old(files) && last !in files && Total(files) + old(files)[last].size > limit
      {
        PrunesOneMore(old(files), files, order, inUse, stuck, n);
        var k := order[n];
        if k !in inUse(n) && k !in stuck {
          TotalWithout(files, k);
          freed := freed + files[k].size;
          files := files - {k};
          last := k;
        }
        n := n + 1;
      }
    }
  }
}
