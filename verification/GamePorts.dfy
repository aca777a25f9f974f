// Port: automatic (agent/servers.py): which port a server moves to when its own is
// taken, and how a launch moves on when a bind is refused.

module GamePorts {
  import opened Prelude

  const LOWEST: nat := 1024
  const HIGHEST: nat := 65535
  const MAX_TRIES: nat := 5

  // range(from, to).
  function Up(from: nat, to: nat): (r: seq<nat>)
    requires from <= to
    ensures |r| == to - from && forall i :: 0 <= i < |r| ==> r[i] == from + i
  {
    seq(to - from, i => from + i)
  }

  // range(from - 1, to - 1, -1).
  function Down(from: nat, to: nat): (r: seq<nat>)
    requires to <= from
    ensures |r| == from - to && forall i :: 0 <= i < |r| ==> r[i] == from - 1 - i
  {
    seq(from - to, i requires 0 <= i < from - to => from - 1 - i)
  }

  // A server's range is always one `_port_range` let through.
  predicate IsRange(lo: nat, hi: nat) { LOWEST <= lo <= hi <= HIGHEST }

  predicate InRegion(p: nat, lo: nat, hi: nat, region: nat) {
    if region == 0 then lo <= p <= hi
    else if region == 1 then hi < p <= HIGHEST
    else LOWEST <= p < lo
  }

  // Nearer to the range, from inside it or from its edge outwards.
  predicate Nearer(p: nat, q: nat, region: nat) { if region == 2 then p > q else p < q }

  ghost predicate AnyFree(lo: nat, hi: nat, region: nat, taken: set<nat>) {
    exists p :: InRegion(p, lo, hi, region) && p !in taken
  }

  // The best free port of a region: one no other server is set to, if there is
  // one; the first of those.
  ghost predicate BestIn(p: nat, lo: nat, hi: nat, region: nat, taken: set<nat>, others: set<nat>) {
    && InRegion(p, lo, hi, region) && p !in taken
    && forall q :: InRegion(q, lo, hi, region) && q !in taken && q != p ==>
        if p in others then q in others && Nearer(p, q, region)
        else q in others || Nearer(p, q, region)
  }

  ghost predicate IsChoice(r: Option<nat>, lo: nat, hi: nat, taken: set<nat>, others: set<nat>) {
    match r
    case Some(p) =>
      || BestIn(p, lo, hi, 0, taken, others)
      || (!AnyFree(lo, hi, 0, taken) && BestIn(p, lo, hi, 1, taken, others))
      || (!AnyFree(lo, hi, 0, taken) && !AnyFree(lo, hi, 1, taken) && BestIn(p, lo, hi, 2, taken, others))
    case None => forall p :: LOWEST <= p <= HIGHEST ==> p in taken
  }

  // The choice is the only one that fits, so it is what the search must return.
  lemma OneChoice(r: Option<nat>, s: Option<nat>, lo: nat, hi: nat, taken: set<nat>, others: set<nat>)
    requires IsRange(lo, hi) && IsChoice(r, lo, hi, taken, others) && IsChoice(s, lo, hi, taken, others)
    ensures r == s
  {
    forall p: nat, region: nat | region < 3 && InRegion(p, lo, hi, region) && p !in taken
      ensures AnyFree(lo, hi, region, taken) && LOWEST <= p <= HIGHEST
    {}
  }

  ghost predicate BestAt(ports: seq<nat>, k: nat, taken: set<nat>, others: set<nat>)
    requires k < |ports|
  {
    && ports[k] !in taken
    && forall i :: 0 <= i < |ports| && ports[i] !in taken && i != k ==>
        if ports[k] in others then ports[i] in others && k < i else ports[i] in others || k < i
  }

  method FirstFree(ports: seq<nat>, taken: set<nat>, others: set<nat>) returns (r: Option<nat>)
    ensures r.None? <==> forall i :: 0 <= i < |ports| ==> ports[i] in taken
    ensures r.Some? ==> exists k :: 0 <= k < |ports| && ports[k] == r.value && BestAt(ports, k, taken, others)
  {
    var first: Option<nat> := None;
    var n := 0;
    while n < |ports|
      invariant n <= |ports|
      invariant first.None? ==> forall i :: 0 <= i < n ==> ports[i] in taken
      invariant first.Some? ==>
          first.value < n && ports[first.value] !in taken && forall i :: 0 <= i < first.value ==> ports[i] in taken
      invariant forall i :: 0 <= i < n ==> ports[i] in taken || ports[i] in others
    {
      if ports[n] !in taken {
        if ports[n] !in others { return Some(ports[n]); }
        if first.None? { first := Some(n); }
      }
      n := n + 1;
    }
    r := if first.Some? then Some(ports[first.value]) else None;
  }

  function Region(lo: nat, hi: nat, region: nat): seq<nat>
    requires IsRange(lo, hi)
  {
    if region == 0 then Up(lo, hi + 1) else if region == 1 then Up(hi + 1, HIGHEST + 1) else Down(lo, LOWEST)
  }

  lemma RegionIs(lo: nat, hi: nat, region: nat)
    requires IsRange(lo, hi) && region < 3
    ensures var ports := Region(lo, hi, region);
      && (forall i :: 0 <= i < |ports| ==> InRegion(ports[i], lo, hi, region))
      && (forall p :: InRegion(p, lo, hi, region) ==> p in ports)
      && (forall i, j :: 0 <= i < j < |ports| ==> Nearer(ports[i], ports[j], region))
  {
    var ports := Region(lo, hi, region);
    forall p: nat | InRegion(p, lo, hi, region)
      ensures p in ports
    {
      var i := if region == 0 then p - lo else if region == 1 then p - hi - 1 else lo - 1 - p;
      assert ports[i] == p;
    }
  }

  method NextFreePort(lo: nat, hi: nat, taken: set<nat>, others: set<nat>) returns (r: Option<nat>)
    requires IsRange(lo, hi)
    ensures IsChoice(r, lo, hi, taken, others)
  {
    var region := 0;
    while region < 3
      invariant region <= 3
      invariant forall g :: 0 <= g < region ==> !AnyFree(lo, hi, g, taken)
    {
      RegionIs(lo, hi, region);
      var ports := Region(lo, hi, region);
      r := FirstFree(ports, taken, others);
      if r.Some? {
        ghost var k :| 0 <= k < |ports| && ports[k] == r.value && BestAt(ports, k, taken, others);
        BestOfRegion(ports, k, lo, hi, region, taken, others);
        return;
      }
      region := region + 1;
    }
    r := None;
    forall p | LOWEST <= p <= HIGHEST
      ensures p in taken
    {
      if p !in taken {
        var g := if p < lo then 2 else if p <= hi then 0 else 1;
        assert InRegion(p, lo, hi, g) && AnyFree(lo, hi, g, taken);
      }
    }
  }

  lemma BestOfRegion(ports: seq<nat>, k: nat, lo: nat, hi: nat, region: nat, taken: set<nat>, others: set<nat>)
    requires k < |ports| && BestAt(ports, k, taken, others)
    requires forall i :: 0 <= i < |ports| ==> InRegion(ports[i], lo, hi, region)
    requires forall p :: InRegion(p, lo, hi, region) ==> p in ports
    requires forall i, j :: 0 <= i < j < |ports| ==> Nearer(ports[i], ports[j], region)
    ensures BestIn(ports[k], lo, hi, region, taken, others)
  {
    forall q | InRegion(q, lo, hi, region) && q !in taken && q != ports[k]
      ensures if ports[k] in others then q in others && Nearer(ports[k], q, region)
              else q in others || Nearer(ports[k], q, region)
    {
      assert q in ports;
      var i :| 0 <= i < |ports| && ports[i] == q;
    }
  }

  // --- a launch --------------------------------------------------------------------------

  // How one container start ends: it runs, a program on the machine holds one of
  // its ports, or something else is wrong.
  datatype Bind = Bound | Refused(port: nat) | Broken

  // Unfit: checked again after a refused bind, it may not start (no port is left,
  // or another server on the node holds one of its ports).
  datatype Launch = Up | PortTaken(port: nat, nextFree: Option<nat>) | Unfit | Failed

  // No start was on a port refused before it.
  ghost predicate NoneAgain(tried: seq<nat>, before: set<nat>, bind: nat -> Bind) {
    forall k :: 0 <= k < |tried| ==> tried[k] !in RefusedBy(before, bind, k)
  }

  // Where a server on `before` goes: nowhere if its port is not taken, and otherwise to
  // the choice there is.
  ghost predicate GoesTo(before: nat, p: nat, lo: nat, hi: nat, taken: set<nat>, others: set<nat>) {
    p !in taken && if before !in taken then p == before else IsChoice(Some(p), lo, hi, taken, others)
  }

  ghost predicate NoneLeft(taken: set<nat>) { forall p :: LOWEST <= p <= HIGHEST ==> p in taken }

  // What the machine answers, moment by moment: `host(k)` is what its containers hold at
  // the k-th look and `others(k)` what other servers are set to, `fit(k)` whether the
  // rest of the checks pass, `bind(k)` how the k-th start ends.
  datatype Machine = Machine(host: nat -> set<nat>, others: nat -> set<nat>, fit: nat -> bool, bind: nat -> Bind)

  // What is taken at the k-th look, with `before` refused already.
  ghost function TakenAt(m: Machine, before: set<nat>, k: nat): set<nat> { m.host(k) + RefusedBy(before, m.bind, k) }

  // The k-th start: the one before it was refused, the checks passed, and the server is
  // where it then goes.
  ghost predicate RetriedAt(tried: seq<nat>, k: nat, lo: nat, hi: nat, before: set<nat>, m: Machine)
    requires 0 < k < |tried|
  {
    && m.bind(k - 1).Refused? && m.fit(k)
    && GoesTo(tried[k - 1], tried[k], lo, hi, TakenAt(m, before, k), m.others(k))
  }

  ghost predicate RetriedRightly(tried: seq<nat>, lo: nat, hi: nat, before: set<nat>, m: Machine) {
    forall k :: 0 < k < |tried| ==> RetriedAt(tried, k, lo, hi, before, m)
  }

  lemma MovesOn(tried: seq<nat>, p: nat, lo: nat, hi: nat, before: set<nat>, m: Machine)
    requires RetriedRightly(tried, lo, hi, before, m) && tried != []
    requires m.bind(|tried| - 1).Refused? && m.fit(|tried|)
    requires GoesTo(tried[|tried| - 1], p, lo, hi, TakenAt(m, before, |tried|), m.others(|tried|))
    ensures RetriedRightly(tried + [p], lo, hi, before, m)
  {
    forall k | 0 < k < |tried + [p]|
      ensures RetriedAt(tried + [p], k, lo, hi, before, m)
    {
      assert k < |tried| ==> RetriedAt(tried, k, lo, hi, before, m);
    }
  }

  // So never a port that any bind so far was refused on.
  lemma RetriesNoneAgain(tried: seq<nat>, lo: nat, hi: nat, before: set<nat>, m: Machine)
    requires RetriedRightly(tried, lo, hi, before, m) && tried != [] && tried[0] !in before
    ensures NoneAgain(tried, before, m.bind)
  {
    forall k | 0 <= k < |tried|
      ensures tried[k] !in RefusedBy(before, m.bind, k)
    {
      assert k > 0 ==> RetriedAt(tried, k, lo, hi, before, m);
    }
  }

  class Server {
    var port: nat
    var refused: set<nat>        // refused_ports
    var tries: nat               // port_tries
    const auto: bool
    const lo: nat
    const hi: nat

    constructor (port: nat, auto: bool, lo: nat, hi: nat)
      ensures this.port == port && this.auto == auto && this.lo == lo && this.hi == hi
      ensures refused == {} && tries == 0
    {
      this.port, this.auto, this.lo, this.hi := port, auto, lo, hi;
      refused, tries := {}, 0;
    }

    // A start or restart someone asked for begins afresh.
    method Asked()
      modifies `refused, `tries
      ensures refused == {} && tries == 0
    {
      refused, tries := {}, 0;
    }

    // `_choose_port`: stays where it is if it can.
    method ChoosePort(host: set<nat>, others: set<nat>) returns (found: bool)
      requires IsRange(lo, hi)
      modifies `port
      ensures found ==> GoesTo(old(port), port, lo, hi, host + refused, others)
      ensures !found ==> port == old(port) && port in host + refused && NoneLeft(host + refused)
    {
      var taken := host + refused;
      if port !in taken { return true; }
      var chosen := NextFreePort(lo, hi, taken, others);
      if chosen.None? { return false; }
      port := chosen.value;
      found := true;
    }

    // After a refused bind: what it refused is remembered, and another port chosen.
    method MoveOn(no: nat, host: set<nat>, others: set<nat>) returns (found: bool)
      requires IsRange(lo, hi)
      modifies this
      ensures tries == old(tries) + 1 && refused == old(refused) + {no}
      ensures found ==> GoesTo(old(port), port, lo, hi, host + refused, others)
      ensures !found ==> NoneLeft(host + refused)
    {
      tries := tries + 1;
      refused := refused + {no};
      found := ChoosePort(host, others);
    }

    // `_launch`, which calls itself again after a refused bind; `tried` is the port of
    // each start.
    method Launched(m: Machine) returns (result: Launch, tried: seq<nat>)
      requires IsRange(lo, hi) && tries <= MAX_TRIES && (auto ==> port !in refused)
      modifies this
      ensures 1 <= |tried| <= MAX_TRIES - old(tries) + 1
      ensures tries <= MAX_TRIES
      // Where it starts, where it goes after each refusal, and where it ends.
      ensures tried[0] == old(port) && RetriedRightly(tried, lo, hi, old(refused), m)
      ensures auto ==> NoneAgain(tried, old(refused), m.bind)
      ensures !result.Unfit? ==> port == tried[|tried| - 1]
      ensures !auto ==> |tried| == 1 && port == old(port)
      ensures refused == RefusedBy(old(refused), m.bind, if result.Unfit? then |tried| else |tried| - 1)
      ensures result.Up? <==> m.bind(|tried| - 1).Bound?
      ensures result.Failed? <==> m.bind(|tried| - 1).Broken?
      ensures result.PortTaken? ==> m.bind(|tried| - 1) == Refused(result.port) && (!auto || tries == MAX_TRIES)
      ensures result.PortTaken? ==>
        IsChoice(result.nextFree, lo, hi, m.host(|tried|) + refused, m.others(|tried|))
      ensures result.Unfit? ==> auto && (NoneLeft(m.host(|tried|) + refused) || !m.fit(|tried|))
    {
      tried := [];
      while true
        invariant old(tries) + |tried| == tries <= MAX_TRIES
        invariant refused == RefusedBy(old(refused), m.bind, |tried|)
        invariant !auto ==> tried == [] && port == old(port)
        invariant (tried + [port])[0] == old(port)
        invariant RetriedRightly(tried + [port], lo, hi, old(refused), m)
        decreases MAX_TRIES - tries
      {
        var k := |tried|;
        tried := tried + [port];
        if auto { RetriesNoneAgain(tried, lo, hi, old(refused), m); }
        var b := m.bind(k);
        if b.Bound? { return Up, tried; }
        if b.Broken? { return Failed, tried; }
        if !auto || tries == MAX_TRIES {
          var next := NextFreePort(lo, hi, m.host(k + 1) + refused, m.others(k + 1));
          return PortTaken(b.port, next), tried;
        }
        var found := MoveOn(b.port, m.host(k + 1), m.others(k + 1));
        if !found || !m.fit(k + 1) { return Unfit, tried; }
        MovesOn(tried, port, lo, hi, old(refused), m);
      }
    }
  }

  ghost function RefusedBy(before: set<nat>, bind: nat -> Bind, n: nat): set<nat> {
    if n == 0 then before
    else
      var rest := RefusedBy(before, bind, n - 1);
      if bind(n - 1).Refused? then rest + {bind(n - 1).port} else rest
  }

  lemma {:induction false} RefusedStays(before: set<nat>, bind: nat -> Bind, k: nat, n: nat)
    requires k < n && bind(k).Refused?
    ensures bind(k).port in RefusedBy(before, bind, n)
  {
    if k + 1 < n { RefusedStays(before, bind, k, n - 1); }
  }

  // When each refusal names the port that was tried, no port is tried twice.
  lemma NoPortTwice(before: set<nat>, bind: nat -> Bind, tried: seq<nat>)
    requires NoneAgain(tried, before, bind)
    requires forall k :: 0 <= k < |tried| - 1 ==> bind(k) == Refused(tried[k])
    ensures Distinct(tried)
  {
    forall i, j | 0 <= i < j < |tried|
      ensures tried[i] != tried[j]
    {
      RefusedStays(before, bind, i, j);
    }
  }
}
