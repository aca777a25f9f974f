// The node's side of the console: the numbered ring, its followers' bounded
// queues (agent/servers.py, Console), and the loop that drains one follower's
// queue into its socket (agent/main.py, outbound).

module NodeConsole {
  import opened Prelude
  import opened ConsoleFrames

  const FOLLOWER_QUEUE: nat := 5000
  const BATCH: nat := 200

  // A follower's queue of numbered lines, and whether a line was ever refused
  // by it since it was last sent the ring.
  datatype Follower = Follower(q: seq<(nat, Line)>, overflowed: bool)

  // One line offered to a follower's queue.
  function Offered(f: Follower, n: nat, line: Line): Follower {
    if |f.q| < FOLLOWER_QUEUE then f.(q := f.q + [(n, line)]) else f.(overflowed := true)
  }

  // A follower's socket: the line `outbound` has taken off the queue but not
  // sent yet, and the frames sent that the other end has not read.
  datatype Socket = Socket(run: nat, follower: Follower, held: Option<(nat, Line)>, wire: seq<Frame>)

  function Pending(s: Socket): seq<(nat, Line)> {
    (if s.held.Some? then [s.held.value] else []) + s.follower.q
  }

  function LinesOf(q: seq<(nat, Line)>): (lines: seq<Line>)
    ensures |lines| == |q|
    ensures forall i :: 0 <= i < |q| ==> lines[i] == q[i].1
  {
    if q == [] then [] else LinesOf(q[..|q| - 1]) + [q[|q| - 1].1]
  }

  function RingBacklog(history: seq<Line>, state: string, run: nat): Frame {
    Backlog(Last(history, RING), |history|, Some(state), run)
  }

  // --- the three stretches of a socket's life on the node ----------------------

  function Opened(history: seq<Line>, state: string, run: nat): Socket {
    Socket(run, Follower([], false), None, [RingBacklog(history, state, run)])
  }

  function Taken(s: Socket): Socket
    requires s.held.None? && s.follower.q != []
  {
    s.(held := Some(s.follower.q[0]), follower := s.follower.(q := s.follower.q[1..]))
  }

  function BatchSize(s: Socket): nat {
    if |s.follower.q| < BATCH - 1 then |s.follower.q| else BATCH - 1
  }

  // The held line and up to 199 more -- or, if any line was refused, the ring.
  function Sent(s: Socket, history: seq<Line>, state: string): Socket
    requires s.held.Some?
  {
    var n := BatchSize(s);
    var batch := [s.held.value] + s.follower.q[..n];
    if s.follower.overflowed then
      s.(held := None, follower := Follower([], false), wire := s.wire + [RingBacklog(history, state, s.run)])
    else
      s.(held := None, follower := s.follower.(q := s.follower.q[n..]),
         wire := s.wire + [Lines(LinesOf(batch), batch[n].0)])
  }

  // Unless a line was refused, what a follower still has to send is exactly
  // what was printed after `from`; if one was, it has something left to send.
  ghost predicate Gapless(s: Socket, history: seq<Line>, from: nat) {
    if s.follower.overflowed then Pending(s) != []
    else
      && from + |Pending(s)| == |history|
      && forall i :: 0 <= i < |Pending(s)| ==> Pending(s)[i] == (from + 1 + i, history[from + i])
  }

  lemma OfferedIsGapless(s: Socket, history: seq<Line>, from: nat, line: Line)
    requires Gapless(s, history, from)
    ensures Gapless(s.(follower := Offered(s.follower, |history| + 1, line)), history + [line], from)
  {
    var t := s.(follower := Offered(s.follower, |history| + 1, line));
    if !t.follower.overflowed {
      assert Pending(t) == Pending(s) + [(|history| + 1, line)];
    }
  }

  lemma TakenIsGapless(s: Socket, history: seq<Line>, from: nat)
    requires s.held.None? && s.follower.q != [] && Gapless(s, history, from)
    ensures Gapless(Taken(s), history, from)
  {
    assert Pending(Taken(s)) == Pending(s);
  }

  lemma RingIsFresh(s: Socket, runs: seq<seq<Line>>, state: string, v: View)
    requires s.held.Some? && s.run < |runs| && s.follower.overflowed
    ensures var t := Sent(s, runs[s.run], state);
      var f := RingBacklog(runs[s.run], state, s.run);
      && t.wire == s.wire + [f]
      && Fits(runs, Some(v), f)
      && Applied(v, f).run == s.run && Applied(v, f).last == |runs[s.run]|
      && Gapless(t, runs[s.run], |runs[s.run]|)
  {
    var history := runs[s.run];
    assert history[..|history|] == history;
  }

  lemma BatchCarriesOn(s: Socket, runs: seq<seq<Line>>, state: string, v: View)
    requires s.held.Some? && s.run < |runs| && v.run == s.run && !s.follower.overflowed
    requires Gapless(s, runs[s.run], v.last)
    ensures var t := Sent(s, runs[s.run], state);
      var f := t.wire[|s.wire|];
      && t.wire == s.wire + [f] && f.Lines?
      && Fits(runs, Some(v), f)
      && Gapless(t, runs[s.run], f.last)
  {
    BatchIs(s, runs[s.run], v.last);
    RestIs(s, runs[s.run], state, v.last);
  }

  lemma BatchIs(s: Socket, history: seq<Line>, from: nat)
    requires s.held.Some? && !s.follower.overflowed && Gapless(s, history, from)
    ensures var n := BatchSize(s);
      var batch := [s.held.value] + s.follower.q[..n];
      && from + n + 1 <= |history|
      && LinesOf(batch) == history[from..from + n + 1]
      && batch[n].0 == from + n + 1
  {
    var n := BatchSize(s);
    var batch := [s.held.value] + s.follower.q[..n];
    forall i | 0 <= i <= n
      ensures batch[i] == (from + 1 + i, history[from + i])
    {
      assert batch[i] == Pending(s)[i];
    }
  }

  lemma RestIs(s: Socket, history: seq<Line>, state: string, from: nat)
    requires s.held.Some? && !s.follower.overflowed && Gapless(s, history, from)
    ensures Gapless(Sent(s, history, state), history, from + BatchSize(s) + 1)
  {
    var t, n := Sent(s, history, state), BatchSize(s);
    forall i | 0 <= i < |Pending(t)|
      ensures Pending(t)[i] == (from + n + 1 + 1 + i, history[from + n + 1 + i])
    {
      assert Pending(t)[i] == Pending(s)[i + n + 1];
    }
  }

  // The frame sent carries on from line `from`, or starts afresh; what remains
  // carries on from it.
  lemma SentIsGapless(s: Socket, runs: seq<seq<Line>>, state: string, v: View)
    requires s.held.Some? && s.run < |runs| && v.run == s.run
    requires Gapless(s, runs[s.run], v.last)
    ensures var t := Sent(s, runs[s.run], state);
      var f := t.wire[|s.wire|];
      && t.wire == s.wire + [f]
      && Fits(runs, Some(v), f)
      && Applied(v, f).run == s.run
      && Gapless(t, runs[s.run], Applied(v, f).last)
  {
    if s.follower.overflowed { RingIsFresh(s, runs, state, v); } else { BatchCarriesOn(s, runs, state, v); }
  }

  ghost function Full(followers: map<nat, Follower>): set<nat> {
    set id | id in followers && |followers[id].q| >= FOLLOWER_QUEUE
  }

  lemma OneFewer(a: set<nat>, b: set<nat>, x: nat)
    requires x in b
    ensures |a * b| == |a * (b - {x})| + if x in a then 1 else 0
  {
    if x in a {
      assert a * b == a * (b - {x}) + {x};
    } else {
      assert a * b == a * (b - {x});
    }
  }

  // --- the console itself ----------------------------------------------------------

  class Console {
    var lines: seq<Line>
    var last: nat
    var dropped: nat
    var followers: map<nat, Follower>
    ghost var history: seq<Line>

    ghost predicate Valid()
      reads this
    {
      lines == Last(history, RING) && last == |history|
    }

    constructor ()
      ensures Valid() && history == [] && followers == map[] && dropped == 0
    {
      lines, last, dropped, followers, history := [], 0, 0, map[], [];
    }

    // A printed line reaches the ring and every follower's queue; a full queue
    // refuses it, is counted and marked.
    method Feed(line: Line)
      requires Valid()
      modifies this
      ensures Valid() && history == old(history) + [line]
      ensures followers.Keys == old(followers).Keys
      ensures forall id :: id in followers ==>
        followers[id] == Offered(old(followers)[id], |history|, line)
      ensures dropped == old(dropped) + |Full(old(followers))|
    {
      LastOfAppend(history, [line], RING);
      history := history + [line];
      lines := lines + [line];
      if |lines| > RING { lines := lines[1..]; }
      last := last + 1;
      OfferAll(line);
    }

    method OfferAll(line: Line)
      modifies `followers, `dropped
      ensures followers.Keys == old(followers).Keys
      ensures forall id :: id in followers ==> followers[id] == Offered(old(followers)[id], last, line)
      ensures dropped == old(dropped) + |Full(old(followers))|
    {
      ghost var was := followers;
      var todo := followers.Keys;
      assert Full(was) * todo == Full(was);
      while todo != {}
        invariant todo <= followers.Keys == was.Keys
        invariant forall id :: id in was ==>
          followers[id] == if id in todo then was[id] else Offered(was[id], last, line)
        invariant dropped + |Full(was) * todo| == old(dropped) + |Full(was)|
        decreases todo
        modifies `followers, `dropped
      {
        var id :| id in todo;
        OneFewer(Full(was), todo, id);
        var f := followers[id];
        if |f.q| < FOLLOWER_QUEUE {
          followers := followers[id := f.(q := f.q + [(last, line)])];
        } else {
          dropped := dropped + 1;
          followers := followers[id := f.(overflowed := true)];
        }
        todo := todo - {id};
      }
    }

    method Subscribe(id: nat)
      requires Valid() && id !in followers
      modifies `followers
      ensures Valid() && followers == old(followers)[id := Follower([], false)]
    {
      followers := followers[id := Follower([], false)];
    }

    method Unsubscribe(id: nat)
      requires Valid()
      modifies `followers
      ensures Valid() && followers == old(followers) - {id}
    {
      followers := followers - {id};
    }

    // A poll for what came after line `after`: those lines and no others, or
    // the ring again exactly when the number is impossible or has left it.
    method Since(after: int) returns (out: seq<Line>, over: bool)
      requires Valid()
      ensures over <==> !(0 <= after <= |history| && |history| - after <= RING)
      ensures out == if over then Last(history, RING) else history[after..]
    {
      var missing := last - after;
      if after < 0 || missing < 0 || missing > |lines| {
        return lines, true;
      }
      return (if missing > 0 then lines[|lines| - missing..] else []), false;
    }

    // One pass of `outbound` with a line in hand: what is sent, and the queue after.
    method SendBatch(id: nat, held: (nat, Line), state: string, run: nat) returns (frame: Frame)
      requires Valid() && id in followers
      modifies `followers
      ensures Valid()
      ensures var before := Socket(run, old(followers)[id], Some(held), []);
        var after := Sent(before, history, state);
        && frame == after.wire[0]
        && followers == old(followers)[id := after.follower]
    {
      var f := followers[id];
      var batch, number, n := Gather(held, f.q);
      if f.overflowed {
        followers := followers[id := Follower([], false)];
        return Backlog(lines, last, Some(state), run);
      }
      followers := followers[id := Follower(f.q[n..], false)];
      frame := Lines(batch, number);
    }
  }

  // The line in hand and up to 199 more.
  method Gather(held: (nat, Line), q: seq<(nat, Line)>) returns (batch: seq<Line>, number: nat, n: nat)
    ensures n == (if |q| < BATCH - 1 then |q| else BATCH - 1)
    ensures batch == LinesOf([held] + q[..n]) && number == ([held] + q[..n])[n].0
  {
    batch, number, n := [held.1], held.0, 0;
    while n < |q| && |batch| < BATCH
      invariant 0 <= n <= |q| && |batch| == n + 1 <= BATCH
      invariant batch == LinesOf([held] + q[..n])
      invariant number == ([held] + q[..n])[n].0
    {
      number := q[n].0;
      batch := batch + [q[n].1];
      n := n + 1;
      assert ([held] + q[..n])[..n] == [held] + q[..n - 1];
    }
  }
}
