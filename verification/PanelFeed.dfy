// The panel's side of the console (app/console_hub.py, Feed): one upstream
// socket per server, its ring, and a bounded queue of frames for each viewer.

module PanelFeed {
  import opened Prelude
  import opened ConsoleFrames

  const VIEWER_QUEUE: nat := 500

  datatype Feed = Feed(view: View, ready: bool, viewers: map<nat, seq<Frame>>)

  const NewFeed := Feed(Blank, false, map[])

  // A full queue is emptied and given the feed's own backlog instead.
  function Given(q: seq<Frame>, f: Frame, feed: View): seq<Frame> {
    if |q| < VIEWER_QUEUE then q + [f] else [BacklogOf(feed)]
  }

  function SentToAll(s: Feed, f: Frame): Feed {
    s.(viewers := map id | id in s.viewers :: Given(s.viewers[id], f, s.view))
  }

  // What the viewers are sent when the feed reads `f` and its view becomes `v`.
  function Relayed(v: View, f: Frame): Frame {
    match f
    case Backlog(_, _, _, _) => BacklogOf(v)
    case Lines(lines, _) => Lines(lines, v.last)
    case _ => f
  }

  // One frame read from the node. An error frame is not the node's to send: ignored.
  function Took(s: Feed, f: Frame): Feed {
    if f.Error? then s
    else
      var v := Applied(s.view, f);
      SentToAll(s.(view := v, ready := s.ready || f.Backlog?), Relayed(v, f))
  }

  function Joined(s: Feed, id: nat): Feed {
    s.(viewers := s.viewers[id := if s.ready then [BacklogOf(s.view)] else []])
  }

  // A viewer's own view, once it has read everything in its queue, is the
  // feed's -- or it has had no backlog yet, and neither has the feed.
  ghost predicate InStep(runs: seq<seq<Line>>, s: Feed, shown: Option<View>, q: seq<Frame>) {
    && ExactOrNone(runs, shown)
    && Chain(runs, shown, q)
    && (ShownAll(shown, q) == Some(s.view) || (ShownAll(shown, q) == None && !s.ready))
  }

  // Reading a frame that fits keeps every viewer in step, whether or not its
  // queue overflows.
  lemma TookStaysInStep(runs: seq<seq<Line>>, s: Feed, shown: Option<View>, q: seq<Frame>, f: Frame)
    requires Exact(runs, s.view) && Fits(runs, Some(s.view), f) && !f.Error?
    requires s.ready || f.Backlog?
    requires InStep(runs, s, shown, q)
    ensures Exact(runs, Took(s, f).view)
    ensures InStep(runs, Took(s, f), shown, Given(q, Relayed(Took(s, f).view, f), Took(s, f).view))
  {
    var v := Took(s, f).view;
    var g := Relayed(v, f);
    ShownIsExact(runs, Some(s.view), f);
    assert |v.lines| <= RING;
    assert Fits(runs, ShownAll(shown, q), g);
    if |q| < VIEWER_QUEUE {
      ChainAppend(runs, shown, q, g);
      assert Shown(ShownAll(shown, q), g) == Some(v);
    } else {
      Refreshed(runs, s.(view := v), shown);
    }
  }

  lemma Refreshed(runs: seq<seq<Line>>, s: Feed, shown: Option<View>)
    requires Exact(runs, s.view) && ExactOrNone(runs, shown)
    ensures InStep(runs, s, shown, [BacklogOf(s.view)])
  {
    ExactBacklog(runs, s.view, shown);
    assert [BacklogOf(s.view)][1..] == [];
  }

  // So does the feed's own "not answering" notice.
  lemma ErrorStaysInStep(runs: seq<seq<Line>>, s: Feed, shown: Option<View>, q: seq<Frame>)
    requires Exact(runs, s.view) && InStep(runs, s, shown, q)
    ensures InStep(runs, s, shown, Given(q, Error, s.view))
  {
    if |q| < VIEWER_QUEUE {
      ChainAppend(runs, shown, q, Error);
    } else {
      Refreshed(runs, s, shown);
    }
  }

  class FeedObject {
    var lines: seq<Line>
    var last: nat
    var state: Option<string>
    var run: nat
    var ready: bool
    var viewers: map<nat, seq<Frame>>
    var dropped: nat

    ghost function Value(): Feed
      reads this
    {
      Feed(View(lines, last, state, run), ready, viewers)
    }

    constructor ()
      ensures Value() == NewFeed && dropped == 0
    {
      lines, last, state, run, ready, viewers, dropped := [], 0, None, 0, false, map[], 0;
    }

    method Give(id: nat, f: Frame)
      requires id in viewers
      modifies `viewers, `dropped
      ensures viewers == old(viewers)[id := Given(old(viewers)[id], f, Value().view)]
      ensures dropped == old(dropped) + if |old(viewers)[id]| < VIEWER_QUEUE then 0 else 1
    {
      var q := viewers[id];
      if |q| < VIEWER_QUEUE {
        viewers := viewers[id := q + [f]];
        return;
      }
      dropped := dropped + 1;
      while q != []
        invariant id in viewers && viewers == old(viewers)[id := q]
        decreases |q|
        modifies `viewers
      {
        q := q[1..];
        viewers := viewers[id := q];
      }
      viewers := viewers[id := [Backlog(lines, last, state, run)]];
    }

    method Send(f: Frame)
      modifies `viewers, `dropped
      ensures Value() == SentToAll(old(Value()), f)
    {
      ghost var was := viewers;
      ghost var v := Value().view;
      var todo := viewers.Keys;
      while todo != {}
        invariant todo <= viewers.Keys == was.Keys
        invariant forall id :: id in was ==>
          viewers[id] == if id in todo then was[id] else Given(was[id], f, v)
        decreases todo
        modifies `viewers, `dropped
      {
        var id :| id in todo;
        Give(id, f);
        todo := todo - {id};
      }
      assert viewers == map id | id in was :: Given(was[id], f, v);
    }

    method Take(f: Frame)
      modifies this
      ensures Value() == Took(old(Value()), f)
    {
      match f {
        case Backlog(ls, n, st, r) =>
          lines := if |ls| <= RING then ls else ls[|ls| - RING..];
          last, state, run, ready := n, st, r, true;
          Send(Backlog(lines, last, state, run));
        case Lines(ls, n) =>
          lines := lines + ls;
          if |lines| > RING { lines := lines[|lines| - RING..]; }
          last := if n == 0 then last + |ls| else n;
          Send(Lines(ls, last));
        case Stats(st) =>
          if st.Some? { state := st; }
          Send(f);
        case Error =>
      }
    }

    method Join(id: nat)
      requires id !in viewers
      modifies `viewers, `dropped
      ensures Value() == Joined(old(Value()), id)
    {
      viewers := viewers[id := []];
      if ready { Give(id, Backlog(lines, last, state, run)); }
      assert [] + [BacklogOf(Value().view)] == [BacklogOf(Value().view)];
      assert viewers == old(viewers)[id := if ready then [BacklogOf(Value().view)] else []];
    }

    method Leave(id: nat)
      modifies `viewers
      ensures viewers == old(viewers) - {id}
    {
      viewers := viewers - {id};
    }
  }
}
