// The bounds of the console's queues, over every run, and when they are met: a follower
// refuses a line, and a viewer loses its queue, exactly when it is full.

module ConsoleBounds {
  import opened Prelude
  import opened ConsoleFrames
  import opened NodeConsole
  import opened PanelFeed
  import opened ConsoleRelay

  predicate FrameIsBounded(f: Frame) {
    (f.Lines? ==> 1 <= |f.lines| <= 200) && (f.Backlog? ==> |f.lines| <= 2000)
  }

  ghost predicate SocketIsBounded(s: Socket) {
    |s.follower.q| <= 5000 && forall i :: 0 <= i < |s.wire| ==> FrameIsBounded(s.wire[i])
  }

  ghost predicate QueuesAreBounded(viewers: map<nat, seq<Frame>>) {
    forall id :: id in viewers ==> |viewers[id]| <= 500
  }

  ghost predicate Bounded(w: World) {
    && QueuesAreBounded(w.feed.viewers) && |w.feed.view.lines| <= 2000
    && (w.socket.Some? ==> SocketIsBounded(w.socket.value))
  }

  lemma SentIsBounded(s: Socket, history: seq<Line>, state: string)
    requires s.held.Some? && SocketIsBounded(s)
    ensures SocketIsBounded(Sent(s, history, state))
  {}

  lemma RelayIsBounded(s: Feed, f: Frame)
    requires QueuesAreBounded(s.viewers)
    ensures QueuesAreBounded(SentToAll(s, f).viewers)
  {}

  lemma ReceiveIsBounded(w: World)
    requires w.runs != [] && Enabled(w, Receive) && Bounded(w)
    ensures Bounded(Next(w, Receive))
  {
    var f := w.socket.value.wire[0];
    var v := Applied(w.feed.view, f);
    RelayIsBounded(w.feed.(view := v, ready := w.feed.ready || f.Backlog?), Relayed(v, f));
  }

  lemma StepIsBounded(w: World, step: Step)
    requires w.runs != [] && Enabled(w, step) && Bounded(w)
    ensures Bounded(Next(w, step))
  {
    match step {
      case SendLines => SentIsBounded(w.socket.value, w.runs[Live(w)], w.state);
      case Receive => ReceiveIsBounded(w);
      case NotAnswering => RelayIsBounded(w.feed, Error);
      case _ =>
    }
  }

  // Over every run: at most 5000 lines wait for a follower and 500 frames for a viewer, a
  // frame has 200 lines at most, and a ring 2000.
  lemma {:induction false} EveryRunIsBounded(steps: seq<Step>)
    ensures Bounded(After(steps))
  {
    if steps != [] {
      var init, step := steps[..|steps| - 1], steps[|steps| - 1];
      EveryRunIsBounded(init);
      if Enabled(After(init), step) { StepIsBounded(After(init), step); }
    }
  }

  lemma OneMoreStep(steps: seq<Step>, step: Step)
    ensures After(steps + [step])
         == if Enabled(After(steps), step) then Next(After(steps), step) else After(steps)
  {
    assert (steps + [step])[..|steps|] == steps;
  }

  // A line printed waits for the follower unless 5000 do, and is marked as lost then.
  lemma LinesAreLostExactlyWhenFull(steps: seq<Step>, line: Line)
    requires Attached(After(steps))
    ensures var w, t := After(steps), After(steps + [Print(line)]);
      && t.socket.Some?
      && var f, g := w.socket.value.follower, t.socket.value.follower;
      && g.q == (if |f.q| == 5000 then f.q else f.q + [(|w.runs[Live(w)]| + 1, line)])
      && (g.overflowed <==> f.overflowed || |f.q| == 5000)
  {
    OneMoreStep(steps, Print(line));
    EveryRunIsBounded(steps);
  }

  // A batch is all that waits, up to 200 lines.
  lemma BatchesAreFull(steps: seq<Step>)
    requires Enabled(After(steps), SendLines) && !After(steps).socket.value.follower.overflowed
    ensures var s, t := After(steps).socket.value, After(steps + [SendLines]).socket;
      && t.Some? && |t.value.wire| == |s.wire| + 1
      && var f := t.value.wire[|s.wire|];
      && f.Lines? && |f.lines| == if |Pending(s)| <= 200 then |Pending(s)| else 200
  {
    OneMoreStep(steps, SendLines);
  }

  // What the feed reads waits for each viewer as one more frame, unless 500 do: then the
  // feed's ring waits instead of them all.
  lemma ViewersAreDrainedExactlyWhenFull(steps: seq<Step>, id: nat)
    requires Enabled(After(steps), Receive) && id in After(steps).feed.viewers
    ensures var w, t := After(steps), After(steps + [Receive]);
      && id in t.feed.viewers
      && var q, r := w.feed.viewers[id], t.feed.viewers[id];
      if |q| == 500 then r == [BacklogOf(t.feed.view)]
      else |r| == |q| + 1 && r[..|q|] == q && Applied(w.feed.view, r[|q|]) == t.feed.view
  {
    OneMoreStep(steps, Receive);
    EveryRunIsBounded(steps);
    EveryRunKeeps(steps);
  }

  // A viewer that joins has the feed's ring waiting, or nothing before there is one.
  lemma AViewerJoins(steps: seq<Step>, id: nat)
    requires id !in After(steps).feed.viewers
    ensures var w, t := After(steps), After(steps + [Join(id)]);
      && id in t.feed.viewers && t.feed.viewers[id] == (if w.feed.ready then [BacklogOf(w.feed.view)] else [])
      && id in t.shown && t.shown[id] == None
  {
    OneMoreStep(steps, Join(id));
  }

  // The notice that the node does not answer waits for each viewer like any frame.
  lemma TheNoticeIsGiven(steps: seq<Step>, id: nat)
    requires id in After(steps).feed.viewers
    ensures var w, t := After(steps), After(steps + [NotAnswering]);
      && id in t.feed.viewers && t.feed.view == w.feed.view
      && t.feed.viewers[id] == if |w.feed.viewers[id]| == 500 then [BacklogOf(w.feed.view)]
                               else w.feed.viewers[id] + [Error]
  {
    OneMoreStep(steps, NotAnswering);
    EveryRunIsBounded(steps);
    Notices(After(steps), id);
  }

  lemma Notices(w: World, id: nat)
    requires w.runs != [] && id in w.feed.viewers && |w.feed.viewers[id]| <= 500
    ensures Enabled(w, NotAnswering)
    ensures var t := Next(w, NotAnswering);
      && id in t.feed.viewers && t.feed.view == w.feed.view
      && t.feed.viewers[id] == if |w.feed.viewers[id]| == 500 then [BacklogOf(w.feed.view)]
                               else w.feed.viewers[id] + [Error]
  {}

  // A feed nobody watches is forgotten whole, and begins afresh.
  lemma AFeedIsForgotten(steps: seq<Step>)
    requires After(steps).feed.viewers == map[]
    ensures var w, t := After(steps), After(steps + [ForgetFeed]);
      t == World(w.runs, w.state, None, Feed(Blank, false, map[]), map[])
  {
    OneMoreStep(steps, ForgetFeed);
    Forgets(After(steps));
  }

  lemma Forgets(w: World)
    requires w.runs != [] && w.feed.viewers == map[]
    ensures Enabled(w, ForgetFeed)
    ensures Next(w, ForgetFeed) == World(w.runs, w.state, None, Feed(Blank, false, map[]), map[])
  {}

  // The feed is the live run's ring as it stands, and its state the server's.
  ghost predicate IsCaughtUp(w: World) {
    && w.runs != [] && w.feed.ready && w.feed.view.run == |w.runs| - 1 && w.feed.view.state == Some(w.state)
    && w.feed.view.last == |w.runs[|w.runs| - 1]| && w.feed.view.lines == Last(w.runs[|w.runs| - 1], 2000)
  }

  lemma Reconnects(w: World)
    requires Inv(w)
    ensures var a := Next(w, Disconnect);
      && Enabled(a, Connect)
      && var b := Next(a, Connect);
      && Enabled(b, Receive) && IsCaughtUp(Next(b, Receive))
      && Next(b, Receive).runs == w.runs && Next(b, Receive).state == w.state
  {
    assert Last(Last(w.runs[Live(w)], RING), RING) == Last(w.runs[Live(w)], RING);
  }

  // From wherever a run has come to, a new connection and the one frame it opens with
  // bring the feed up to the newest line of the live run and to the server's state.
  lemma AReconnectCatchesUp(steps: seq<Step>)
    ensures var w, t := After(steps), After(steps + [Disconnect] + [Connect] + [Receive]);
      IsCaughtUp(t) && t.runs == w.runs && t.state == w.state
  {
    EveryRunKeeps(steps);
    OneMoreStep(steps, Disconnect);
    OneMoreStep(steps + [Disconnect], Connect);
    OneMoreStep(steps + [Disconnect] + [Connect], Receive);
    Reconnects(After(steps));
  }

  // The world outside: what the server prints, its state, and an agent that begins a run
  // of its own, with nothing printed in it.
  lemma WhatTheServerDoes(steps: seq<Step>, line: Line, state: string)
    ensures var w, t := After(steps), After(steps + [Print(line)]);
      |t.runs| == |w.runs| && t.runs[..|t.runs| - 1] == w.runs[..|w.runs| - 1]
      && t.runs[|t.runs| - 1] == w.runs[|w.runs| - 1] + [line]
    ensures After(steps + [SetState(state)]).state == state
    ensures After(steps + [RestartAgent]).runs == After(steps).runs + [[]]
  {
    OneMoreStep(steps, Print(line));
    OneMoreStep(steps, SetState(state));
    OneMoreStep(steps, RestartAgent);
  }
}
