// The state a console shows: over every run, a feed and its viewers show the state the
// node last sent.

module ConsoleStates {
  import opened Prelude
  import opened ConsoleFrames
  import opened NodeConsole
  import opened PanelFeed
  import opened ConsoleRelay

  // What the node last said of the state on the socket there is: with the ring, when the
  // socket opens and after an overflow, and in what it samples of the server.
  function ToldNext(w: World, step: Step, told: Option<string>): Option<string>
    requires w.runs != [] && Enabled(w, step)
  {
    match step
    case Connect => Some(w.state)
    case SendLines => if w.socket.value.follower.overflowed then Some(w.state) else told
    case SendStats(stats) => if stats.Some? then stats else told
    case _ => told
  }

  function Told(steps: seq<Step>): Option<string> {
    if steps == [] then None
    else
      var w, step := After(steps[..|steps| - 1]), steps[|steps| - 1];
      if Enabled(w, step) then ToldNext(w, step, Told(steps[..|steps| - 1])) else Told(steps[..|steps| - 1])
  }

  // The state at the far end of the wire: what the feed will show once it has read it.
  function FarState(w: World): Option<string>
    requires w.socket.Some?
  {
    var far := ShownAll(Some(w.feed.view), w.socket.value.wire);
    if far.Some? then far.value.state else None
  }

  ghost predicate TellsAll(w: World, told: Option<string>) { w.socket.Some? ==> FarState(w) == told }

  lemma {:induction false} StaysShown(v: View, fs: seq<Frame>)
    ensures ShownAll(Some(v), fs).Some?
    decreases |fs|
  {
    if fs != [] { StaysShown(Applied(v, fs[0]), fs[1..]); }
  }

  // One more frame on the wire: the state is the frame's, if it has one.
  function StateIn(f: Frame, before: Option<string>): Option<string> {
    match f
    case Backlog(_, _, state, _) => state
    case Stats(state) => if state.Some? then state else before
    case _ => before
  }

  lemma OneMoreOnTheWire(w: World, t: World, f: Frame, told: Option<string>)
    requires w.socket.Some? && t.socket.Some? && TellsAll(w, told) && t.feed.view == w.feed.view
    requires t.socket.value.wire == w.socket.value.wire + [f]
    ensures TellsAll(t, StateIn(f, told))
  {
    ChainAppend(w.runs, Some(w.feed.view), w.socket.value.wire, f);
    StaysShown(w.feed.view, w.socket.value.wire);
  }

  lemma ConnectTells(w: World, told: Option<string>)
    requires w.runs != [] && Enabled(w, Connect)
    ensures TellsAll(Next(w, Connect), Some(w.state))
  {
    var wire := Opened(w.runs[Live(w)], w.state, Live(w)).wire;
    assert wire[1..] == [];
    assert ShownAll(Some(w.feed.view), wire) == Some(Applied(w.feed.view, wire[0]));
  }

  lemma SendLinesTells(w: World, told: Option<string>)
    requires w.runs != [] && Enabled(w, SendLines) && TellsAll(w, told)
    ensures TellsAll(Next(w, SendLines), ToldNext(w, SendLines, told))
  {
    var t := Next(w, SendLines);
    var f := t.socket.value.wire[|w.socket.value.wire|];
    OneMoreOnTheWire(w, t, f, told);
  }

  lemma ReceiveTells(w: World, told: Option<string>)
    requires Inv(w) && Enabled(w, Receive) && TellsAll(w, told)
    ensures TellsAll(Next(w, Receive), told)
  {
    var wire := w.socket.value.wire;
    assert ShownAll(Some(w.feed.view), wire) == ShownAll(Some(Applied(w.feed.view, wire[0])), wire[1..]);
    assert !wire[0].Error?;
  }

  lemma StepTells(w: World, step: Step, told: Option<string>)
    requires Inv(w) && Enabled(w, step) && TellsAll(w, told)
    ensures TellsAll(Next(w, step), ToldNext(w, step, told))
  {
    match step {
      case Connect => ConnectTells(w, told);
      case SendLines => SendLinesTells(w, told);
      case SendStats(stats) => OneMoreOnTheWire(w, Next(w, step), Stats(stats), told);
      case Receive => ReceiveTells(w, told);
      case _ =>
    }
  }

  lemma {:induction false} EveryRunTells(steps: seq<Step>)
    ensures TellsAll(After(steps), Told(steps))
  {
    if steps != [] {
      var init, step := steps[..|steps| - 1], steps[|steps| - 1];
      EveryRunTells(init);
      EveryRunKeeps(init);
      if Enabled(After(init), step) { StepTells(After(init), step, Told(init)); }
    }
  }

  // Over every run: once the panel has read what is on the wire, the feed's state is the
  // last one the node sent; and so is that of every viewer that has read its queue.
  lemma StateIsTheLastSent(steps: seq<Step>)
    requires After(steps).socket.Some? && After(steps).socket.value.wire == []
    ensures var w := After(steps);
      && w.feed.ready && w.feed.view.state == Told(steps)
      && forall id :: id in w.feed.viewers && w.feed.viewers[id] == [] ==>
           id in w.shown && w.shown[id].Some? && w.shown[id].value.state == Told(steps)
  {
    EveryRunTells(steps);
    EveryRunKeeps(steps);
    var w := After(steps);
    forall id | id in w.feed.viewers && w.feed.viewers[id] == []
      ensures id in w.shown && w.shown[id].Some? && w.shown[id].value.state == Told(steps)
    {
      assert InStep(w.runs, w.feed, w.shown[id], w.feed.viewers[id]);
    }
  }

  // A viewer's state, as it reads: that of the last frame read that has one.
  function StateAfter(before: Option<string>, fs: seq<Frame>): Option<string> {
    if fs == [] then before else StateIn(fs[|fs| - 1], StateAfter(before, fs[..|fs| - 1]))
  }

  lemma {:induction false} AViewersState(v: View, fs: seq<Frame>)
    ensures ShownAll(Some(v), fs).Some? && ShownAll(Some(v), fs).value.state == StateAfter(v.state, fs)
  {
    if fs != [] {
      var init := fs[..|fs| - 1];
      AViewersState(v, init);
      assert fs == init + [fs[|fs| - 1]];
      ChainAppend([], Some(v), init, fs[|fs| - 1]);
    }
  }
}
