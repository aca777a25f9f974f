// Both hops of the console together: a server printing, agents restarting, the
// panel's one socket to the node, and viewers coming, reading and going.
//
// Every step below is one atomic stretch on one side; they interleave freely.
// Nothing is assumed of how fast anybody reads.

module ConsoleRelay {
  import opened Prelude
  import opened ConsoleFrames
  import opened NodeConsole
  import opened PanelFeed

  // `runs` is all that was ever printed, by run of the agent; the last run is
  // the live one. `shown` is what each viewer's page shows.
  datatype World = World(
    runs: seq<seq<Line>>, state: string, socket: Option<Socket>, feed: Feed, shown: map<nat, Option<View>>)

  const Start := World([[]], "offline", None, NewFeed, map[])

  datatype Step =
    | Print(line: Line)
    | SetState(state: string)
    | RestartAgent
    | Connect
    | TakeLine
    | SendLines
    | SendStats(stats: Option<string>)
    | Disconnect
    | Receive
    | NotAnswering
    | Join(id: nat)
    | Leave(id: nat)
    | Read(id: nat)
    | ForgetFeed

  function Live(w: World): nat
    requires w.runs != []
  { |w.runs| - 1 }

  // The socket's other end is still there: a restarted agent has forgotten it,
  // though the panel may still be reading what it had sent.
  predicate Attached(w: World)
    requires w.runs != []
  {
    w.socket.Some? && w.socket.value.run == Live(w)
  }

  predicate Enabled(w: World, step: Step)
    requires w.runs != []
  {
    match step
    case Connect => w.socket.None?
    case TakeLine => Attached(w) && w.socket.value.held.None? && w.socket.value.follower.q != []
    case SendLines => Attached(w) && w.socket.value.held.Some?
    case SendStats(_) => Attached(w)
    case Receive => w.socket.Some? && w.socket.value.wire != []
    case Join(id) => id !in w.feed.viewers
    case Read(id) => id in w.feed.viewers && w.feed.viewers[id] != [] && id in w.shown
    case ForgetFeed => w.feed.viewers == map[]
    case _ => true
  }

  function Next(w: World, step: Step): World
    requires w.runs != [] && Enabled(w, step)
  {
    match step
    case Print(line) =>
      var history := w.runs[Live(w)];
      w.(runs := w.runs[Live(w) := history + [line]],
         socket := if Attached(w)
           then Some(w.socket.value.(follower := Offered(w.socket.value.follower, |history| + 1, line)))
           else w.socket)
    case SetState(state) => w.(state := state)
    case RestartAgent => w.(runs := w.runs + [[]])
    case Connect => w.(socket := Some(Opened(w.runs[Live(w)], w.state, Live(w))))
    case TakeLine => w.(socket := Some(Taken(w.socket.value)))
    case SendLines => w.(socket := Some(Sent(w.socket.value, w.runs[Live(w)], w.state)))
    case SendStats(stats) => w.(socket := Some(w.socket.value.(wire := w.socket.value.wire + [Stats(stats)])))
    case Disconnect => w.(socket := None)
    case Receive =>
      w.(socket := Some(w.socket.value.(wire := w.socket.value.wire[1..])),
         feed := Took(w.feed, w.socket.value.wire[0]))
    case NotAnswering => w.(feed := SentToAll(w.feed, Error))
    case Join(id) => w.(feed := Joined(w.feed, id), shown := w.shown[id := None])
    case Leave(id) => w.(feed := w.feed.(viewers := w.feed.viewers - {id}), shown := w.shown - {id})
    case Read(id) =>
      var q := w.feed.viewers[id];
      w.(feed := w.feed.(viewers := w.feed.viewers[id := q[1..]]), shown := w.shown[id := Shown(w.shown[id], q[0])])
    case ForgetFeed => w.(feed := NewFeed, socket := None, shown := map[])
  }

  // Steps that are not enabled when their turn comes do not happen.
  function After(steps: seq<Step>): (w: World)
    ensures w.runs != []
  {
    if steps == [] then Start
    else
      var w := After(steps[..|steps| - 1]);
      var step := steps[|steps| - 1];
      if Enabled(w, step) then Next(w, step) else w
  }

  // --- what every step keeps --------------------------------------------------------

  ghost predicate ViewersInStep(w: World) {
    && w.feed.viewers.Keys == w.shown.Keys
    && forall id :: id in w.feed.viewers ==> InStep(w.runs, w.feed, w.shown[id], w.feed.viewers[id])
  }

  // What is on the wire carries the feed on to where the node has sent it to.
  ghost predicate WireInStep(w: World, s: Socket) {
    && s.run < |w.runs|
    && Chain(w.runs, Some(w.feed.view), s.wire)
    && (forall i :: 0 <= i < |s.wire| ==> !s.wire[i].Error?)
    && (!w.feed.ready ==> s.wire != [] && s.wire[0].Backlog?)
    && (s.run == Live(w) ==>
          var far := ShownAll(Some(w.feed.view), s.wire);
          far.Some? && far.value.run == s.run && Gapless(s, w.runs[s.run], far.value.last))
  }

  ghost predicate Inv(w: World) {
    && w.runs != []
    && Exact(w.runs, w.feed.view)
    && ViewersInStep(w)
    && (w.socket.Some? ==> WireInStep(w, w.socket.value))
  }

  lemma GrowingKeepsViewers(w: World, more: seq<seq<Line>>)
    requires Inv(w) && Grown(w.runs, more)
    ensures Exact(more, w.feed.view)
    ensures ViewersInStep(w.(runs := more))
    ensures w.socket.Some? ==> Chain(more, Some(w.feed.view), w.socket.value.wire)
  {
    ExactGrows(w.runs, more, w.feed.view);
    forall id | id in w.feed.viewers
      ensures InStep(more, w.feed, w.shown[id], w.feed.viewers[id])
    {
      if w.shown[id].Some? { ExactGrows(w.runs, more, w.shown[id].value); }
      ChainGrows(w.runs, more, w.shown[id], w.feed.viewers[id]);
    }
    if w.socket.Some? { ChainGrows(w.runs, more, Some(w.feed.view), w.socket.value.wire); }
  }

  lemma PrintKeeps(w: World, line: Line)
    requires Inv(w)
    ensures Inv(Next(w, Print(line)))
  {
    var t := Next(w, Print(line));
    GrowingKeepsViewers(w, t.runs);
    if Attached(w) {
      var s := w.socket.value;
      OfferedIsGapless(s, w.runs[Live(w)], ShownAll(Some(w.feed.view), s.wire).value.last, line);
    }
  }

  lemma RestartKeeps(w: World)
    requires Inv(w)
    ensures Inv(Next(w, RestartAgent))
  {
    GrowingKeepsViewers(w, w.runs + [[]]);
  }

  lemma ConnectKeeps(w: World)
    requires Inv(w) && w.socket.None?
    ensures Inv(Next(w, Connect))
  {
    var s := Opened(w.runs[Live(w)], w.state, Live(w));
    var history := w.runs[Live(w)];
    assert history[..|history|] == history;
    assert s.wire[1..] == [];
    assert ShownAll(Some(w.feed.view), s.wire) == Some(Applied(w.feed.view, s.wire[0]));
  }

  lemma TakeLineKeeps(w: World)
    requires Inv(w) && Enabled(w, TakeLine)
    ensures Inv(Next(w, TakeLine))
  {
    var s := w.socket.value;
    TakenIsGapless(s, w.runs[s.run], ShownAll(Some(w.feed.view), s.wire).value.last);
  }

  lemma SendLinesKeeps(w: World)
    requires Inv(w) && Enabled(w, SendLines)
    ensures Inv(Next(w, SendLines))
  {
    var s := w.socket.value;
    var far := ShownAll(Some(w.feed.view), s.wire).value;
    var t := Sent(s, w.runs[s.run], w.state);
    SentIsGapless(s, w.runs, w.state, far);
    ChainAppend(w.runs, Some(w.feed.view), s.wire, t.wire[|s.wire|]);
  }

  lemma SendStatsKeeps(w: World, stats: Option<string>)
    requires Inv(w) && Enabled(w, SendStats(stats))
    ensures Inv(Next(w, SendStats(stats)))
  {
    var s := w.socket.value;
    ChainAppend(w.runs, Some(w.feed.view), s.wire, Stats(stats));
  }

  lemma ReceiveKeeps(w: World)
    requires Inv(w) && Enabled(w, Receive)
    ensures Inv(Next(w, Receive))
  {
    var f := w.socket.value.wire[0];
    var t := Next(w, Receive);
    ShownIsExact(w.runs, Some(w.feed.view), f);
    forall id | id in w.feed.viewers
      ensures InStep(t.runs, t.feed, t.shown[id], t.feed.viewers[id])
    {
      TookStaysInStep(w.runs, w.feed, w.shown[id], w.feed.viewers[id], f);
    }
  }

  lemma NotAnsweringKeeps(w: World)
    requires Inv(w)
    ensures Inv(Next(w, NotAnswering))
  {
    var t := Next(w, NotAnswering);
    forall id | id in w.feed.viewers
      ensures InStep(t.runs, t.feed, t.shown[id], t.feed.viewers[id])
    {
      ErrorStaysInStep(w.runs, w.feed, w.shown[id], w.feed.viewers[id]);
    }
  }

  lemma JoinKeeps(w: World, id: nat)
    requires Inv(w) && Enabled(w, Join(id))
    ensures Inv(Next(w, Join(id)))
  {
    Refreshed(w.runs, w.feed, None);
  }

  lemma ReadKeeps(w: World, id: nat)
    requires Inv(w) && Enabled(w, Read(id))
    ensures Inv(Next(w, Read(id)))
  {
    ShownIsExact(w.runs, w.shown[id], w.feed.viewers[id][0]);
  }

  lemma StepKeeps(w: World, step: Step)
    requires Inv(w) && Enabled(w, step)
    ensures Inv(Next(w, step))
  {
    match step {
      case Print(line) => PrintKeeps(w, line);
      case RestartAgent => RestartKeeps(w);
      case Connect => ConnectKeeps(w);
      case TakeLine => TakeLineKeeps(w);
      case SendLines => SendLinesKeeps(w);
      case SendStats(stats) => SendStatsKeeps(w, stats);
      case Receive => ReceiveKeeps(w);
      case NotAnswering => NotAnsweringKeeps(w);
      case Join(id) => JoinKeeps(w, id);
      case Read(id) => ReadKeeps(w, id);
      case _ =>
    }
  }

  lemma {:induction false} EveryRunKeeps(steps: seq<Step>)
    ensures Inv(After(steps))
  {
    if steps != [] {
      EveryRunKeeps(steps[..|steps| - 1]);
      var w := After(steps[..|steps| - 1]);
      if Enabled(w, steps[|steps| - 1]) { StepKeeps(w, steps[|steps| - 1]); }
    }
  }

  // --- what a viewer is promised ------------------------------------------------------

  // In any run, whatever overflowed: however much of its queue a viewer has
  // read, it shows nothing yet or a contiguous run of one server's line
  // history, ending at the number it was told; and once it has read all of it,
  // it shows exactly the feed's ring.
  lemma ViewersShowTheHistory(steps: seq<Step>, id: nat, k: nat)
    requires id in After(steps).feed.viewers && k <= |After(steps).feed.viewers[id]|
    ensures var w := After(steps);
      && id in w.shown
      && var v := ShownAll(w.shown[id], w.feed.viewers[id][..k]);
      && (v.Some? ==>
            && v.value.run < |w.runs| && v.value.last <= |w.runs[v.value.run]|
            && |v.value.lines| == (if v.value.last <= RING then v.value.last else RING)
            && v.value.lines == w.runs[v.value.run][v.value.last - |v.value.lines|..v.value.last])
      && (k == |w.feed.viewers[id]| && w.feed.ready ==> v == Some(w.feed.view))
  {
    var w := After(steps);
    EveryRunKeeps(steps);
    var q := w.feed.viewers[id];
    EveryPrefixIsExact(w.runs, w.shown[id], q, k);
    var v := ShownAll(w.shown[id], q[..k]);
    if v.Some? { ExactIsContiguous(w.runs, v.value); }
    if k == |q| { assert q[..k] == q; }
  }

  // And when the node has nothing left to send and the panel nothing left to
  // read, the feed is the node's ring, to the newest line.
  lemma QuietMeansCaughtUp(steps: seq<Step>)
    requires var w := After(steps);
      && Attached(w)
      && w.socket.value.wire == []
      && Pending(w.socket.value) == []
    ensures var w := After(steps);
      && w.feed.ready
      && w.feed.view.last == |w.runs[Live(w)]|
      && w.feed.view.lines == Last(w.runs[Live(w)], RING)
  {
    EveryRunKeeps(steps);
    var w := After(steps);
    assert w.runs[Live(w)][..|w.runs[Live(w)]|] == w.runs[Live(w)];
  }

  // A follower that lost a line always has another one waiting, and once that
  // one is in hand the ring afresh goes out instead of it: a console with a hole
  // in it is never shown.
  lemma OverflowIsRepaired(steps: seq<Step>)
    requires Attached(After(steps)) && After(steps).socket.value.follower.overflowed
    ensures var w := After(steps);
      (Enabled(w, SendLines) || Enabled(w, TakeLine)) &&
      var ready := if Enabled(w, SendLines) then w else Next(w, TakeLine);
      var sent := Next(ready, SendLines).socket.value;
      && sent.wire == w.socket.value.wire + [RingBacklog(w.runs[Live(w)], w.state, Live(w))]
      && Pending(sent) == [] && !sent.follower.overflowed
  {
    EveryRunKeeps(steps);
  }
}
