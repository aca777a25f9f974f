// What travels on the console sockets, and what a follower shows after reading it.
//
// Lines are numbered from 1 in each run of the agent (agent/servers.py,
// Console); `runs[r]` is everything run r ever printed. A view names the run
// its lines come from: a label of the model, which no code reads.

module ConsoleFrames {
  import opened Prelude

  const RING: nat := 2000       // CONSOLE_LINES on the node, RING in the panel

  type Line = string

  datatype Frame =
    | Backlog(lines: seq<Line>, last: nat, state: Option<string>, run: nat)
    | Lines(lines: seq<Line>, last: nat)
    | Stats(state: Option<string>)
    | Error

  datatype View = View(lines: seq<Line>, last: nat, state: Option<string>, run: nat)

  const Blank := View([], 0, None, 0)

  function BacklogOf(v: View): Frame { Backlog(v.lines, v.last, v.state, v.run) }

  // One frame read on top of a view (Feed._take, and every viewer of the feed).
  function Applied(v: View, f: Frame): View {
    match f
    case Backlog(lines, last, state, run) => View(Last(lines, RING), last, state, run)
    case Lines(lines, last) =>
      v.(lines := Last(v.lines + lines, RING), last := if last == 0 then v.last + |lines| else last)
    case Stats(state) => v.(state := if state.Some? then state else v.state)
    case Error => v
  }

  // A follower shows nothing until its first backlog.
  function Shown(v: Option<View>, f: Frame): Option<View> {
    match v
    case Some(view) => Some(Applied(view, f))
    case None => if f.Backlog? then Some(Applied(Blank, f)) else None
  }

  function ShownAll(v: Option<View>, fs: seq<Frame>): Option<View>
    decreases |fs|
  {
    if fs == [] then v else ShownAll(Shown(v, fs[0]), fs[1..])
  }

  // The view is exactly the ring of its run as it was when line `last` was printed.
  ghost predicate Exact(runs: seq<seq<Line>>, v: View) {
    && v.run < |runs|
    && v.last <= |runs[v.run]|
    && v.lines == Last(runs[v.run][..v.last], RING)
  }

  ghost predicate ExactOrNone(runs: seq<seq<Line>>, v: Option<View>) {
    v.Some? ==> Exact(runs, v.value)
  }

  // The frame carries on from the view without a gap, or starts it afresh.
  ghost predicate Fits(runs: seq<seq<Line>>, v: Option<View>, f: Frame) {
    match f
    case Backlog(lines, last, state, run) => Exact(runs, View(lines, last, state, run))
    case Lines(lines, last) =>
      && v.Some?
      && v.value.run < |runs|
      && 0 < |lines|
      && v.value.last + |lines| == last <= |runs[v.value.run]|
      && lines == runs[v.value.run][v.value.last..last]
    case _ => true
  }

  ghost predicate Chain(runs: seq<seq<Line>>, v: Option<View>, fs: seq<Frame>)
    decreases |fs|
  {
    fs == [] || (Fits(runs, v, fs[0]) && Chain(runs, Shown(v, fs[0]), fs[1..]))
  }

  lemma ShownIsExact(runs: seq<seq<Line>>, v: Option<View>, f: Frame)
    requires ExactOrNone(runs, v) && Fits(runs, v, f)
    ensures ExactOrNone(runs, Shown(v, f))
  {
    if f.Lines? {
      var all := runs[v.value.run];
      assert all[..v.value.last] + f.lines == all[..f.last];
      LastOfAppend(all[..v.value.last], f.lines, RING);
    }
  }

  // However far a follower has read, what it shows is exact.
  lemma {:induction false} EveryPrefixIsExact(runs: seq<seq<Line>>, v: Option<View>, fs: seq<Frame>, k: nat)
    requires ExactOrNone(runs, v) && Chain(runs, v, fs) && k <= |fs|
    ensures ExactOrNone(runs, ShownAll(v, fs[..k]))
    decreases |fs|
  {
    if k > 0 {
      ShownIsExact(runs, v, fs[0]);
      EveryPrefixIsExact(runs, Shown(v, fs[0]), fs[1..], k - 1);
      assert fs[..k][1..] == fs[1..][..k - 1];
    }
  }

  lemma {:induction false} ChainAppend(runs: seq<seq<Line>>, v: Option<View>, fs: seq<Frame>, f: Frame)
    ensures ShownAll(v, fs + [f]) == Shown(ShownAll(v, fs), f)
    ensures Chain(runs, v, fs) && Fits(runs, ShownAll(v, fs), f) ==> Chain(runs, v, fs + [f])
    decreases |fs|
  {
    if fs == [] {
      assert fs + [f] == [f] && [f][1..] == [];
    } else {
      ChainAppend(runs, Shown(v, fs[0]), fs[1..], f);
      assert (fs + [f])[1..] == fs[1..] + [f];
    }
  }

  // More lines printed, or a new run of the agent.
  ghost predicate Grown(runs: seq<seq<Line>>, more: seq<seq<Line>>) {
    && |runs| <= |more|
    && forall r :: 0 <= r < |runs| ==> runs[r] <= more[r]
  }

  lemma ExactGrows(runs: seq<seq<Line>>, more: seq<seq<Line>>, v: View)
    requires Grown(runs, more) && Exact(runs, v)
    ensures Exact(more, v)
  {
    assert more[v.run][..v.last] == runs[v.run][..v.last];
  }

  lemma {:induction false} ChainGrows(runs: seq<seq<Line>>, more: seq<seq<Line>>, v: Option<View>, fs: seq<Frame>)
    requires Grown(runs, more) && Chain(runs, v, fs)
    ensures Chain(more, v, fs)
    decreases |fs|
  {
    if fs != [] {
      match fs[0] {
        case Backlog(lines, last, state, run) => ExactGrows(runs, more, View(lines, last, state, run));
        case Lines(lines, last) =>
          assert more[v.value.run][v.value.last..last] == runs[v.value.run][v.value.last..last];
        case _ =>
      }
      ChainGrows(runs, more, Shown(v, fs[0]), fs[1..]);
    }
  }

  // An exact view is a contiguous run of the line history, ending at its number.
  lemma ExactIsContiguous(runs: seq<seq<Line>>, v: View)
    requires Exact(runs, v)
    ensures |v.lines| <= v.last
    ensures v.lines == runs[v.run][v.last - |v.lines|..v.last]
    ensures |v.lines| == if v.last <= RING then v.last else RING
  {
    assert v.lines == runs[v.run][v.last - |v.lines|..v.last];
  }

  lemma ExactBacklog(runs: seq<seq<Line>>, v: View, w: Option<View>)
    requires Exact(runs, v)
    ensures Fits(runs, w, BacklogOf(v)) && Shown(w, BacklogOf(v)) == Some(v)
  {}
}
