// The panel's hub (app/console_hub.py, Hub): one feed per watched server, one
// follow task per feed, and what happens when viewers, ending tasks and a
// closing panel meet.
//
// Feeds and tasks are objects; here each has a number. `tasks` are the follow
// tasks still running, each with the feed it follows.

module ConsoleHub {
  import opened Prelude

  datatype Watched = Watched(server: string, viewers: set<nat>, task: Option<nat>)

  datatype State = State(
    feeds: map<string, nat>, objects: map<nat, Watched>, tasks: map<nat, nat>,
    closing: bool, next: nat)

  const Start := State(map[], map[], map[], false, 0)

  datatype Step =
    | Join(server: string, viewer: nat)
    | Leave(server: string, viewer: nat)
    | TaskEnds(task: nat)
    | BeginClose
    | EndClose

  function Following(s: State, feed: nat): State
    requires feed in s.objects
  {
    s.(objects := s.objects[feed := s.objects[feed].(task := Some(s.next))],
       tasks := s.tasks[s.next := feed], next := s.next + 1)
  }

  predicate IsDone(s: State, task: Option<nat>) {
    task.None? || task.value !in s.tasks
  }

  function Opened(s: State, server: string): State {
    if server in s.feeds then s
    else s.(feeds := s.feeds[server := s.next],
            objects := s.objects[s.next := Watched(server, {}, None)], next := s.next + 1)
  }

  function Watching(s: State, feed: nat, viewer: nat): State
    requires feed in s.objects
  {
    s.(objects := s.objects[feed := s.objects[feed].(viewers := s.objects[feed].viewers + {viewer})])
  }

  function Joined(s: State, server: string, viewer: nat): State
    requires server in s.feeds ==> s.feeds[server] in s.objects
  {
    var t := Opened(s, server);
    var feed := t.feeds[server];
    var u := Watching(t, feed, viewer);
    if IsDone(u, u.objects[feed].task) then Following(u, feed) else u
  }

  function Left(s: State, server: string, viewer: nat): State
    requires server in s.feeds ==> s.feeds[server] in s.objects
  {
    if server !in s.feeds then s
    else
      var feed := s.feeds[server];
      s.(objects := s.objects[feed := s.objects[feed].(viewers := s.objects[feed].viewers - {viewer})])
  }

  // A follow task returns, fails or is cancelled; its `finally` runs in the
  // same stretch.
  function TaskEnded(s: State, task: nat): State
    requires task in s.tasks && s.tasks[task] in s.objects
  {
    var feed := s.tasks[task];
    var t := s.(tasks := s.tasks - {task});
    var server := t.objects[feed].server;
    if !(server in t.feeds && t.feeds[server] == feed) || t.closing then t
    else if t.objects[feed].viewers != {} then Following(t, feed)
    else t.(feeds := t.feeds - {server})
  }

  function Next(s: State, step: Step): State
    requires Inv(s)
  {
    match step
    case Join(server, viewer) => Joined(s, server, viewer)
    case Leave(server, viewer) => Left(s, server, viewer)
    case TaskEnds(task) => if task in s.tasks then TaskEnded(s, task) else s
    case BeginClose => s.(closing := true)
    case EndClose => s.(closing := false, feeds := map[])
  }

  // Every feed in the hub is followed by a running task (but for a hub that is
  // closing), no feed by two, and a task always follows the feed that names it.
  ghost predicate Inv(s: State) {
    && (forall o :: o in s.objects ==> o < s.next)
    && (forall t :: t in s.tasks ==> t < s.next && s.tasks[t] in s.objects && s.objects[s.tasks[t]].task == Some(t))
    && (forall o :: o in s.objects && s.objects[o].task.Some? ==>
          && s.objects[o].task.value < s.next
          && (s.objects[o].task.value in s.tasks ==> s.tasks[s.objects[o].task.value] == o))
    && (forall v :: v in s.feeds ==> s.feeds[v] in s.objects && s.objects[s.feeds[v]].server == v)
    && (!s.closing ==> forall v :: v in s.feeds ==> !IsDone(s, s.objects[s.feeds[v]].task))
  }

  lemma StepKeeps(s: State, step: Step)
    requires Inv(s)
    ensures Inv(Next(s, step))
  {
    match step {
      case Join(server, viewer) => JoinKeeps(s, server, viewer);
      case TaskEnds(task) => if task in s.tasks { TaskEndKeeps(s, task); }
      case _ =>
    }
  }

  lemma TaskEndKeeps(s: State, task: nat)
    requires Inv(s) && task in s.tasks
    ensures Inv(TaskEnded(s, task))
  {
    var feed := s.tasks[task];
    var t := s.(tasks := s.tasks - {task});
    var server := t.objects[feed].server;
    TaskGone(s, task);
    if !(server in t.feeds && t.feeds[server] == feed) || t.closing {
      NothingToFollow(t, feed);
    } else if t.objects[feed].viewers != {} {
      FollowingKeeps(t, feed);
    } else {
      FeedLeaves(t, server);
    }
  }

  lemma TaskGone(s: State, task: nat)
    requires Inv(s) && task in s.tasks
    ensures var t := s.(tasks := s.tasks - {task});
      OthersFollowed(t, s.tasks[task]) && s.tasks[task] in t.objects && IsDone(t, t.objects[s.tasks[task]].task)
  {}

  lemma NothingToFollow(s: State, feed: nat)
    requires OthersFollowed(s, feed) && feed in s.objects
    requires s.closing || !(s.objects[feed].server in s.feeds && s.feeds[s.objects[feed].server] == feed)
    ensures Inv(s)
  {}

  lemma FeedLeaves(s: State, server: string)
    requires server in s.feeds && OthersFollowed(s, s.feeds[server])
    ensures Inv(s.(feeds := s.feeds - {server}))
  {}

  lemma FollowingKeeps(s: State, feed: nat)
    requires feed in s.objects && OthersFollowed(s, feed) && IsDone(s, s.objects[feed].task)
    ensures Inv(Following(s, feed))
  {}

  // Every feed but this one is followed.
  ghost predicate OthersFollowed(s: State, feed: nat) {
    && Inv(s.(closing := true))
    && (!s.closing ==> forall v :: v in s.feeds && s.feeds[v] != feed ==> !IsDone(s, s.objects[s.feeds[v]].task))
  }

  lemma OpenedIsUnfollowed(s: State, server: string)
    requires Inv(s) && server !in s.feeds
    ensures OthersFollowed(Opened(s, server), s.next)
  {}

  lemma ViewerChangesNoTask(s: State, feed: nat, viewer: nat)
    requires OthersFollowed(s, feed) && feed in s.objects
    ensures OthersFollowed(Watching(s, feed, viewer), feed)
    ensures Inv(s) ==> Inv(Watching(s, feed, viewer))
  {}

  lemma JoinKeeps(s: State, server: string, viewer: nat)
    requires Inv(s)
    ensures Inv(Joined(s, server, viewer))
  {
    var t := Opened(s, server);
    var feed := t.feeds[server];
    if server !in s.feeds { OpenedIsUnfollowed(s, server); }
    ViewerChangesNoTask(t, feed, viewer);
    var u := Watching(t, feed, viewer);
    if IsDone(u, u.objects[feed].task) { FollowingKeeps(u, feed); }
  }

  function After(steps: seq<Step>): (s: State)
    ensures Inv(s)
  {
    if steps == [] then Start
    else
      var s := After(steps[..|steps| - 1]);
      StepKeeps(s, steps[|steps| - 1]);
      Next(s, steps[|steps| - 1])
  }

  ghost predicate FollowedOnce(s: State, feed: nat) {
    exists t :: t in s.tasks && s.tasks[t] == feed &&
      forall u :: u in s.tasks && s.tasks[u] == feed ==> u == t
  }

  lemma InTheHubIsFollowed(s: State, server: string)
    requires Inv(s) && !s.closing && server in s.feeds
    ensures FollowedOnce(s, s.feeds[server])
  {
    assert s.objects[s.feeds[server]].task.value in s.tasks;
  }

  // Whatever joins, leaves and ends, and in whatever order: while the hub is
  // not being closed, a watched server's feed has exactly one running task.
  lemma WatchedFeedsAreFollowed(steps: seq<Step>, server: string)
    requires server in After(steps).feeds && !After(steps).closing
    ensures FollowedOnce(After(steps), After(steps).feeds[server])
  {
    InTheHubIsFollowed(After(steps), server);
  }

  // Everybody watching watches a feed that is in the hub.
  ghost predicate NobodyLeft(s: State) {
    !s.closing && forall o :: o in s.objects && s.objects[o].viewers != {} ==>
      s.objects[o].server in s.feeds && s.feeds[s.objects[o].server] == o
  }

  lemma StepLeavesNobody(s: State, step: Step)
    requires Inv(s) && NobodyLeft(s) && !step.BeginClose? && !step.EndClose?
    ensures NobodyLeft(Next(s, step))
  {}

  lemma {:induction false} EveryoneIsInTheHub(steps: seq<Step>)
    requires BeginClose !in steps && EndClose !in steps
    ensures NobodyLeft(After(steps))
  {
    if steps != [] {
      EveryoneIsInTheHub(steps[..|steps| - 1]);
      StepLeavesNobody(After(steps[..|steps| - 1]), steps[|steps| - 1]);
    }
  }

  // Without a close, no viewer is ever left behind on a feed that is not in the
  // hub, or that nobody follows.
  lemma NobodyIsLeftBehind(steps: seq<Step>)
    requires BeginClose !in steps && EndClose !in steps
    ensures NobodyLeft(After(steps))
    ensures forall o :: o in After(steps).objects && After(steps).objects[o].viewers != {} ==>
      FollowedOnce(After(steps), o)
  {
    var s := After(steps);
    EveryoneIsInTheHub(steps);
    forall o | o in s.objects && s.objects[o].viewers != {}
      ensures FollowedOnce(s, o)
    {
      InTheHubIsFollowed(s, s.objects[o].server);
    }
  }

  // --- what a close leaves behind ---------------------------------------------------------

  predicate InHub(s: State, o: nat) {
    o in s.objects && s.objects[o].server in s.feeds && s.feeds[s.objects[o].server] == o
  }

  // Feeds from this number on were opened since the last close ended.
  function Era(steps: seq<Step>): nat {
    if steps == [] then 0
    else if steps[|steps| - 1].EndClose? then After(steps[..|steps| - 1]).next
    else Era(steps[..|steps| - 1])
  }

  // Watched feeds are in the hub, and the hub's feeds are new, both since `era`.
  ghost predicate SinceEra(s: State, era: nat) {
    && era <= s.next
    && (forall v :: v in s.feeds ==> era <= s.feeds[v])
    && (forall o :: o in s.objects && era <= o && s.objects[o].viewers != {} ==> InHub(s, o))
  }

  lemma JoinSince(s: State, server: string, viewer: nat, era: nat)
    requires Inv(s) && SinceEra(s, era)
    ensures SinceEra(Joined(s, server, viewer), era)
  {
    var t := Opened(s, server);
    assert SinceEra(t, era);
    WatchedSince(t, t.feeds[server], viewer, era);
  }

  lemma WatchedSince(s: State, feed: nat, viewer: nat, era: nat)
    requires SinceEra(s, era) && InHub(s, feed)
    ensures SinceEra(Watching(s, feed, viewer), era)
    ensures SinceEra(Following(Watching(s, feed, viewer), feed), era)
  {}

  lemma TaskEndSince(s: State, task: nat, era: nat)
    requires Inv(s) && task in s.tasks && SinceEra(s, era)
    ensures SinceEra(TaskEnded(s, task), era)
  {}

  lemma StepSince(s: State, step: Step, era: nat)
    requires Inv(s) && SinceEra(s, era)
    ensures SinceEra(Next(s, step), if step.EndClose? then s.next else era)
  {
    match step {
      case Join(server, viewer) => JoinSince(s, server, viewer, era);
      case Leave(server, viewer) =>
      case TaskEnds(task) => if task in s.tasks { TaskEndSince(s, task, era); }
      case BeginClose =>
      case EndClose =>
    }
  }

  lemma {:induction false} EveryRunSince(steps: seq<Step>)
    ensures SinceEra(After(steps), Era(steps))
  {
    if steps != [] {
      EveryRunSince(steps[..|steps| - 1]);
      StepSince(After(steps[..|steps| - 1]), steps[|steps| - 1], Era(steps[..|steps| - 1]));
    }
  }

  // In every run: a feed that has viewers is in the hub, and followed while the hub is
  // not closing, if and only if it was opened since the last close ended.
  lemma LeftBehindExactlyByAClose(steps: seq<Step>, o: nat)
    requires o in After(steps).objects && After(steps).objects[o].viewers != {}
    ensures InHub(After(steps), o) <==> Era(steps) <= o
    ensures Era(steps) <= o && !After(steps).closing ==> FollowedOnce(After(steps), o)
  {
    EveryRunSince(steps);
    if Era(steps) <= o && !After(steps).closing {
      InTheHubIsFollowed(After(steps), After(steps).objects[o].server);
    }
  }

  // Out of the hub, with these viewers.
  predicate IsOut(s: State, o: nat, viewers: set<nat>) {
    o in s.objects && !InHub(s, o) && s.objects[o].viewers == viewers
  }

  lemma JoinLeavesItOut(s: State, server: string, viewer: nat, o: nat, viewers: set<nat>)
    requires Inv(s) && IsOut(s, o, viewers)
    ensures IsOut(Joined(s, server, viewer), o, viewers)
  {}

  lemma StepLeavesItOut(s: State, step: Step, o: nat, viewers: set<nat>)
    requires Inv(s) && IsOut(s, o, viewers)
    ensures IsOut(Next(s, step), o, viewers)
  {
    if step.Join? { JoinLeavesItOut(s, step.server, step.viewer, o, viewers); }
  }

  lemma OneMoreLeavesItOut(steps: seq<Step>, step: Step, o: nat, viewers: set<nat>)
    requires IsOut(After(steps), o, viewers)
    ensures IsOut(After(steps + [step]), o, viewers)
  {
    assert (steps + [step])[..|steps|] == steps;
    StepLeavesItOut(After(steps), step, o, viewers);
  }

  // And the viewers it left behind stay there: whatever happens, nobody who watches a
  // feed that is out of the hub is taken off it, or sees it back in.
  lemma {:induction false} LeftBehindForGood(steps: seq<Step>, more: seq<Step>, o: nat, viewers: set<nat>)
    requires IsOut(After(steps), o, viewers)
    ensures IsOut(After(steps + more), o, viewers)
  {
    if more == [] {
      assert steps + more == steps;
    } else {
      var init, step := more[..|more| - 1], more[|more| - 1];
      assert steps + more == steps + init + [step];
      LeftBehindForGood(steps, init, o, viewers);
      OneMoreLeavesItOut(steps + init, step, o, viewers);
    }
  }

  // --- who watches, and what ends ----------------------------------------------------------

  // Whether the feed is the server's, at that moment.
  predicate IsFeedOf(s: State, o: nat, server: string) { server in s.feeds && s.feeds[server] == o }

  // Those who have joined the feed and not left it.
  function WhoJoined(steps: seq<Step>, o: nat): set<nat> {
    if steps == [] then {}
    else
      var init, step := steps[..|steps| - 1], steps[|steps| - 1];
      if step.Join? && IsFeedOf(After(steps), o, step.server) then WhoJoined(init, o) + {step.viewer}
      else if step.Leave? && IsFeedOf(After(init), o, step.server) then WhoJoined(init, o) - {step.viewer}
      else WhoJoined(init, o)
  }

  ghost predicate WatchedBy(s: State, o: nat, viewers: set<nat>) {
    if o in s.objects then s.objects[o].viewers == viewers else viewers == {}
  }

  lemma JoinWatches(s: State, server: string, viewer: nat, o: nat, viewers: set<nat>)
    requires Inv(s) && WatchedBy(s, o, viewers)
    ensures var t := Joined(s, server, viewer);
      WatchedBy(t, o, if IsFeedOf(t, o, server) then viewers + {viewer} else viewers)
  {}

  lemma TaskEndWatches(s: State, task: nat, o: nat, viewers: set<nat>)
    requires Inv(s) && task in s.tasks && WatchedBy(s, o, viewers)
    ensures WatchedBy(TaskEnded(s, task), o, viewers)
  {}

  lemma StepWatches(s: State, step: Step, o: nat, viewers: set<nat>)
    requires Inv(s) && WatchedBy(s, o, viewers)
    ensures var t := Next(s, step);
      WatchedBy(t, o, if step.Join? && IsFeedOf(t, o, step.server) then viewers + {step.viewer}
                      else if step.Leave? && IsFeedOf(s, o, step.server) then viewers - {step.viewer} else viewers)
  {
    match step {
      case Join(server, viewer) => JoinWatches(s, server, viewer, o, viewers);
      case TaskEnds(task) => if task in s.tasks { TaskEndWatches(s, task, o, viewers); }
      case _ =>
    }
  }

  // In every run, a feed's viewers are exactly those who joined it and have not left.
  lemma {:induction false} ViewersAreWhoJoined(steps: seq<Step>, o: nat)
    ensures WatchedBy(After(steps), o, WhoJoined(steps, o))
  {
    if steps != [] {
      var init, step := steps[..|steps| - 1], steps[|steps| - 1];
      ViewersAreWhoJoined(init, o);
      StepWatches(After(init), step, o, WhoJoined(init, o));
    }
  }

  // Whether a close has begun and not ended.
  function IsClosing(steps: seq<Step>): bool {
    steps != [] && (steps[|steps| - 1].BeginClose?
      || (!steps[|steps| - 1].EndClose? && IsClosing(steps[..|steps| - 1])))
  }

  lemma {:induction false} ClosingIsBetween(steps: seq<Step>)
    ensures After(steps).closing <==> IsClosing(steps)
  {
    if steps != [] { ClosingIsBetween(steps[..|steps| - 1]); }
  }

  // A task that ends is gone. Its feed is followed on while somebody watches, and leaves
  // the hub when nobody does; and nothing else changes.
  ghost predicate TaskIsOver(s: State, t: State, task: nat)
    requires task in s.tasks && s.tasks[task] in s.objects
  {
    var feed := s.tasks[task];
    && task !in t.tasks && t.closing == s.closing
    && (forall u :: u in s.tasks && u != task ==> u in t.tasks && t.tasks[u] == s.tasks[u])
    && (forall v :: v in t.feeds ==> v in s.feeds && t.feeds[v] == s.feeds[v])
    && (forall v :: v in s.feeds && v !in t.feeds ==>
          s.feeds[v] == feed && !s.closing && s.objects[feed].viewers == {})
    && (if InHub(s, feed) && !s.closing then
          (InHub(t, feed) <==> s.objects[feed].viewers != {}) && (InHub(t, feed) ==> FollowedOnce(t, feed))
        else t.tasks == s.tasks - {task})
  }

  lemma ATaskEnds(steps: seq<Step>, task: nat)
    requires task in After(steps).tasks
    ensures TaskIsOver(After(steps), After(steps + [TaskEnds(task)]), task)
  {
    assert (steps + [TaskEnds(task)])[..|steps|] == steps;
    TaskEndIsOver(After(steps), task);
  }

  lemma TaskEndIsOver(s: State, task: nat)
    requires Inv(s) && task in s.tasks
    ensures TaskIsOver(s, TaskEnded(s, task), task)
  {
    var feed, t := s.tasks[task], TaskEnded(s, task);
    TaskEndKeeps(s, task);
    if InHub(s, feed) && !s.closing && s.objects[feed].viewers != {} {
      InTheHubIsFollowed(t, s.objects[feed].server);
    }
  }

  // --- the hub -----------------------------------------------------------------------

  class Hub {
    var feeds: map<string, nat>
    var objects: map<nat, Watched>
    var tasks: map<nat, nat>
    var closing: bool
    var next: nat

    ghost function Value(): State
      reads this
    {
      State(feeds, objects, tasks, closing, next)
    }

    constructor ()
      ensures Value() == Start
    {
      feeds, objects, tasks, closing, next := map[], map[], map[], false, 0;
    }

    method StartTask(feed: nat)
      requires feed in objects
      modifies this
      ensures Value() == Following(old(Value()), feed)
    {
      objects := objects[feed := objects[feed].(task := Some(next))];
      tasks := tasks[next := feed];
      next := next + 1;
    }

    method Join(server: string, viewer: nat)
      requires Inv(Value())
      modifies this
      ensures Value() == Joined(old(Value()), server, viewer)
      ensures Inv(Value())
    {
      JoinKeeps(Value(), server, viewer);
      Open(server);
      var feed := feeds[server];
      var w := objects[feed];
      objects := objects[feed := w.(viewers := w.viewers + {viewer})];
      if w.task.None? || w.task.value !in tasks {
        StartTask(feed);
      }
    }

    method Open(server: string)
      modifies this
      ensures Value() == Opened(old(Value()), server)
    {
      if server !in feeds {
        feeds := feeds[server := next];
        objects := objects[next := Watched(server, {}, None)];
        next := next + 1;
      }
    }

    method Leave(server: string, viewer: nat)
      requires Inv(Value())
      modifies this
      ensures Value() == Left(old(Value()), server, viewer)
      ensures Inv(Value())
    {
      StepKeeps(Value(), Step.Leave(server, viewer));
      if server in feeds {
        var feed := feeds[server];
        objects := objects[feed := objects[feed].(viewers := objects[feed].viewers - {viewer})];
      }
    }

    method EndTask(task: nat)
      requires Inv(Value()) && task in tasks
      modifies this
      ensures Value() == TaskEnded(old(Value()), task)
      ensures Inv(Value())
    {
      StepKeeps(Value(), TaskEnds(task));
      var feed := tasks[task];
      tasks := tasks - {task};
      var server := objects[feed].server;
      if server in feeds && feeds[server] == feed && !closing {
        if objects[feed].viewers != {} {
          StartTask(feed);
        } else {
          feeds := feeds - {server};
        }
      }
    }
  }
}
