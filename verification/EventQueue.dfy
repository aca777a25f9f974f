// The node's event queue (agent/events.py): a bounded deque that fills while a
// flush is waiting for the panel's answer.
//
// `emit` is one atomic stretch. `flush` is two: up to the post, and from the
// answer on. Any number of emits may run between them, and may overflow the
// queue meanwhile. What the suspended flush holds (its batch and its count of
// unreported drops) is `flight`.

module EventQueue {
  import opened Prelude

  const MAX_QUEUED: nat := 5000
  const BATCH: nat := 500
  const FLUSH_AT: nat := 50

  datatype Event = Event(kind: string, server: Option<string>, at: int, data: map<string, string>)

  datatype Flight = Flight(batch: seq<Event>, lost: nat)

  // How a post ends. Unheard: the panel took the batch, but the flush saw an
  // error (or was cancelled) and keeps it.
  datatype Answer = Accepted | Refused | Unheard

  // The queue's fields, and the history of its run: everything emitted,
  // everything the panel took, and the drop counts it was told.
  datatype State = State(
    queue: seq<Event>, dropped: nat, sent: nat, reported: nat, failures: nat,
    flight: Option<Flight>,
    emitted: seq<Event>, delivered: seq<Event>, told: seq<nat>)

  const Empty := State([], 0, 0, 0, 0, None, [], [], [])

  // --- the three atomic stretches ---------------------------------------------

  function Emitted(s: State, e: Event): State {
    s.(queue := Last(s.queue + [e], MAX_QUEUED),
       dropped := if |s.queue| == MAX_QUEUED then s.dropped + 1 else s.dropped,
       emitted := s.emitted + [e])
  }

  function Begun(s: State): State
    requires s.flight.None? && s.reported <= s.dropped
  {
    if s.queue == [] then s
    else
      var n := if |s.queue| <= BATCH then |s.queue| else BATCH;
      s.(flight := Some(Flight(s.queue[..n], s.dropped - s.reported)))
  }

  function Ended(s: State, answer: Answer): State
    requires s.flight.Some? && |s.flight.value.batch| <= |s.queue|
  {
    var Flight(batch, lost) := s.flight.value;
    var told := if lost > 0 then s.told + [lost] else s.told;
    match answer
    case Accepted =>
      s.(flight := None, queue := s.queue[|batch|..], reported := s.reported + lost,
         sent := s.sent + |batch|, failures := 0, delivered := s.delivered + batch, told := told)
    case Refused => s.(flight := None, failures := s.failures + 1)
    case Unheard =>
      s.(flight := None, failures := s.failures + 1, delivered := s.delivered + batch, told := told)
  }

  // --- runs ---------------------------------------------------------------------

  datatype Step = Emit(e: Event) | Begin | End(answer: Answer)

  function Next(s: State, step: Step): State
    requires Sound(s)
  {
    match step
    case Emit(e) => Emitted(s, e)
    case Begin => if s.flight.None? then Begun(s) else s
    case End(answer) => if s.flight.Some? then Ended(s, answer) else s
  }

  ghost function After(steps: seq<Step>): (s: State)
    ensures Sound(s)
  {
    if steps == [] then SoundEmpty(); Empty
    else
      var before := After(steps[..|steps| - 1]);
      var step := steps[|steps| - 1];
      NextIsSound(before, step);
      Next(before, step)
  }

  lemma OneMoreStep(steps: seq<Step>, step: Step)
    ensures After(steps + [step]) == Next(After(steps), step)
  {
    var all := steps + [step];
    assert all[..|all| - 1] == steps && all[|all| - 1] == step;
  }

  // Where in `emitted` the queue's oldest event is, and where the batch in flight began.
  function Head(s: State): nat { s.sent + s.dropped }

  function BatchStart(s: State): nat
    requires s.flight.Some?
  { s.sent + s.reported + s.flight.value.lost }

  // Every event ever emitted was sent, dropped or is queued; the queue is the
  // newest part of the history; a batch in flight is a stretch of it that
  // starts no later than the queue does.
  ghost predicate Sound(s: State) {
    && |s.queue| <= MAX_QUEUED
    && Head(s) <= |s.emitted|
    && s.queue == s.emitted[Head(s)..]
    && s.reported <= s.dropped
    && (s.flight.Some? ==>
          var Flight(batch, lost) := s.flight.value;
          && s.reported + lost <= s.dropped
          && 0 < |batch| <= BATCH
          && |batch| <= |s.queue|
          && BatchStart(s) + |batch| <= |s.emitted|
          && batch == s.emitted[BatchStart(s)..BatchStart(s) + |batch|])
  }

  lemma SoundEmpty()
    ensures Sound(Empty)
  {}

  lemma EmittedIsSound(s: State, e: Event)
    requires Sound(s)
    ensures Sound(Emitted(s, e))
  {
    var t := Emitted(s, e);
    assert t.queue == t.emitted[Head(t)..];
    if s.flight.Some? {
      var batch := s.flight.value.batch;
      assert t.emitted[BatchStart(t)..BatchStart(t) + |batch|]
          == s.emitted[BatchStart(s)..BatchStart(s) + |batch|];
    }
  }

  lemma EndedIsSound(s: State, answer: Answer)
    requires Sound(s) && s.flight.Some?
    ensures Sound(Ended(s, answer))
  {}

  lemma NextIsSound(s: State, step: Step)
    requires Sound(s)
    ensures Sound(Next(s, step))
  {
    match step {
      case Emit(e) => EmittedIsSound(s, e);
      case Begin =>
      case End(answer) => if s.flight.Some? { EndedIsSound(s, answer); }
    }
  }

  // Conservation, at every point of every run, flush in flight or not.
  lemma NothingIsUncounted(steps: seq<Step>)
    ensures var s := After(steps);
      |s.emitted| == s.sent + s.dropped + |s.queue|
  {
    var s := After(steps);
    assert Sound(s);
  }

  lemma ToldStep(s: State, step: Step)
    requires Sound(s) && step != End(Unheard) && Sum(s.told) == s.reported
    ensures Sum(Next(s, step).told) == Next(s, step).reported
  {
    if step.End? && s.flight.Some? {
      var told := s.told + [s.flight.value.lost];
      assert told[..|told| - 1] == s.told;
    }
  }

  // The drops told to the panel add up to `dropped_reported`, which never passes `dropped`.
  lemma {:induction false} ReportsAddUp(steps: seq<Step>)
    requires End(Unheard) !in steps
    ensures var s := After(steps);
      Sum(s.told) == s.reported <= s.dropped
  {
    if steps != [] {
      ReportsAddUp(steps[..|steps| - 1]);
      ToldStep(After(steps[..|steps| - 1]), steps[|steps| - 1]);
    }
  }

  // `got` is `all` at strictly increasing positions, all of them below `bound`.
  ghost predicate InOrder(at: seq<nat>, got: seq<Event>, all: seq<Event>, bound: nat) {
    && |at| == |got|
    && bound <= |all|
    && (forall i, j :: 0 <= i < j < |at| ==> at[i] < at[j])
    && (forall i :: 0 <= i < |at| ==> at[i] < bound && all[at[i]] == got[i])
  }

  function DeliveredBound(s: State): nat {
    if s.flight.Some? then BatchStart(s) else Head(s)
  }

  lemma InOrderGrows(at: seq<nat>, got: seq<Event>, all: seq<Event>, more: seq<Event>, bound: nat, bound': nat)
    requires InOrder(at, got, all, bound) && bound <= bound' <= |all + more|
    ensures InOrder(at, got, all + more, bound')
  {}

  lemma InOrderTakes(at: seq<nat>, got: seq<Event>, all: seq<Event>, bound: nat, from: nat, n: nat, bound': nat)
    returns (at': seq<nat>)
    requires InOrder(at, got, all, bound) && bound <= from && from + n <= bound' <= |all|
    ensures |at'| == |at| + n && InOrder(at', got + all[from..from + n], all, bound')
  {
    at' := at + seq(n, i requires 0 <= i < n => from + i);
  }

  lemma DeliveredStep(s: State, step: Step, at: seq<nat>) returns (at': seq<nat>)
    requires Sound(s) && step != End(Unheard)
    requires InOrder(at, s.delivered, s.emitted, DeliveredBound(s))
    ensures InOrder(at', Next(s, step).delivered, Next(s, step).emitted, DeliveredBound(Next(s, step)))
    ensures |at'| - |at| == Next(s, step).sent - s.sent
  {
    at' := at;
    match step {
      case Emit(e) => InOrderGrows(at, s.delivered, s.emitted, [e], DeliveredBound(s), DeliveredBound(Next(s, step)));
      case Begin =>
      case End(answer) =>
        if answer.Accepted? && s.flight.Some? {
          at' := InOrderTakes(at, s.delivered, s.emitted, DeliveredBound(s), BatchStart(s),
                              |s.flight.value.batch|, DeliveredBound(Next(s, step)));
        }
    }
  }

  // `at` says where in the history each event the panel has is.
  ghost predicate Delivers(s: State, at: seq<nat>) {
    InOrder(at, s.delivered, s.emitted, DeliveredBound(s)) && |s.delivered| == s.sent
  }

  // When the panel takes a batch exactly when the flush hears so, what it has
  // is a duplicate-free, in-order part of what was emitted, and as long as the
  // count of events sent.
  lemma {:induction false} DeliveredInOrder(steps: seq<Step>) returns (at: seq<nat>)
    requires End(Unheard) !in steps
    ensures Delivers(After(steps), at)
  {
    if steps == [] { return []; }
    var init, step := steps[..|steps| - 1], steps[|steps| - 1];
    at := DeliveredInOrder(init);
    at := DeliveredOnward(After(init), step, at);
  }

  lemma DeliveredOnward(s: State, step: Step, at: seq<nat>) returns (at': seq<nat>)
    requires Sound(s) && step != End(Unheard) && Delivers(s, at)
    ensures Delivers(Next(s, step), at')
  {
    at' := DeliveredStep(s, step, at);
  }

  // --- posts ------------------------------------------------------------------------

  // Posts that ended since the last accepted one, all in vain.
  ghost function InVain(steps: seq<Step>): nat {
    if steps == [] then 0
    else
      var init, step := steps[..|steps| - 1], steps[|steps| - 1];
      if !step.End? || After(init).flight.None? then InVain(init)
      else if step.answer.Accepted? then 0
      else InVain(init) + 1
  }

  lemma {:induction false} FailuresAreInVain(steps: seq<Step>)
    ensures After(steps).failures == InVain(steps)
  {
    if steps != [] { FailuresAreInVain(steps[..|steps| - 1]); }
  }

  // One post at a time: it is out from a flush that finds something queued to its answer,
  // with the oldest 500 events at most and every drop not told yet. An answer that is not a
  // refusal means the panel has both.
  lemma OnePostAtATime(steps: seq<Step>, step: Step)
    ensures var s, t := After(steps), After(steps + [step]);
      && (t.flight.Some? <==>
            if s.flight.Some? then !step.End? else step.Begin? && s.queue != [])
      && (s.flight.Some? && t.flight.Some? ==> t.flight == s.flight)
      && (s.flight.None? && t.flight.Some? ==>
            && t.flight.value.batch <= s.queue && t.flight.value.lost == s.dropped - s.reported
            && |t.flight.value.batch| == if |s.queue| < 500 then |s.queue| else 500)
      && (if s.flight.Some? && step.End? && !step.answer.Refused? then
            && t.delivered == s.delivered + s.flight.value.batch
            && t.told == s.told + if s.flight.value.lost == 0 then [] else [s.flight.value.lost]
          else t.delivered == s.delivered && t.told == s.told)
  {
    OneMoreStep(steps, step);
    APost(After(steps), step);
  }

  lemma APost(s: State, step: Step)
    requires Sound(s)
    ensures var t := Next(s, step);
      && (t.flight.Some? <==>
            if s.flight.Some? then !step.End? else step.Begin? && s.queue != [])
      && (s.flight.Some? && t.flight.Some? ==> t.flight == s.flight)
      && (s.flight.None? && t.flight.Some? ==>
            && t.flight.value.batch <= s.queue && t.flight.value.lost == s.dropped - s.reported
            && |t.flight.value.batch| == if |s.queue| < 500 then |s.queue| else 500)
      && (if s.flight.Some? && step.End? && !step.answer.Refused? then
            && t.delivered == s.delivered + s.flight.value.batch
            && t.told == s.told + if s.flight.value.lost == 0 then [] else [s.flight.value.lost]
          else t.delivered == s.delivered && t.told == s.told)
  {}

  // Events dropped while the post was out.
  function DroppedInFlight(s: State): nat
    requires s.flight.Some? && s.reported + s.flight.value.lost <= s.dropped
  { s.dropped - s.reported - s.flight.value.lost }

  // What the next accepted flush sends after an answer that was not heard.
  function SentAgain(s: State): seq<Event>
    requires Sound(s) && s.flight.Some?
  {
    s.queue[..if |s.queue| <= BATCH then |s.queue| else BATCH]
  }

  // An answer that is not heard breaks that, from every state with a post out: the
  // next accepted flush sends again what is left of the batch in the queue. So
  // events are delivered twice exactly when fewer were dropped while the post was
  // out than the batch has.
  lemma UnheardDuplicates(s: State)
    requires Sound(s) && s.flight.Some?
    ensures var unheard, batch, d := Next(s, End(Unheard)), s.flight.value.batch, DroppedInFlight(s);
      && Sound(unheard) && Sound(Next(unheard, Begin))
      && Next(Next(unheard, Begin), End(Accepted)).delivered == s.delivered + batch + SentAgain(s)
      && (d < |batch| ==> batch[d..] <= SentAgain(s))
      && (Distinct(s.emitted) ==> ((exists e :: e in batch && e in SentAgain(s)) <==> d < |batch|))
  {
    NextIsSound(s, End(Unheard));
    NextIsSound(Next(s, End(Unheard)), Begin);
    if DroppedInFlight(s) < |s.flight.value.batch| {
      RestOfTheBatch(s);
    } else if Distinct(s.emitted) {
      NoneAgain(s);
    }
  }

  lemma RestOfTheBatch(s: State)
    requires Sound(s) && s.flight.Some? && DroppedInFlight(s) < |s.flight.value.batch|
    ensures s.flight.value.batch[DroppedInFlight(s)..] <= SentAgain(s)
    ensures s.flight.value.batch[DroppedInFlight(s)] in SentAgain(s)
  {
    var rest := s.flight.value.batch[DroppedInFlight(s)..];
    assert BatchStart(s) + DroppedInFlight(s) == Head(s);
    assert forall k :: 0 <= k < |rest| ==> rest[k] == s.emitted[Head(s) + k] == s.queue[k];
    assert rest == SentAgain(s)[..|rest|];
    assert SentAgain(s)[0] == rest[0];
  }

  lemma NoneAgain(s: State)
    requires Sound(s) && s.flight.Some? && Distinct(s.emitted) && DroppedInFlight(s) >= |s.flight.value.batch|
    ensures forall e :: e in s.flight.value.batch ==> e !in SentAgain(s)
  {
    var batch, again := s.flight.value.batch, SentAgain(s);
    forall j, k | 0 <= j < |batch| && 0 <= k < |again|
      ensures batch[j] != again[k]
    {
      assert batch[j] == s.emitted[BatchStart(s) + j] && again[k] == s.emitted[Head(s) + k];
    }
  }

  // What an accepted flush pops: the batch, moved on by every event the queue
  // dropped while it was out.
  ghost predicate Pops(s: State)
    requires Sound(s) && s.flight.Some?
  {
    var batch := s.flight.value.batch;
    var from := BatchStart(s) + DroppedInFlight(s);
    && from + |batch| <= |s.emitted|
    && s.queue[..|batch|] == s.emitted[from..from + |batch|]
    && (Distinct(s.emitted) ==> (s.queue[..|batch|] == batch <==> DroppedInFlight(s) == 0))
  }

  // So the events popped are the events sent exactly when nothing overflowed
  // meanwhile.
  lemma PoppedExactlyTheBatch(steps: seq<Step>)
    requires After(steps).flight.Some?
    ensures Pops(After(steps))
  {
    PopsTheBatch(After(steps));
  }

  lemma PopsTheBatch(s: State)
    requires Sound(s) && s.flight.Some?
    ensures Pops(s)
  {
    var batch := s.flight.value.batch;
    var from := BatchStart(s) + DroppedInFlight(s);
    assert from == Head(s);
    if Distinct(s.emitted) && from != BatchStart(s) {
      assert s.queue[..|batch|][0] == s.emitted[from];
      assert batch[0] == s.emitted[BatchStart(s)];
    }
  }

  // It takes 5001 events to see it: a full queue, a post of its first 500, and one
  // more event while the post is out.
  function Nth(i: nat): Event { Event("event", None, i, map[]) }

  function Nths(n: nat): (es: seq<Event>)
    ensures |es| == n && forall i :: 0 <= i < n ==> es[i] == Nth(i)
  {
    seq(n, i requires 0 <= i < n => Nth(i))
  }

  function Emits(n: nat): (steps: seq<Step>)
    ensures |steps| == n && forall i :: 0 <= i < n ==> steps[i] == Emit(Nth(i))
  {
    seq(n, i requires 0 <= i < n => Emit(Nth(i)))
  }

  // The state after n events and nothing else.
  function Filled(n: nat): State { Empty.(queue := Nths(n), emitted := Nths(n)) }

  lemma FilledOneMore(n: nat)
    requires n < MAX_QUEUED
    ensures Sound(Filled(n)) && Next(Filled(n), Emit(Nth(n))) == Filled(n + 1)
  {
    assert Nths(n + 1) == Nths(n) + [Nth(n)];
  }

  lemma AfterOneEmit(steps: seq<Step>, n: nat)
    requires n < MAX_QUEUED && After(steps) == Filled(n)
    ensures After(steps + [Emit(Nth(n))]) == Filled(n + 1)
  {
    FilledOneMore(n);
    OneMoreStep(steps, Emit(Nth(n)));
  }

  lemma EmitsOneMore(n: nat)
    ensures Emits(n + 1) == Emits(n) + [Emit(Nth(n))] && Emits(0) == [] && Nths(0) == []
  {}

  lemma {:induction false} AfterEmits(n: nat)
    requires n <= MAX_QUEUED
    ensures After(Emits(n)) == Filled(n)
  {
    if n == 0 {
      EmitsOneMore(0);
    } else {
      AfterEmits(n - 1);
      AfterOneEmit(Emits(n - 1), n - 1);
      EmitsOneMore(n - 1);
    }
  }

  lemma AnOverflowInFlight() returns (steps: seq<Step>)
    ensures steps == Emits(MAX_QUEUED) + [Begin] + [Emit(Nth(MAX_QUEUED))]
    ensures var s := After(steps);
      && s.flight.Some? && DroppedInFlight(s) == 1 && |s.flight.value.batch| == BATCH
      && s.queue[..BATCH] != s.flight.value.batch
      && Nth(0) in s.flight.value.batch && Nth(0) !in s.queue
  {
    var full := Emits(MAX_QUEUED);
    steps := full + [Begin] + [Emit(Nth(MAX_QUEUED))];
    AfterEmits(MAX_QUEUED);
    OneMoreStep(full, Begin);
    OneMoreStep(full + [Begin], Emit(Nth(MAX_QUEUED)));
    var s := After(steps);
    assert s.flight.value.batch == Nths(MAX_QUEUED)[..BATCH];
    assert s.queue == (Nths(MAX_QUEUED) + [Nth(MAX_QUEUED)])[1..];
    assert s.flight.value.batch[0] == Nth(0) && s.queue[..BATCH][0] == Nth(1);
  }

  // --- the class ------------------------------------------------------------------

  class Events {
    var queue: seq<Event>
    var dropped: nat
    var sent: nat
    var reported: nat
    var failures: nat
    var flight: Option<Flight>
    ghost var emitted: seq<Event>
    ghost var delivered: seq<Event>
    ghost var told: seq<nat>

    ghost function View(): State
      reads this
    {
      State(queue, dropped, sent, reported, failures, flight, emitted, delivered, told)
    }

    constructor ()
      ensures View() == Empty
    {
      queue, dropped, sent, reported, failures, flight := [], 0, 0, 0, 0, None;
      emitted, delivered, told := [], [], [];
    }

    method Emit(e: Event) returns (wake: bool)
      requires Sound(View())
      modifies this
      ensures View() == Emitted(old(View()), e) && Sound(View())
      ensures wake == (|queue| >= FLUSH_AT)
    {
      NextIsSound(View(), Step.Emit(e));
      if |queue| == MAX_QUEUED {
        dropped := dropped + 1;
        queue := queue[1..];
      }
      queue := queue + [e];
      emitted := emitted + [e];
      wake := |queue| >= FLUSH_AT;
    }

    // Up to the post; `posted` is false when there was nothing to send.
    method BeginFlush() returns (posted: bool)
      requires Sound(View()) && flight.None?
      modifies this
      ensures View() == Begun(old(View())) && Sound(View())
      ensures posted == (old(queue) != [])
    {
      NextIsSound(View(), Begin);
      if queue == [] { return false; }
      var n := if |queue| <= BATCH then |queue| else BATCH;
      flight := Some(Flight(queue[..n], dropped - reported));
      posted := true;
    }

    method Pop(count: nat)
      requires count <= |queue|
      modifies `queue
      ensures queue == old(queue)[count..]
    {
      var n := 0;
      while n < count
        invariant n <= count && queue == old(queue)[n..]
      {
        queue := queue[1..];
        n := n + 1;
      }
    }

    // From the answer on. The batch is popped one event at a time, from
    // whatever the queue's head has become.
    method EndFlush(answer: Answer) returns (ok: bool)
      requires Sound(View()) && flight.Some?
      modifies this
      ensures View() == Ended(old(View()), answer) && Sound(View())
      ensures ok == answer.Accepted?
    {
      NextIsSound(View(), End(answer));
      var Flight(batch, lost) := flight.value;
      flight := None;
      if !answer.Refused? {
        delivered := delivered + batch;
        told := if lost > 0 then told + [lost] else told;
      }
      if !answer.Accepted? {
        failures := failures + 1;
        return false;
      }
      Pop(|batch|);
      reported := reported + lost;
      sent := sent + |batch|;
      failures := 0;
      ok := true;
    }
  }
}
