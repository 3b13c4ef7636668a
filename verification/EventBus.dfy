/** Conversation events: bounded history, bounded subscriber queues, and what one subscriber
    sees under every interleaving with the publisher. */
module EventBus {
  import opened Messages

  datatype Event = Event(sequence: nat, kind: string, data: string)

  datatype Limits = Limits(history: nat, queue: nat)

  // ---------------------------------------------------------------- the bus on values

  /** Deleting everything before the last `limit` entries; a limit of 0 deletes nothing. */
  function Retained(limit: nat, events: seq<Event>): (kept: seq<Event>)
    ensures |kept| <= |events|
  {
    if limit == 0 || |events| <= limit then events else events[|events| - limit..]
  }

  /** A queue of maximum size 0 is unbounded. */
  predicate Full(size: nat, queue: seq<Event>) {
    0 < size <= |queue|
  }

  /** Offering an event to a full queue drops the queue's oldest one. */
  function Offered(size: nat, queue: seq<Event>, e: Event): seq<Event> {
    (if Full(size, queue) then queue[1..] else queue) + [e]
  }

  /** The events past a cursor, in order. */
  function After(events: seq<Event>, cursor: nat): seq<Event> {
    if events == [] then []
    else if events[0].sequence > cursor then [events[0]] + After(events[1..], cursor)
    else After(events[1..], cursor)
  }

  /** `picked` are the events at the increasing positions `at`, and these are exactly the positions
      of the events past the cursor. */
  ghost predicate PicksPast(events: seq<Event>, cursor: nat, at: seq<nat>, picked: seq<Event>) {
    && |at| == |picked|
    && (forall i :: 0 <= i < |at| ==> at[i] < |events| && picked[i] == events[at[i]])
    && (forall i, j :: 0 <= i < j < |at| ==> at[i] < at[j])
    && (forall k :: 0 <= k < |events| ==> (k in at <==> events[k].sequence > cursor))
  }

  lemma {:induction false} PickNext(
    events: seq<Event>, n: nat, cursor: nat, at: seq<nat>, picked: seq<Event>)
    requires n < |events| && PicksPast(events[..n], cursor, at, picked)
    ensures if events[n].sequence > cursor
            then PicksPast(events[..n + 1], cursor, at + [n], picked + [events[n]])
            else PicksPast(events[..n + 1], cursor, at, picked)
  {
    var front := events[..n + 1];
    assert forall k :: 0 <= k < n ==> front[k] == events[..n][k];
    assert forall i :: 0 <= i < |at| ==> at[i] < n;
    forall k | 0 <= k <= n
      ensures k in at + [n] <==> k in at || k == n
    {
    }
  }

  lemma {:induction false} PickedLast(events: seq<Event>, cursor: nat, at: seq<nat>, picked: seq<Event>)
    requires PicksPast(events, cursor, at, picked) && events != []
    requires events[|events| - 1].sequence > cursor
    ensures |at| > 0 && at[|at| - 1] == |events| - 1
  {
    var n := |events| - 1;
    assert n in at;
    var i :| 0 <= i < |at| && at[i] == n;
    assert i < |at| - 1 ==> at[i] < at[|at| - 1] < |events|;
  }

  lemma {:induction false} PickedFront(events: seq<Event>, cursor: nat, at: seq<nat>, picked: seq<Event>)
    requires PicksPast(events, cursor, at, picked) && events != []
    ensures var n, k := |events| - 1, if events[|events| - 1].sequence > cursor then |at| - 1 else |at|;
      k >= 0 && PicksPast(events[..n], cursor, at[..k], picked[..k])
  {
    var n := |events| - 1;
    var k := if events[n].sequence > cursor then |at| - 1 else |at|;
    if events[n].sequence > cursor {
      PickedLast(events, cursor, at, picked);
    }
    forall i | 0 <= i < k
      ensures at[i] < n
    {
      assert at[i] in at;
    }
    forall j | 0 <= j < n
      ensures j in at[..k] <==> events[j].sequence > cursor
    {
      if j in at {
        var i :| 0 <= i < |at| && at[i] == j;
        assert at[..k][i] == j;
      }
    }
  }

  /** The filter is the recursive `After`. */
  lemma {:induction false} PickIsAfter(events: seq<Event>, cursor: nat, at: seq<nat>, picked: seq<Event>)
    requires PicksPast(events, cursor, at, picked)
    ensures picked == After(events, cursor)
    decreases |events|
  {
    assert |at| > 0 ==> at[0] < |events|;
    if events != [] {
      var n := |events| - 1;
      PickedFront(events, cursor, at, picked);
      AfterSnoc(events[..n], events[n], cursor);
      assert events == events[..n] + [events[n]];
      if events[n].sequence > cursor {
        PickedLast(events, cursor, at, picked);
        assert picked == picked[..|at| - 1] + [events[n]];
        hide PicksPast, After;
        PickIsAfter(events[..n], cursor, at[..|at| - 1], picked[..|at| - 1]);
      } else {
        assert at[..|at|] == at && picked[..|at|] == picked;
        hide PicksPast, After;
        PickIsAfter(events[..n], cursor, at, picked);
      }
    }
  }

  // ---------------------------------------------------------------- the bus as an object

  class Queue {
    var items: seq<Event>
    constructor ()
      ensures items == []
    {
      items := [];
    }
  }

  class InMemoryConversationEventBus {
    const limits: Limits
    var histories: map<string, seq<Event>>
    var subscribers: map<string, set<Queue>>

    constructor (limits: Limits)
      ensures this.limits == limits && histories == map[] && subscribers == map[]
    {
      this.limits := limits;
      histories, subscribers := map[], map[];
    }

    function HistoryOf(conversation: string): seq<Event>
      reads this
    {
      if conversation in histories then histories[conversation] else []
    }

    function SubscribersOf(conversation: string): set<Queue>
      reads this
    {
      if conversation in subscribers then subscribers[conversation] else {}
    }

    method NextSequence(conversation: string) returns (n: nat)
      ensures n >= 1
      ensures HistoryOf(conversation) == [] ==> n == 1
      ensures HistoryOf(conversation) != [] ==>
                n == HistoryOf(conversation)[|HistoryOf(conversation)| - 1].sequence + 1
    {
      var history := HistoryOf(conversation);
      if history == [] {
        return 1;
      }
      return history[|history| - 1].sequence + 1;
    }

    method Publish(conversation: string, event: Event)
      modifies this, SubscribersOf(conversation)
      ensures histories == old(histories)[conversation :=
                             Retained(limits.history, old(HistoryOf(conversation)) + [event])]
      ensures forall c :: SubscribersOf(c) == old(SubscribersOf(c))
      ensures forall q <- old(SubscribersOf(conversation)) ::
                q.items == Offered(limits.queue, old(q.items), event)
    {
      var history := HistoryOf(conversation) + [event];
      if limits.history > 0 && |history| > limits.history {
        history := history[|history| - limits.history..];
      }
      histories := histories[conversation := history];
      var rest := SubscribersOf(conversation);
      while rest != {}
        invariant rest <= old(SubscribersOf(conversation))
        invariant histories == old(histories)[conversation :=
                                 Retained(limits.history, old(HistoryOf(conversation)) + [event])]
        invariant subscribers == old(subscribers)
        invariant forall q <- rest :: q.items == old(q.items)
        invariant forall q <- old(SubscribersOf(conversation)) - rest ::
                    q.items == Offered(limits.queue, old(q.items), event)
        decreases |rest|
      {
        var q :| q in rest;
        if Full(limits.queue, q.items) {
          q.items := q.items[1..];
        }
        q.items := q.items + [event];
        rest := rest - {q};
      }
    }

    method History(conversation: string, after: nat) returns (events: seq<Event>)
      ensures exists at :: PicksPast(HistoryOf(conversation), after, at, events)
      ensures events == After(HistoryOf(conversation), after)
    {
      var history := HistoryOf(conversation);
      events := [];
      ghost var at: seq<nat> := [];
      for i := 0 to |history|
        invariant PicksPast(history[..i], after, at, events)
      {
        PickNext(history, i, after, at, events);
        if history[i].sequence > after {
          events := events + [history[i]];
          at := at + [i];
        }
      }
      assert history[..|history|] == history;
      assert PicksPast(HistoryOf(conversation), after, at, events);
      PickIsAfter(history, after, at, events);
    }

    method Subscribe(conversation: string) returns (queue: Queue)
      modifies this`subscribers
      ensures fresh(queue) && queue.items == []
      ensures subscribers == old(subscribers)[conversation := old(SubscribersOf(conversation)) + {queue}]
    {
      queue := new Queue();
      subscribers := subscribers[conversation := SubscribersOf(conversation) + {queue}];
    }

    method Unsubscribe(conversation: string, queue: Queue)
      modifies this`subscribers
      ensures subscribers == old(subscribers)[conversation := old(SubscribersOf(conversation)) - {queue}]
    {
      subscribers := subscribers[conversation := SubscribersOf(conversation) - {queue}];
    }
  }

  // ---------------------------------------------------------------- one subscriber

  /** Where the subscriber's generator stands. `Batch` holds what is left of a history snapshot. */
  datatype Phase = New | Registered | Batch(rest: seq<Event>) | Live | TimedOut

  /** A conversation's publisher and one subscriber. `all`, `start` and `overflowed` are
      observations: everything published, where the first snapshot began, and whether the
      subscriber's queue ever dropped an event. */
  datatype World = World(
    history: seq<Event>, queue: seq<Event>, cursor: nat, phase: Phase, emitted: seq<Event>,
    all: seq<Event>, start: nat, overflowed: bool)

  datatype Step = Publish(event: Event) | Register | Snapshot | Next | Get | Timeout

  function Start(after: nat): World {
    World([], [], after, New, [], [], 0, false)
  }

  predicate Enabled(w: World, s: Step) {
    match s
    case Publish(e) => |w.all| == 0 || w.all[|w.all| - 1].sequence < e.sequence
    case Register => w.phase.New?
    case Snapshot => w.phase.Registered? || w.phase.TimedOut?
    case Next => w.phase.Batch?
    case Get => w.phase.Live? && w.queue != []
    case Timeout => w.phase.Live?
  }

  function Do(l: Limits, w: World, s: Step): World
    requires Enabled(w, s)
  {
    match s
    case Publish(e) =>
      var w' := w.(history := Retained(l.history, w.history + [e]), all := w.all + [e]);
      if w.phase.New? then w'
      else w'.(queue := Offered(l.queue, w.queue, e), overflowed := w.overflowed || Full(l.queue, w.queue))
    case Register => w.(phase := Registered)
    case Snapshot =>
      w.(phase := Batch(After(w.history, w.cursor)),
         start := if w.phase.Registered? then |w.all| - |Retained(l.history, w.all)| else w.start)
    case Next =>
      if w.phase.rest == [] then w.(phase := Live)
      else
        var e := w.phase.rest[0];
        w.(cursor := if e.sequence > w.cursor then e.sequence else w.cursor,
           emitted := w.emitted + [e], phase := Batch(w.phase.rest[1..]))
    case Get =>
      var e := w.queue[0];
      var w' := w.(queue := w.queue[1..]);
      if e.sequence > w.cursor then w'.(cursor := e.sequence, emitted := w.emitted + [e]) else w'
    case Timeout => w.(phase := TimedOut)
  }

  ghost predicate Possible(l: Limits, w: World, steps: seq<Step>)
    decreases |steps|
  {
    steps == [] || (Enabled(w, steps[0]) && Possible(l, Do(l, w, steps[0]), steps[1..]))
  }

  ghost function Run(l: Limits, w: World, steps: seq<Step>): World
    requires Possible(l, w, steps)
    decreases |steps|
  {
    if steps == [] then w else Run(l, Do(l, w, steps[0]), steps[1..])
  }

  // ---------------------------------------------------------------- order

  ghost predicate Increasing(events: seq<Event>) {
    forall i, j :: 0 <= i < j < |events| ==> events[i].sequence < events[j].sequence
  }

  /** On an increasing sequence, the events past a cursor are a suffix. */
  lemma {:induction false} AfterIsSuffix(events: seq<Event>, cursor: nat)
    requires Increasing(events)
    ensures var a := After(events, cursor);
      && |a| <= |events| && a == events[|events| - |a|..]
      && (forall i :: 0 <= i < |events| - |a| ==> events[i].sequence <= cursor)
      && (forall i :: |events| - |a| <= i < |events| ==> events[i].sequence > cursor)
      && Increasing(a)
  {
    if events != [] {
      AfterIsSuffix(events[1..], cursor);
      if events[0].sequence > cursor {
        AllAfter(events, cursor);
      } else {
        assert After(events, cursor) == After(events[1..], cursor);
      }
    }
  }

  lemma {:induction false} AllAfter(events: seq<Event>, cursor: nat)
    requires forall i :: 0 <= i < |events| ==> events[i].sequence > cursor
    ensures After(events, cursor) == events
  {
    if events != [] {
      AllAfter(events[1..], cursor);
    }
  }

  /** Where the suffix starts is determined by the cursor alone. */
  lemma {:induction false} AfterFrom(events: seq<Event>, cursor: nat, k: nat)
    requires Increasing(events) && k <= |events|
    requires k > 0 ==> events[k - 1].sequence <= cursor
    requires k < |events| ==> events[k].sequence > cursor
    ensures After(events, cursor) == events[k..]
  {
    AfterIsSuffix(events, cursor);
    hide After;
  }

  /** Passing the first event past the cursor leaves the others. */
  lemma {:induction false} AfterFirst(events: seq<Event>, cursor: nat)
    requires Increasing(events) && After(events, cursor) != []
    ensures After(events, After(events, cursor)[0].sequence) == After(events, cursor)[1..]
  {
    AfterIsSuffix(events, cursor);
    hide After;
    var a := After(events, cursor);
    var k := |events| - |a|;
    assert events[k] == a[0];
    AfterFrom(events, a[0].sequence, k + 1);
  }

  lemma {:induction false} AfterSnoc(events: seq<Event>, e: Event, cursor: nat)
    ensures After(events + [e], cursor)
         == After(events, cursor) + (if e.sequence > cursor then [e] else [])
  {
    if events == [] {
      assert events + [e] == [e];
      assert [e][1..] == [];
    } else {
      assert (events + [e])[1..] == events[1..] + [e];
      AfterSnoc(events[1..], e, cursor);
    }
  }

  /** A shorter suffix holds all the events past the cursor when it is long enough. */
  lemma {:induction false} AfterOfSuffix(events: seq<Event>, k: nat, cursor: nat)
    requires Increasing(events) && k <= |events|
    requires |After(events, cursor)| <= |events| - k
    ensures After(events[k..], cursor) == After(events, cursor)
  {
    AfterIsSuffix(events, cursor);
    hide After;
    var at := |events| - |After(events, cursor)|;
    var tail := events[k..];
    assert at >= k;
    assert at < |events| ==> tail[at - k] == After(events, cursor)[0];
    AfterFrom(tail, cursor, at - k);
    assert tail[at - k..] == events[at..];
  }

  // ---------------------------------------------------------------- what every step keeps

  function Rest(w: World): seq<Event> {
    if w.phase.Batch? then w.phase.rest else []
  }

  ghost predicate Past(events: seq<Event>, cursor: nat) {
    forall e <- events :: e.sequence > cursor
  }

  ghost predicate UpTo(events: seq<Event>, cursor: nat) {
    forall e <- events :: e.sequence <= cursor
  }

  ghost predicate From(events: seq<Event>, all: seq<Event>) {
    forall e <- events :: e in all
  }

  /** Holds whatever is lost: the subscriber only moves forward, through published events. */
  ghost predicate Ordered(l: Limits, w: World, after: nat) {
    && Increasing(w.all) && Increasing(w.emitted) && Increasing(Rest(w))
    && w.history == Retained(l.history, w.all)
    && Past(w.emitted, after) && UpTo(w.emitted, w.cursor) && after <= w.cursor
    && (w.cursor != after ==> w.emitted != [] && w.emitted[|w.emitted| - 1].sequence == w.cursor)
    && Past(Rest(w), w.cursor)
    && From(w.emitted, w.all) && From(w.queue, w.all) && From(Rest(w), w.all)
  }

  lemma {:induction false} RetainedStep(limit: nat, all: seq<Event>, e: Event)
    ensures Retained(limit, Retained(limit, all) + [e]) == Retained(limit, all + [e])
  {
  }

  lemma {:induction false} SnocIncreases(events: seq<Event>, e: Event)
    requires Increasing(events)
    requires |events| == 0 || events[|events| - 1].sequence < e.sequence
    ensures Increasing(events + [e])
  {
  }

  lemma {:induction false} PublishKeepsOrdered(l: Limits, w: World, e: Event, after: nat)
    requires Ordered(l, w, after) && Enabled(w, Publish(e))
    ensures Ordered(l, Do(l, w, Publish(e)), after)
  {
    hide Retained;
    RetainedStep(l.history, w.all, e);
    SnocIncreases(w.all, e);
  }

  lemma {:induction false} EmitKeepsOrdered(w: World, e: Event, after: nat)
    requires Increasing(w.emitted) && UpTo(w.emitted, w.cursor) && Past(w.emitted, after)
    requires e.sequence > w.cursor >= after
    ensures Increasing(w.emitted + [e]) && UpTo(w.emitted + [e], e.sequence)
    ensures Past(w.emitted + [e], after)
  {
    assert forall i :: 0 <= i < |w.emitted| ==> w.emitted[i] in w.emitted;
  }

  lemma {:induction false} SnapshotKeepsOrdered(l: Limits, w: World, after: nat)
    requires Ordered(l, w, after) && Enabled(w, Snapshot)
    ensures Ordered(l, Do(l, w, Snapshot), after)
  {
    hide Retained, After;
    RetainedFacts(l.history, w.all);
    AfterFacts(w.history, w.cursor);
  }

  lemma {:induction false} RetainedFacts(limit: nat, all: seq<Event>)
    requires Increasing(all)
    ensures Increasing(Retained(limit, all)) && From(Retained(limit, all), all)
  {
  }

  lemma {:induction false} AfterFacts(events: seq<Event>, cursor: nat)
    requires Increasing(events)
    ensures var a := After(events, cursor); Increasing(a) && From(a, events) && Past(a, cursor)
  {
    AfterIsSuffix(events, cursor);
    hide After;
    var a := After(events, cursor);
    forall i | 0 <= i < |a|
      ensures a[i] in events && a[i].sequence > cursor
    {
      assert a[i] == events[|events| - |a| + i];
    }
  }

  lemma {:induction false} FirstIsLeast(events: seq<Event>, all: seq<Event>)
    requires events != [] && Increasing(events) && From(events, all)
    ensures events[0] in all && From(events[1..], all)
    ensures Increasing(events[1..]) && Past(events[1..], events[0].sequence)
  {
    assert forall e <- events[1..] :: e in events;
  }

  lemma {:induction false} FromSnoc(events: seq<Event>, all: seq<Event>, e: Event)
    requires From(events, all) && e in all
    ensures From(events + [e], all)
  {
  }

  lemma {:induction false} NextKeepsOrdered(l: Limits, w: World, after: nat)
    requires Ordered(l, w, after) && Enabled(w, Next)
    ensures Ordered(l, Do(l, w, Next), after)
  {
    if Rest(w) != [] {
      var e := Rest(w)[0];
      assert e in Rest(w);
      assert Do(l, w, Next) ==
        w.(cursor := e.sequence, emitted := w.emitted + [e], phase := Batch(Rest(w)[1..]));
      EmitKeepsOrdered(w, e, after);
      FirstIsLeast(Rest(w), w.all);
      FromSnoc(w.emitted, w.all, e);
      hide Do, Retained, Increasing, Past, UpTo, From;
    }
  }

  lemma {:induction false} GetKeepsOrdered(l: Limits, w: World, after: nat)
    requires Ordered(l, w, after) && Enabled(w, Get)
    ensures Ordered(l, Do(l, w, Get), after)
  {
    hide Retained;
    var e := w.queue[0];
    assert e in w.queue;
    if e.sequence > w.cursor {
      EmitKeepsOrdered(w, e, after);
    }
  }

  lemma {:induction false} StepKeepsOrdered(l: Limits, w: World, s: Step, after: nat)
    requires Ordered(l, w, after) && Enabled(w, s)
    ensures Ordered(l, Do(l, w, s), after)
  {
    match s
    case Publish(e) => PublishKeepsOrdered(l, w, e, after);
    case Snapshot => SnapshotKeepsOrdered(l, w, after);
    case Next => NextKeepsOrdered(l, w, after);
    case Get => GetKeepsOrdered(l, w, after);
    case Register =>
    case Timeout =>
  }

  // ---------------------------------------------------------------- exactly once

  /** The history always reaches back over everything a queue can hold. */
  predicate HistoryCoversQueue(l: Limits) {
    l.history == 0 || 0 < l.queue <= l.history
  }

  ghost predicate Suffix(part: seq<Event>, all: seq<Event>) {
    |part| <= |all| && part == all[|all| - |part|..]
  }

  /** The queue holds the latest events, no more than the history does. */
  ghost predicate Latest(l: Limits, w: World) {
    && Suffix(w.queue, w.all)
    && |w.queue| <= |w.history| <= |w.all|
    && (l.queue > 0 ==> |w.queue| <= l.queue)
    && (w.phase.New? ==> w.queue == [])
  }

  /** Of the events `tail` since the snapshot, what was emitted and what is still past the cursor
      are all those past `after`; the latter are left in the batch or wait in the queue. */
  ghost predicate Settled(
    tail: seq<Event>, cursor: nat, emitted: seq<Event>, rest: seq<Event>, queued: nat, after: nat)
  {
    && emitted + After(tail, cursor) == After(tail, after)
    && rest <= After(tail, cursor)
    && |After(tail, cursor)| <= |rest| + queued
  }

  ghost predicate Accounted(w: World, after: nat) {
    if w.phase.New? || w.phase.Registered? then w.emitted == [] && w.cursor == after
    else
      && w.start + |w.history| <= |w.all|
      && Settled(w.all[w.start..], w.cursor, w.emitted, Rest(w), |w.queue|, after)
  }

  ghost predicate Exact(l: Limits, w: World, after: nat) {
    Latest(l, w) && Accounted(w, after)
  }

  lemma {:induction false} SuffixSnoc(part: seq<Event>, all: seq<Event>, e: Event)
    requires Suffix(part, all)
    ensures Suffix(part + [e], all + [e])
  {
    assert (all + [e])[|all| - |part|..] == all[|all| - |part|..] + [e];
  }

  lemma {:induction false} SuffixStart(part: seq<Event>, all: seq<Event>)
    ensures Suffix([], all)
    ensures Suffix(part, all) ==> |part| <= |all| && all[|all| - |part|..] == part
  {
  }

  lemma {:induction false} SuffixTail(part: seq<Event>, all: seq<Event>)
    requires Suffix(part, all) && part != []
    ensures Suffix(part[1..], all)
  {
  }

  lemma {:induction false} RetainedSize(limit: nat, all: seq<Event>, e: Event)
    ensures |Retained(limit, all)| <= |all| && Suffix(Retained(limit, all), all)
    ensures limit == 0 ==> |Retained(limit, all + [e])| == |all| + 1
    ensures limit > 0 ==> |Retained(limit, all + [e])| >= (if |all| < limit then |all| + 1 else limit)
    ensures |Retained(limit, all)| <= |Retained(limit, all + [e])| <= |Retained(limit, all)| + 1
  {
  }

  /** Without an overflow, an event is added to the history and to a registered queue. */
  lemma {:induction false} PublishAdds(l: Limits, w: World, e: Event)
    requires w.history == Retained(l.history, w.all)
    requires Enabled(w, Publish(e)) && !Do(l, w, Publish(e)).overflowed
    ensures Do(l, w, Publish(e)) ==
      w.(history := Retained(l.history, w.all + [e]), all := w.all + [e],
         queue := if w.phase.New? then w.queue else w.queue + [e], overflowed := false)
    ensures !w.phase.New? && l.queue > 0 ==> |w.queue| < l.queue
  {
    RetainedStep(l.history, w.all, e);
    hide Retained;
  }

  lemma {:induction false} PublishKeepsLatest(l: Limits, w: World, e: Event)
    requires Latest(l, w) && w.history == Retained(l.history, w.all) && HistoryCoversQueue(l)
    requires Enabled(w, Publish(e)) && !Do(l, w, Publish(e)).overflowed
    ensures Latest(l, Do(l, w, Publish(e)))
  {
    PublishAdds(l, w, e);
    hide Do, Enabled, Retained, Suffix;
    RetainedSize(l.history, w.all, e);
    SuffixSnoc(w.queue, w.all, e);
    SuffixStart([], w.all + [e]);
  }

  /** The history keeps the newest events, as many as its limit allows. */
  lemma {:induction false} HistoryKeepsNewest(limit: nat, events: seq<Event>)
    ensures Suffix(Retained(limit, events), events)
    ensures |Retained(limit, events)| == if limit == 0 || |events| <= limit then |events| else limit
  {
  }

  /** A queue that is offered an event holds it last, and before it the newest ones it can. */
  lemma {:induction false} QueueKeepsNewest(size: nat, queue: seq<Event>, e: Event)
    requires size == 0 || |queue| <= size
    ensures Suffix(Offered(size, queue, e), queue + [e])
    ensures |Offered(size, queue, e)| == if size == 0 || |queue| < size then |queue| + 1 else size
  {
  }

  ghost predicate HoldsNewest(l: Limits, w: World) {
    Suffix(w.queue, w.all) && (l.queue > 0 ==> |w.queue| <= l.queue) && (w.phase.New? ==> w.queue == [])
  }

  lemma {:induction false} SuffixTrans(a: seq<Event>, b: seq<Event>, c: seq<Event>)
    requires Suffix(a, b) && Suffix(b, c)
    ensures Suffix(a, c)
  {
  }

  lemma {:induction false} StepHoldsNewest(l: Limits, w: World, s: Step)
    requires HoldsNewest(l, w) && Enabled(w, s)
    ensures HoldsNewest(l, Do(l, w, s))
  {
    hide Suffix, After, Retained, Offered;
    match s
    case Publish(e) =>
      SuffixSnoc(w.queue, w.all, e);
      QueueKeepsNewest(l.queue, w.queue, e);
      SuffixTrans(Offered(l.queue, w.queue, e), w.queue + [e], w.all + [e]);
      SuffixStart([], w.all + [e]);
    case Get => SuffixTail(w.queue, w.all);
    case _ =>
  }

  /** Also when it overflows, a subscriber's queue holds the newest events published, in order, and no more
      than its size. */
  lemma {:induction false} QueueHoldsNewest(l: Limits, w: World, steps: seq<Step>)
    requires Possible(l, w, steps) && HoldsNewest(l, w)
    ensures HoldsNewest(l, Run(l, w, steps))
    decreases |steps|
  {
    if steps != [] {
      hide HoldsNewest, Do, Enabled;
      StepHoldsNewest(l, w, steps[0]);
      QueueHoldsNewest(l, Do(l, w, steps[0]), steps[1..]);
    }
  }

  lemma {:induction false} PublishSettles(
    tail: seq<Event>, cursor: nat, emitted: seq<Event>, rest: seq<Event>, queued: nat, after: nat, e: Event)
    requires Settled(tail, cursor, emitted, rest, queued, after)
    requires cursor == after || e.sequence > cursor > after
    ensures Settled(tail + [e], cursor, emitted, rest, queued + 1, after)
  {
    AfterSnoc(tail, e, cursor);
    AfterSnoc(tail, e, after);
    hide After;
  }

  /** The cursor is where it began or at an event already seen, so a new event is past it. */
  lemma {:induction false} NewEventIsPast(l: Limits, w: World, e: Event, after: nat)
    requires Ordered(l, w, after) && Enabled(w, Publish(e)) && w.cursor != after
    ensures e.sequence > w.cursor > after
  {
    var last := w.emitted[|w.emitted| - 1];
    assert last in w.all;
    var i :| 0 <= i < |w.all| && w.all[i] == last;
  }

  /** An event past the cursor joins what is accounted for, wherever the subscriber is. */
  lemma {:induction false} AddAccounts(w: World, e: Event, after: nat, history: seq<Event>, queue: seq<Event>)
    requires Accounted(w, after) && |history| <= |w.history| + 1
    requires w.phase.New? || queue == w.queue + [e]
    requires w.cursor == after || e.sequence > w.cursor > after
    ensures Accounted(w.(history := history, all := w.all + [e], queue := queue, overflowed := false), after)
  {
    hide Settled;
    if !w.phase.New? && !w.phase.Registered? {
      assert (w.all + [e])[w.start..] == w.all[w.start..] + [e];
      PublishSettles(w.all[w.start..], w.cursor, w.emitted, Rest(w), |w.queue|, after, e);
    }
  }

  lemma {:induction false} PublishKeepsAccounted(l: Limits, w: World, e: Event, after: nat)
    requires Ordered(l, w, after) && Accounted(w, after)
    requires Enabled(w, Publish(e)) && !Do(l, w, Publish(e)).overflowed
    ensures Accounted(Do(l, w, Publish(e)), after)
  {
    PublishAdds(l, w, e);
    RetainedSize(l.history, w.all, e);
    if w.cursor != after {
      NewEventIsPast(l, w, e, after);
    }
    var history := Retained(l.history, w.all + [e]);
    assert |history| <= |w.history| + 1;
    hide *;
    AddAccounts(w, e, after, history, if w.phase.New? then w.queue else w.queue + [e]);
  }

  lemma {:induction false} SnapshotSettles(
    tail: seq<Event>, cursor: nat, emitted: seq<Event>, queued: nat, after: nat, history: seq<Event>)
    requires Settled(tail, cursor, emitted, [], queued, after)
    requires Increasing(tail) && Suffix(history, tail) && queued <= |history|
    ensures Settled(tail, cursor, emitted, After(history, cursor), queued, after)
  {
    AfterOfSuffix(tail, |tail| - |history|, cursor);
    hide After;
  }

  lemma {:induction false} FirstSnapshotSettles(history: seq<Event>, after: nat, queued: nat)
    ensures Settled(history, after, [], After(history, after), queued, after)
  {
  }

  lemma {:induction false} SuffixOfRest(part: seq<Event>, all: seq<Event>, start: nat)
    requires Suffix(part, all) && start + |part| <= |all|
    ensures Suffix(part, all[start..])
  {
  }

  lemma {:induction false} DropIncreases(events: seq<Event>, start: nat)
    requires Increasing(events) && start <= |events|
    ensures Increasing(events[start..])
  {
  }

  lemma {:induction false} CatchUpAccounts(w: World, after: nat)
    requires Accounted(w, after) && w.phase.TimedOut? && Increasing(w.all)
    requires Suffix(w.history, w.all) && |w.queue| <= |w.history|
    ensures Accounted(w.(phase := Batch(After(w.history, w.cursor))), after)
  {
    hide After, Settled, Increasing, Suffix;
    SuffixOfRest(w.history, w.all, w.start);
    DropIncreases(w.all, w.start);
    SnapshotSettles(w.all[w.start..], w.cursor, w.emitted, |w.queue|, after, w.history);
  }

  lemma {:induction false} FirstSnapshotAccounts(w: World, after: nat, start: nat)
    requires Accounted(w, after) && w.phase.Registered?
    requires start + |w.history| == |w.all| && w.all[start..] == w.history
    ensures Accounted(w.(phase := Batch(After(w.history, w.cursor)), start := start), after)
  {
    hide After, Settled;
    FirstSnapshotSettles(w.history, after, |w.queue|);
  }

  lemma {:induction false} SnapshotReads(l: Limits, w: World)
    requires w.history == Retained(l.history, w.all) && Enabled(w, Snapshot)
    ensures w.phase.TimedOut? ==> Do(l, w, Snapshot) == w.(phase := Batch(After(w.history, w.cursor)))
    ensures w.phase.Registered? ==> |w.history| <= |w.all|
    ensures w.phase.Registered? ==>
              Do(l, w, Snapshot) ==
                w.(phase := Batch(After(w.history, w.cursor)), start := |w.all| - |w.history|)
  {
    hide After, Retained;
  }

  lemma {:induction false} LaterSnapshotAccounts(l: Limits, w: World, after: nat)
    requires w.history == Retained(l.history, w.all) && Increasing(w.all)
    requires |w.queue| <= |w.history| && Accounted(w, after) && w.phase.TimedOut?
    ensures Accounted(Do(l, w, Snapshot), after)
  {
    hide Accounted, After, Retained, Suffix, Increasing, Do;
    RetainedSize(l.history, w.all, Event(0, "", ""));
    CatchUpAccounts(w, after);
    SnapshotReads(l, w);
  }

  lemma {:induction false} RegisteredSnapshotAccounts(l: Limits, w: World, after: nat)
    requires w.history == Retained(l.history, w.all)
    requires Accounted(w, after) && w.phase.Registered?
    ensures Accounted(Do(l, w, Snapshot), after)
  {
    hide Accounted, After, Retained, Suffix, Increasing, Do;
    RetainedSize(l.history, w.all, Event(0, "", ""));
    SuffixStart(w.history, w.all);
    FirstSnapshotAccounts(w, after, |w.all| - |w.history|);
    SnapshotReads(l, w);
  }

  lemma {:induction false} SnapshotKeepsExact(l: Limits, w: World, after: nat)
    requires Ordered(l, w, after) && Exact(l, w, after) && Enabled(w, Snapshot)
    ensures Exact(l, Do(l, w, Snapshot), after)
  {
    if w.phase.TimedOut? {
      LaterSnapshotAccounts(l, w, after);
    } else {
      RegisteredSnapshotAccounts(l, w, after);
    }
    hide After, Retained, Increasing, Suffix, Accounted, Past, UpTo, From;
  }

  lemma {:induction false} NextSettles(
    tail: seq<Event>, cursor: nat, emitted: seq<Event>, rest: seq<Event>, queued: nat, after: nat)
    requires Settled(tail, cursor, emitted, rest, queued, after) && Increasing(tail) && rest != []
    ensures Settled(tail, rest[0].sequence, emitted + [rest[0]], rest[1..], queued, after)
  {
    AfterFirst(tail, cursor);
    hide After;
    var owed := After(tail, cursor);
    assert owed == [rest[0]] + owed[1..];
    assert emitted + owed == (emitted + [rest[0]]) + owed[1..];
  }

  lemma {:induction false} NextKeepsExact(l: Limits, w: World, after: nat)
    requires Ordered(l, w, after) && Exact(l, w, after) && Enabled(w, Next)
    ensures Exact(l, Do(l, w, Next), after)
  {
    hide Settled, Retained, Suffix;
    if Rest(w) != [] {
      assert Rest(w)[0] in Rest(w);
      DropIncreases(w.all, w.start);
      NextSettles(w.all[w.start..], w.cursor, w.emitted, Rest(w), |w.queue|, after);
    }
  }

  /** The head of the queue is the next owed event, or nothing owed is lost by skipping it. */
  lemma {:induction false} HeadOfQueue(tail: seq<Event>, queue: seq<Event>, cursor: nat)
    requires Increasing(tail) && queue != [] && Suffix(queue, tail)
    requires |After(tail, cursor)| <= |queue|
    ensures queue[0].sequence > cursor ==> After(tail, cursor) == queue
    ensures queue[0].sequence <= cursor ==> |After(tail, cursor)| < |queue|
  {
    AfterIsSuffix(tail, cursor);
    hide After;
    assert tail[|tail| - |queue|] == queue[0];
  }

  lemma {:induction false} GetSettles(
    tail: seq<Event>, cursor: nat, emitted: seq<Event>, queue: seq<Event>, after: nat)
    requires Settled(tail, cursor, emitted, [], |queue|, after)
    requires Increasing(tail) && queue != [] && Suffix(queue, tail)
    ensures if queue[0].sequence > cursor
            then Settled(tail, queue[0].sequence, emitted + [queue[0]], [], |queue| - 1, after)
            else Settled(tail, cursor, emitted, [], |queue| - 1, after)
  {
    HeadOfQueue(tail, queue, cursor);
    if queue[0].sequence > cursor {
      AfterFirst(tail, cursor);
      hide After;
      var owed := After(tail, cursor);
      assert emitted + owed == (emitted + [queue[0]]) + owed[1..];
    } else {
      hide After;
    }
  }

  lemma {:induction false} GetKeepsExact(l: Limits, w: World, after: nat)
    requires Ordered(l, w, after) && Exact(l, w, after) && Enabled(w, Get)
    ensures Exact(l, Do(l, w, Get), after)
  {
    SuffixTail(w.queue, w.all);
    SuffixOfRest(w.queue, w.all, w.start);
    DropIncreases(w.all, w.start);
    GetSettles(w.all[w.start..], w.cursor, w.emitted, w.queue, after);
    hide Settled, Retained, Suffix, Increasing;
  }

  lemma {:induction false} StepKeepsExact(l: Limits, w: World, s: Step, after: nat)
    requires Ordered(l, w, after) && Exact(l, w, after) && HistoryCoversQueue(l)
    requires Enabled(w, s) && !Do(l, w, s).overflowed
    ensures Exact(l, Do(l, w, s), after)
  {
    hide Settled, Retained, Suffix, Increasing;
    match s
    case Publish(e) =>
      PublishKeepsLatest(l, w, e);
      PublishKeepsAccounted(l, w, e, after);
    case Snapshot => SnapshotKeepsExact(l, w, after);
    case Next => NextKeepsExact(l, w, after);
    case Get => GetKeepsExact(l, w, after);
    case Register =>
    case Timeout =>
  }

  lemma {:induction false} RunKeeps(l: Limits, w: World, steps: seq<Step>, after: nat)
    requires Possible(l, w, steps) && Ordered(l, w, after)
    ensures Ordered(l, Run(l, w, steps), after)
    ensures w.overflowed ==> Run(l, w, steps).overflowed
    ensures !Run(l, w, steps).overflowed && HistoryCoversQueue(l) && Exact(l, w, after) ==>
              Exact(l, Run(l, w, steps), after)
    decreases |steps|
  {
    if steps != [] {
      var next := Do(l, w, steps[0]);
      StepKeepsOrdered(l, w, steps[0], after);
      RunKeeps(l, next, steps[1..], after);
      if !next.overflowed && HistoryCoversQueue(l) && Exact(l, w, after) {
        StepKeepsExact(l, w, steps[0], after);
      }
    }
  }

  /** Under every interleaving the subscriber sees published events only, past its cursor, in
      strictly increasing order: no event twice. */
  lemma {:induction false} SubscriberSeesIncreasing(l: Limits, steps: seq<Step>, after: nat)
    requires Possible(l, Start(after), steps)
    ensures var w := Run(l, Start(after), steps);
      && (forall i, j :: 0 <= i < j < |w.emitted| ==> w.emitted[i].sequence < w.emitted[j].sequence)
      && (forall e <- w.emitted :: e.sequence > after && e in w.all)
  {
    RunKeeps(l, Start(after), steps, after);
  }

  predicate Idle(w: World) {
    w.queue == [] && (w.phase.Live? || w.phase.TimedOut? || w.phase == Batch([]))
  }

  /** Without an overflow, what the subscriber saw and what is still past its cursor are all the
      events past `after` that were retained at its snapshot or came later, in order; when it is
      idle it has seen them all. */
  ghost predicate NothingMissed(w: World, after: nat) {
    !w.overflowed && !w.phase.New? && !w.phase.Registered? ==>
      && w.start <= |w.all|
      && w.emitted + After(w.all[w.start..], w.cursor) == After(w.all[w.start..], after)
      && (Idle(w) ==> w.emitted == After(w.all[w.start..], after))
  }

  lemma {:induction false} SubscriberMissesNothing(l: Limits, steps: seq<Step>, after: nat)
    requires Possible(l, Start(after), steps) && HistoryCoversQueue(l)
    ensures NothingMissed(Run(l, Start(after), steps), after)
  {
    var w0 := Start(after);
    assert Exact(l, w0, after);
    RunKeeps(l, w0, steps, after);
    var w := Run(l, w0, steps);
    hide Run, Possible, After, Suffix, Ordered;
    if Idle(w) && Accounted(w, after) && w.start <= |w.all| && !w.phase.Registered? && !w.phase.New? {
      assert Rest(w) == [];
    }
  }

  // ---------------------------------------------------------------- a history shorter than the queue

  /** Events numbered 1 to n. */
  function Numbered(n: nat): seq<Event> {
    seq(n, (i: nat) => Event(i + 1, "", ""))
  }

  function Publishes(from: nat, n: nat): (steps: seq<Step>)
    decreases n
  {
    if n == 0 then [] else [Publish(Event(from + 1, "", ""))] + Publishes(from + 1, n - 1)
  }

  lemma {:induction false} RunAppends(l: Limits, w: World, a: seq<Step>, b: seq<Step>)
    requires Possible(l, w, a) && Possible(l, Run(l, w, a), b)
    ensures Possible(l, w, a + b) && Run(l, w, a + b) == Run(l, Run(l, w, a), b)
    decreases |a|
  {
    if a == [] {
      assert a + b == b;
    } else {
      assert (a + b)[1..] == a[1..] + b;
      RunAppends(l, Do(l, w, a[0]), a[1..], b);
    }
  }

  /** A timed-out subscriber's world in which `n` events are waiting. */
  function Waiting(l: Limits, n: nat): World {
    World(Retained(l.history, Numbered(n)), Numbered(n), 0, TimedOut, [], Numbered(n), 0, false)
  }

  lemma {:induction false} OneMoreWaits(l: Limits, n: nat)
    requires l.queue == 0 || n < l.queue
    ensures Enabled(Waiting(l, n), Publish(Event(n + 1, "", "")))
    ensures Do(l, Waiting(l, n), Publish(Event(n + 1, "", ""))) == Waiting(l, n + 1)
  {
    assert Numbered(n) + [Event(n + 1, "", "")] == Numbered(n + 1);
    RetainedStep(l.history, Numbered(n), Event(n + 1, "", ""));
    hide Retained;
  }

  lemma {:induction false} BurstWaits(l: Limits, from: nat, n: nat)
    requires l.queue == 0 || from + n <= l.queue
    ensures Possible(l, Waiting(l, from), Publishes(from, n))
    ensures Run(l, Waiting(l, from), Publishes(from, n)) == Waiting(l, from + n)
    decreases n
  {
    hide Waiting, Do, Enabled;
    if n > 0 {
      OneMoreWaits(l, from);
      BurstWaits(l, from + 1, n - 1);
      hide Possible, Run;
      RunOne(l, Waiting(l, from), Publish(Event(from + 1, "", "")), Publishes(from + 1, n - 1));
    }
  }

  /** A subscriber that times out, then a burst longer than the history but not than the queue. */
  function LateSnapshot(l: Limits): seq<Step> {
    [Register, Snapshot, Next, Timeout] + Publishes(0, l.history + 1) + [Snapshot, Next]
  }

  lemma {:induction false} QuietStart(l: Limits)
    ensures var steps := [Register, Snapshot, Next, Timeout];
      Possible(l, Start(0), steps) && Run(l, Start(0), steps) == Waiting(l, 0)
  {
    var w1 := Do(l, Start(0), Register);
    var w2 := Do(l, w1, Snapshot);
    assert w2.phase == Batch([]);
    var w3 := Do(l, w2, Next);
    var w4 := Do(l, w3, Timeout);
    assert w4 == Waiting(l, 0);
    RunOne(l, w3, Timeout, []);
    RunOne(l, w2, Next, [Timeout]);
    RunOne(l, w1, Snapshot, [Next, Timeout]);
    RunOne(l, Start(0), Register, [Snapshot, Next, Timeout]);
  }

  lemma {:induction false} RunOne(l: Limits, w: World, s: Step, rest: seq<Step>)
    requires Enabled(w, s) && Possible(l, Do(l, w, s), rest)
    ensures Possible(l, w, [s] + rest) && Run(l, w, [s] + rest) == Run(l, Do(l, w, s), rest)
  {
    assert ([s] + rest)[1..] == rest;
  }

  /** The first event has left the history by then, and the cursor passes it. */
  function Skipped(l: Limits): World
    requires l.history > 0
  {
    var w := Waiting(l, l.history + 1);
    w.(phase := Batch(w.all[1..][1..]), cursor := 2, emitted := [w.all[1]])
  }

  lemma {:induction false} BurstLeavesHistory(l: Limits)
    requires l.history > 0
    ensures var w := Waiting(l, l.history + 1);
      && w.history == w.all[1..] && After(w.history, 0) == w.all[1..]
      && After(w.all, 0) == w.all && w.all[0].sequence == 1 && w.all[1].sequence == 2
  {
    var w := Waiting(l, l.history + 1);
    AllAfter(w.all[1..], 0);
    AllAfter(w.all, 0);
  }

  lemma {:induction false} BurstIsSkipped(l: Limits)
    requires l.history > 0
    ensures var w := Waiting(l, l.history + 1);
      && Enabled(w, Snapshot)
      && var w1 := Do(l, w, Snapshot); Enabled(w1, Next) && Do(l, w1, Next) == Skipped(l)
  {
    BurstLeavesHistory(l);
    hide After, Retained, Numbered;
  }

  lemma {:induction false} SkippedIsReached(l: Limits)
    requires l.history > 0
    ensures var w := Waiting(l, l.history + 1);
      Possible(l, w, [Snapshot, Next]) && Run(l, w, [Snapshot, Next]) == Skipped(l)
  {
    hide Waiting, Skipped, Do, Enabled;
    BurstIsSkipped(l);
    var w := Waiting(l, l.history + 1);
    var w1 := Do(l, w, Snapshot);
    RunOne(l, w1, Next, []);
    RunOne(l, w, Snapshot, [Next]);
    assert [Snapshot] + [Next] == [Snapshot, Next];
    assert [Next] + [] == [Next];
  }

  lemma {:induction false} SkippedMisses(l: Limits)
    requires l.history > 0
    ensures !Skipped(l).overflowed && !NothingMissed(Skipped(l), 0)
  {
    BurstLeavesHistory(l);
    hide After, Retained, Numbered;
    var w := Skipped(l);
    assert w.all[w.start..] == w.all;
    assert (w.emitted + After(w.all, 2))[0] == w.all[1];
  }

  /** Not overflowing is enough to miss nothing exactly when the history is at least as long as
      the queue. */
  lemma {:induction false} NothingMissedIffHistoryCovers(l: Limits)
    ensures HistoryCoversQueue(l) <==>
              forall steps, after: nat | Possible(l, Start(after), steps) ::
                NothingMissed(Run(l, Start(after), steps), after)
  {
    if HistoryCoversQueue(l) {
      forall steps, after: nat | Possible(l, Start(after), steps)
        ensures NothingMissed(Run(l, Start(after), steps), after)
      {
        SubscriberMissesNothing(l, steps, after);
      }
    } else {
      var quiet, burst := [Register, Snapshot, Next, Timeout], Publishes(0, l.history + 1);
      QuietStart(l);
      BurstWaits(l, 0, l.history + 1);
      SkippedIsReached(l);
      SkippedMisses(l);
      hide Waiting, NothingMissed, Run, Possible, Skipped, Publishes;
      RunAppends(l, Start(0), quiet, burst);
      RunAppends(l, Start(0), quiet + burst, [Snapshot, Next]);
      assert !NothingMissed(Run(l, Start(0), LateSnapshot(l)), 0);
    }
  }
}
