/** Bounded delivery of a Run's events to its subscribers (roboagent/runtime/event.py:122-235). */
module EventDelivery {
  import opened Basics

  datatype Event = Event(sequence: nat, kind: string)

  predicate IsTerminal(event: Event) {
    event.kind in ["run.completed", "run.failed", "run.cancelled"]
  }

  datatype Item = Note(event: Event) | End

  /** A subscriber's queue; it holds at most `limit` events, and one more place for the end mark. */
  datatype Queue = Queue(items: seq<Item>, limit: nat, registered: bool)

  /** The history of one subscription: the first event meant for it, what its reader has taken, how many events
      were dropped, which are still held, whether the end mark was taken, whether it is still open. */
  datatype Ledger = Ledger(start: nat, delivered: seq<Event>, dropped: nat, held: seq<Event>, ended: bool, open: bool)

  function Notes(events: seq<Event>): (items: seq<Item>)
    ensures |items| == |events| && forall i | 0 <= i < |events| :: items[i] == Note(events[i])
  {
    if events == [] then [] else [Note(events[0])] + Notes(events[1..])
  }

  lemma {:induction false} NotesConcat(a: seq<Event>, b: seq<Event>)
    ensures Notes(a + b) == Notes(a) + Notes(b)
  {
  }

  predicate Increasing(events: seq<Event>) {
    forall i, j | 0 <= i < j < |events| :: events[i].sequence < events[j].sequence
  }

  /** The first event that is not terminal, else the first. */
  function Oldest(items: seq<Item>): (index: nat)
    ensures items != [] ==> index < |items|
  {
    if exists i | 0 <= i < |items| :: items[i].Note? && !IsTerminal(items[i].event)
    then FirstOrdinary(items) else 0
  }

  function FirstOrdinary(items: seq<Item>): (index: nat)
    requires exists i | 0 <= i < |items| :: items[i].Note? && !IsTerminal(items[i].event)
    ensures index < |items| && items[index].Note? && !IsTerminal(items[index].event)
    ensures forall i | 0 <= i < index :: !(items[i].Note? && !IsTerminal(items[i].event))
  {
    if items[0].Note? && !IsTerminal(items[0].event) then 0 else 1 + FirstOrdinary(items[1..])
  }

  /** The number source the events of one execution tree share. */
  class Sequences {
    var next: nat

    constructor ()
    {
      next := 0;
    }

    method Next() returns (sequence: nat)
      modifies this
      ensures sequence == old(next) && next == old(next) + 1
    {
      sequence := next;
      next := next + 1;
    }
  }

  // ---- One queue.

  /** The latest events. */
  predicate IsLatest(held: seq<Event>, emitted: seq<Event>) {
    && |held| <= |emitted|
    && forall k | 0 <= k < |held| :: held[k] == emitted[|emitted| - |held| + k]
  }

  ghost predicate Occurs(event: Event, emitted: seq<Event>, from: int, to: int) {
    exists i :: from <= i < to && 0 <= i < |emitted| && emitted[i] == event
  }

  /** What the reader took comes, in order, before what is queued. */
  ghost predicate TakenBefore(delivered: seq<Event>, emitted: seq<Event>, start: int, block: int) {
    && Increasing(delivered)
    && forall k | 0 <= k < |delivered| :: Occurs(delivered[k], emitted, start, block)
  }

  function EndMark(present: bool): seq<Item> {
    if present then [End] else []
  }

  /** An open queue is the latest block of the events meant for it, never longer than allowed; delivered, queued
      and dropped add up to all of them. Once the Run has finished, the end mark comes after the terminal event,
      and neither is ever dropped. */
  ghost predicate SubscriptionOk(queue: Queue, ledger: Ledger, emitted: seq<Event>, finished: bool) {
    && queue.limit >= 1 && (!finished ==> (queue.registered <==> ledger.open))
    && (ledger.open ==>
          && ledger.start + |ledger.delivered| + ledger.dropped + |ledger.held| == |emitted|
          && |ledger.held| <= queue.limit && IsLatest(ledger.held, emitted)
          && queue.items == Notes(ledger.held) + EndMark(finished && !ledger.ended)
          && (!finished ==> !ledger.ended) && (ledger.ended ==> ledger.held == [])
          && TakenBefore(ledger.delivered, emitted, ledger.start, |emitted| - |ledger.held|)
          && (finished ==> ledger.held != [] || LastDelivered(ledger, emitted)))
  }

  predicate LastDelivered(ledger: Ledger, emitted: seq<Event>) {
    emitted != [] && ledger.delivered != [] && ledger.delivered[|ledger.delivered| - 1] == emitted[|emitted| - 1]
  }

  predicate NoneTerminal(events: seq<Event>) {
    forall i | 0 <= i < |events| :: !IsTerminal(events[i])
  }

  /** What a queue holds after one more event. */
  function Pushed(held: seq<Event>, event: Event, limit: nat): seq<Event> {
    (if |held| < limit || held == [] then held else held[1..]) + [event]
  }

  /** Puts an event into a queue, first dropping the oldest ordinary events until there is room. */
  method Enqueue(queue: Queue, ghost held: seq<Event>, event: Event) returns (after: Queue, dropped: nat)
    requires queue.limit >= 1 && queue.items == Notes(held) && |held| <= queue.limit && NoneTerminal(held)
    ensures after == queue.(items := Notes(Pushed(held, event, queue.limit)))
    ensures dropped == (if |held| == queue.limit then 1 else 0)
  {
    var items := queue.items;
    dropped := 0;
    ghost var left := held;
    while |items| >= queue.limit
      invariant items == Notes(left) && |left| + dropped == |held| && NoneTerminal(left)
      invariant if dropped == 0 then left == held else dropped == 1 && |held| == queue.limit && left == held[1..]
      decreases |items|
    {
      var index := Oldest(items);
      OldestIsFirst(left);
      DropFirst(left);
      items := items[..index] + items[index + 1..];
      left := left[1..];
      dropped := dropped + 1;
    }
    NotesConcat(left, [event]);
    assert Notes([event]) == [Note(event)];
    after := queue.(items := items + [Note(event)]);
  }

  lemma OldestIsFirst(held: seq<Event>)
    requires held != [] && NoneTerminal(held)
    ensures Oldest(Notes(held)) == 0
  {
    assert Notes(held)[0] == Note(held[0]);
  }

  lemma DropFirst(held: seq<Event>)
    requires held != []
    ensures Notes(held)[..0] + Notes(held)[1..] == Notes(held[1..])
  {
  }

  lemma PushedIsLatest(held: seq<Event>, emitted: seq<Event>, event: Event, limit: nat)
    requires IsLatest(held, emitted) && limit >= 1 && |held| <= limit
    ensures IsLatest(Pushed(held, event, limit), emitted + [event]) && |Pushed(held, event, limit)| <= limit
    ensures |Pushed(held, event, limit)| == |held| + 1 - (if |held| == limit then 1 else 0)
  {
  }

  lemma TakenStay(delivered: seq<Event>, emitted: seq<Event>, event: Event, start: int, block: int, after: int)
    requires TakenBefore(delivered, emitted, start, block) && block <= after
    ensures TakenBefore(delivered, emitted + [event], start, after)
  {
    forall k | 0 <= k < |delivered| ensures Occurs(delivered[k], emitted + [event], start, after) {
      assert Occurs(delivered[k], emitted, start, block);
      var i :| start <= i < block && 0 <= i < |emitted| && emitted[i] == delivered[k];
      assert (emitted + [event])[i] == delivered[k];
    }
  }

  function AfterPush(ledger: Ledger, event: Event, limit: nat): Ledger {
    ledger.(held := Pushed(ledger.held, event, limit),
            dropped := ledger.dropped + if |ledger.held| == limit then 1 else 0)
  }

  /** The event reaches a subscriber. */
  lemma EnqueuedOk(queue: Queue, ledger: Ledger, emitted: seq<Event>, event: Event)
    requires SubscriptionOk(queue, ledger, emitted, false) && ledger.open
    ensures var later := AfterPush(ledger, event, queue.limit);
      SubscriptionOk(queue.(items := Notes(later.held)), later, emitted + [event], false)
  {
    var later := AfterPush(ledger, event, queue.limit);
    PushedIsLatest(ledger.held, emitted, event, queue.limit);
    TakenStay(ledger.delivered, emitted, event, ledger.start, |emitted| - |ledger.held|,
              |emitted| + 1 - |later.held|);
    assert Notes(later.held) + [] == Notes(later.held);
  }

  /** The end mark goes after everything else, into the place kept free for it. */
  lemma EndedOk(queue: Queue, ledger: Ledger, emitted: seq<Event>)
    requires SubscriptionOk(queue, ledger, emitted, false) && (ledger.open ==> ledger.held != [])
    ensures SubscriptionOk(if queue.registered then WithEnd(queue) else queue, ledger, emitted, true)
  {
    assert Notes(ledger.held) + [] == Notes(ledger.held);
  }

  /** The place kept for the end mark is always free, so nothing is pushed out for it. */
  function WithEnd(queue: Queue): Queue {
    if |queue.items| == queue.limit + 1 then queue.(items := queue.items[1..] + [End])
    else queue.(items := queue.items + [End])
  }

  function TotalDropped(ledgers: seq<Ledger>): nat {
    if ledgers == [] then 0 else TotalDropped(ledgers[..|ledgers| - 1]) + ledgers[|ledgers| - 1].dropped
  }

  lemma {:induction false} TotalMoves(ledgers: seq<Ledger>, i: nat, ledger: Ledger)
    requires i < |ledgers|
    ensures TotalDropped(ledgers[i := ledger]) == TotalDropped(ledgers) - ledgers[i].dropped + ledger.dropped
  {
    var last := |ledgers| - 1;
    if i < last {
      TotalMoves(ledgers[..last], i, ledger);
      assert ledgers[i := ledger][..last] == ledgers[..last][i := ledger];
    } else {
      assert ledgers[i := ledger][..last] == ledgers[..last];
    }
  }

  datatype EmitError = RunIsOver | InvalidEvent

  class Emitter {
    const replayLimit: nat
    const sequences: Sequences
    var history: seq<Event>
    var queues: seq<Queue>
    var terminal: bool
    var droppedEvents: nat
    ghost var emitted: seq<Event>
    ghost var ledgers: seq<Ledger>

    /** Event numbers strictly increase, also when others use the same number source; the Run's terminal event is
        its last; the history is the latest events, as many as allowed. */
    ghost predicate Shape()
      reads this`history, this`terminal, this`emitted, sequences
    {
      && replayLimit >= 1 && Increasing(emitted)
      && (forall i | 0 <= i < |emitted| :: emitted[i].sequence < sequences.next)
      && IsLatest(history, emitted) && (|history| == replayLimit || |history| == |emitted| < replayLimit)
      && (forall i | 0 <= i < |emitted| :: IsTerminal(emitted[i]) <==> terminal && i == |emitted| - 1)
      && (terminal ==> emitted != [])
    }

    ghost predicate Subscriptions(finished: bool)
      reads this`queues, this`ledgers, this`droppedEvents, this`emitted
    {
      && |queues| == |ledgers| && droppedEvents == TotalDropped(ledgers)
      && forall i | 0 <= i < |queues| :: SubscriptionOk(queues[i], ledgers[i], emitted, finished)
    }

    ghost predicate Valid()
      reads this, sequences
    {
      Shape() && Subscriptions(terminal)
    }

    constructor (replayLimit: nat, sequences: Sequences)
      requires replayLimit >= 1
      ensures Valid() && this.replayLimit == replayLimit && this.sequences == sequences
      ensures emitted == [] && queues == [] && !terminal && droppedEvents == 0
    {
      this.replayLimit, this.sequences := replayLimit, sequences;
      history, queues, terminal, droppedEvents := [], [], false, 0;
      emitted, ledgers := [], [];
    }

    /** Keeps the newest events: an older ordinary one makes room. */
    method Retain(event: Event)
      requires Shape() && !terminal
      modifies this`history
      ensures history == Pushed(old(history), event, replayLimit)
    {
      if |history| >= replayLimit {
        OldestIsFirst(history);
        var index := Oldest(Notes(history));
        history := history[..index] + history[index + 1..];
      }
      history := history + [event];
    }

    /** Emits one event: every open subscription gets it, and after the terminal event the end mark. */
    method Emit(kind: string) returns (r: Result<Event, EmitError>)
      requires Valid()
      modifies this, sequences
      ensures Valid()
      ensures r == Err(RunIsOver) <==> old(terminal)
      ensures r.Err? ==> emitted == old(emitted) && queues == old(queues)
      ensures r.Ok? ==>
        && r.value.kind == kind && emitted == old(emitted) + [r.value] && terminal == IsTerminal(r.value)
        && SamePlaces(old(ledgers), ledgers)
    {
      if terminal {
        return Err(RunIsOver);
      }
      var sequence := sequences.Next();
      if kind == "" {
        return Err(InvalidEvent);
      }
      var event := Event(sequence, kind);
      PushedIsLatest(history, emitted, event, replayLimit);
      Retain(event);
      Broadcast(event);
      if IsTerminal(event) {
        BroadcastEnd();
        terminal := true;
      }
      return Ok(event);
    }

    /** The event goes to every registered queue. */
    method Broadcast(event: Event)
      requires Subscriptions(false) && NoneTerminal(emitted)
      modifies this`queues, this`ledgers, this`droppedEvents, this`emitted
      ensures emitted == old(emitted) + [event] && SamePlaces(old(ledgers), ledgers) && Subscriptions(false)
      ensures forall i | 0 <= i < |ledgers| :: ledgers[i].open ==> ledgers[i].held != []
    {
      ghost var more := emitted + [event];
      for i := 0 to |queues|
        invariant |queues| == |ledgers| == |old(queues)| && SamePlaces(old(ledgers), ledgers)
        invariant emitted == old(emitted) && droppedEvents == TotalDropped(ledgers)
        invariant forall k | 0 <= k < i :: Reached(queues[k], ledgers[k], more)
        invariant forall k | i <= k < |queues| :: SubscriptionOk(queues[k], ledgers[k], emitted, false)
      {
        Deliver(i, event);
      }
      emitted := more;
      forall k | 0 <= k < |queues|
        ensures SubscriptionOk(queues[k], ledgers[k], more, false) && (ledgers[k].open ==> ledgers[k].held != [])
      {
        assert Reached(queues[k], ledgers[k], more);
      }
    }

    method Deliver(i: nat, event: Event)
      requires i < |queues| == |ledgers| && droppedEvents == TotalDropped(ledgers) && NoneTerminal(emitted)
      requires SubscriptionOk(queues[i], ledgers[i], emitted, false)
      modifies this`queues, this`ledgers, this`droppedEvents
      ensures |queues| == |ledgers| == |old(queues)| && droppedEvents == TotalDropped(ledgers)
      ensures queues == old(queues)[i := queues[i]] && ledgers == old(ledgers)[i := ledgers[i]]
      ensures SamePlace(old(ledgers)[i], ledgers[i]) && Reached(queues[i], ledgers[i], emitted + [event])
    {
      if queues[i].registered {
        ghost var ledger := ledgers[i];
        ghost var later := AfterPush(ledger, event, queues[i].limit);
        HeldOrdinary(queues[i], ledger, emitted);
        EnqueuedOk(queues[i], ledger, emitted, event);
        TotalMoves(ledgers, i, later);
        var after, dropped := Enqueue(queues[i], ledger.held, event);
        queues := queues[i := after];
        ledgers := ledgers[i := later];
        droppedEvents := droppedEvents + dropped;
      }
    }

    /** The end mark goes to every registered queue. */
    method BroadcastEnd()
      requires Subscriptions(false) && forall i | 0 <= i < |ledgers| :: ledgers[i].open ==> ledgers[i].held != []
      modifies this`queues
      ensures Subscriptions(true)
    {
      for i := 0 to |queues|
        invariant |queues| == |ledgers|
        invariant forall k | 0 <= k < i :: SubscriptionOk(queues[k], ledgers[k], emitted, true)
        invariant forall k | i <= k < |queues| :: SubscriptionOk(queues[k], ledgers[k], emitted, false)
      {
        EndedOk(queues[i], ledgers[i], emitted);
        if queues[i].registered {
          queues := queues[i := WithEnd(queues[i])];
        }
      }
    }

    /** Opens a subscription: it starts with the latest of the history, and if the Run is over it gets all there
        will ever be, end mark included. */
    method Subscribe(maxQueueSize: nat, replay: nat) returns (id: nat)
      requires Valid() && maxQueueSize >= 1 && replay >= 1
      modifies this`queues, this`ledgers, this`droppedEvents
      ensures Valid()
      ensures id == |old(queues)| && |queues| == id + 1 && queues[..id] == old(queues) && ledgers[..id] == old(ledgers)
      ensures ledgers[id].open && ledgers[id].delivered == [] && !ledgers[id].ended && queues[id].limit == maxQueueSize
      ensures ledgers[id].start == |emitted| - (if |history| <= replay then |history| else replay)
    {
      ghost var ledger;
      var queue, dropped;
      queue, dropped, ledger := Open(maxQueueSize, replay);
      id := |queues|;
      queues := queues + [queue];
      assert (ledgers + [ledger])[..|ledgers|] == ledgers;
      ledgers := ledgers + [ledger];
      droppedEvents := droppedEvents + dropped;
    }

    method Open(maxQueueSize: nat, replay: nat) returns (queue: Queue, dropped: nat, ghost ledger: Ledger)
      requires Shape() && maxQueueSize >= 1 && replay >= 1
      ensures SubscriptionOk(queue, ledger, emitted, terminal) && queue.limit == maxQueueSize
      ensures var replayed := if |history| <= replay then |history| else replay;
        ledger == Ledger(|emitted| - replayed, [], dropped, ledger.held, false, true)
    {
      var retained := Retained(history, replay);
      ghost var held := ReplayedHolds(history, emitted, replay, maxQueueSize);
      queue, dropped := Replay(retained, maxQueueSize);
      ledger := Ledger(|emitted| - |retained|, [], dropped, held, false, true);
      if terminal {
        queue := WithEnd(queue);
      } else {
        queue := queue.(registered := true);
      }
      OpenedOk(queue, ledger, emitted, terminal);
    }

    /** A reader takes the next item. */
    method Get(id: nat) returns (item: Item)
      requires Valid() && id < |queues| && ledgers[id].open && queues[id].items != []
      modifies this`queues, this`ledgers
      ensures Valid() && |queues| == |old(queues)|
      ensures old(queues)[id].items == [item] + queues[id].items
      ensures item.End? ==> terminal && !old(ledgers)[id].ended && ledgers[id].ended && queues[id].items == []
      ensures item.Note? ==> ledgers[id].delivered == old(ledgers)[id].delivered + [item.event]
    {
      item := queues[id].items[0];
      ghost var later := AfterTaking(ledgers[id], item);
      TakenOk(queues[id], ledgers[id], emitted, terminal);
      Put(id, queues[id].(items := queues[id].items[1..]), later);
    }

    /** One subscription moves on by itself. */
    method Put(id: nat, queue: Queue, ghost ledger: Ledger)
      requires Valid() && id < |queues| && SubscriptionOk(queue, ledger, emitted, terminal)
      requires ledger.dropped == ledgers[id].dropped
      modifies this`queues, this`ledgers
      ensures Valid() && queues == old(queues)[id := queue] && ledgers == old(ledgers)[id := ledger]
    {
      TotalMoves(ledgers, id, ledger);
      queues, ledgers := queues[id := queue], ledgers[id := ledger];
    }

    /** A closed subscription gets nothing any more. A registered one is emptied; the queue of one that subscribed
        after the end was never registered, and keeps what it holds. */
    method Close(id: nat)
      requires Valid() && id < |queues|
      modifies this`queues, this`ledgers
      ensures Valid() && |queues| == |old(queues)| && !ledgers[id].open && !queues[id].registered
      ensures queues == old(queues)[id := queues[id]] && ledgers == old(ledgers)[id := ledgers[id]]
      ensures queues[id].items == if old(queues)[id].registered then [] else old(queues)[id].items
    {
      var queue := queues[id];
      var emptied := if queue.registered then queue.(items := [], registered := false) else queue;
      Put(id, emptied, ledgers[id].(open := false));
    }
  }

  /** Emitting changes what a subscription holds and what it lost, nothing else about it. */
  predicate SamePlace(before: Ledger, after: Ledger) {
    after == before.(held := after.held, dropped := after.dropped)
  }

  predicate SamePlaces(before: seq<Ledger>, after: seq<Ledger>) {
    |after| == |before| && forall i | 0 <= i < |before| :: SamePlace(before[i], after[i])
  }

  ghost predicate Reached(queue: Queue, ledger: Ledger, emitted: seq<Event>) {
    SubscriptionOk(queue, ledger, emitted, false) && (ledger.open ==> ledger.held != [])
  }

  lemma HeldOrdinary(queue: Queue, ledger: Ledger, emitted: seq<Event>)
    requires SubscriptionOk(queue, ledger, emitted, false) && ledger.open && NoneTerminal(emitted)
    ensures queue.items == Notes(ledger.held) && NoneTerminal(ledger.held)
  {
    assert Notes(ledger.held) + [] == Notes(ledger.held);
  }

  /** Events one after the other into a fresh queue: the latest stay. */
  method Replay(retained: seq<Event>, limit: nat) returns (queue: Queue, dropped: nat)
    requires limit >= 1 && forall i | 0 <= i < |retained| - 1 :: !IsTerminal(retained[i])
    ensures dropped == |retained| - |Retained(retained, limit)|
    ensures queue == Queue(Notes(Retained(retained, limit)), limit, false)
  {
    queue, dropped := Queue([], limit, false), 0;
    ghost var held := Retained(retained[..0], limit);
    for i := 0 to |retained|
      invariant held == Retained(retained[..i], limit) && queue == Queue(Notes(held), limit, false)
      invariant dropped + |held| == i
    {
      PushedRetained(retained, i, limit);
      var more;
      queue, more := Enqueue(queue, held, retained[i]);
      held := Pushed(held, retained[i], limit);
      dropped := dropped + more;
    }
    assert retained[..|retained|] == retained;
  }

  lemma PushedRetained(retained: seq<Event>, i: nat, limit: nat)
    requires i < |retained| && limit >= 1 && forall k | 0 <= k < |retained| - 1 :: !IsTerminal(retained[k])
    ensures var held := Retained(retained[..i], limit);
      && NoneTerminal(held) && Pushed(held, retained[i], limit) == Retained(retained[..i + 1], limit)
      && |Pushed(held, retained[i], limit)| == |held| + 1 - (if |held| == limit then 1 else 0)
  {
    var held := Retained(retained[..i], limit);
    Ordinary(held, retained, i);
    assert retained[..i + 1] == retained[..i] + [retained[i]];
    PushedIsLatest(held, retained[..i], retained[i], limit);
    assert Pushed(held, retained[i], limit) == Retained(retained[..i + 1], limit);
  }

  lemma Ordinary(held: seq<Event>, retained: seq<Event>, i: nat)
    requires i < |retained| && IsLatest(held, retained[..i])
    requires forall k | 0 <= k < |retained| - 1 :: !IsTerminal(retained[k])
    ensures NoneTerminal(held)
  {
  }

  function Retained(history: seq<Event>, replay: nat): (retained: seq<Event>)
    ensures IsLatest(retained, history) && |retained| == if |history| <= replay then |history| else replay
  {
    if |history| <= replay then history else history[|history| - replay..]
  }

  lemma ReplayedHolds(history: seq<Event>, emitted: seq<Event>, replay: nat, limit: nat) returns (held: seq<Event>)
    requires IsLatest(history, emitted) && forall i | 0 <= i < |emitted| - 1 :: !IsTerminal(emitted[i])
    requires replay >= 1 && limit >= 1
    ensures held == Retained(Retained(history, replay), limit)
    ensures IsLatest(held, emitted) && |held| <= limit && (history != [] ==> held != [])
    ensures forall i | 0 <= i < |Retained(history, replay)| - 1 :: !IsTerminal(Retained(history, replay)[i])
  {
    var retained := Retained(history, replay);
    held := Retained(retained, limit);
    LatestOfLatest(retained, history, emitted);
    OnlyLastTerminal(retained, emitted);
    LatestOfLatest(held, retained, emitted);
  }

  lemma OnlyLastTerminal(retained: seq<Event>, emitted: seq<Event>)
    requires IsLatest(retained, emitted) && forall i | 0 <= i < |emitted| - 1 :: !IsTerminal(emitted[i])
    ensures forall i | 0 <= i < |retained| - 1 :: !IsTerminal(retained[i])
  {
  }

  /** The latest of the latest are the latest. */
  lemma LatestOfLatest(held: seq<Event>, retained: seq<Event>, emitted: seq<Event>)
    requires IsLatest(held, retained) && IsLatest(retained, emitted)
    ensures IsLatest(held, emitted)
  {
  }

  lemma OpenedOk(queue: Queue, ledger: Ledger, emitted: seq<Event>, finished: bool)
    requires ledger.open && !ledger.ended && ledger.delivered == []
    requires ledger.start + ledger.dropped + |ledger.held| == |emitted| && IsLatest(ledger.held, emitted)
    requires |ledger.held| <= queue.limit && queue.limit >= 1 && (finished ==> ledger.held != [])
    requires queue == var plain := Queue(Notes(ledger.held), queue.limit, false);
      if finished then WithEnd(plain) else plain.(registered := true)
    ensures SubscriptionOk(queue, ledger, emitted, finished)
  {
    assert Notes(ledger.held) + [] == Notes(ledger.held);
  }

  function AfterTaking(ledger: Ledger, item: Item): Ledger {
    match item
    case End => ledger.(ended := true)
    case Note(event) =>
      ledger.(delivered := ledger.delivered + [event], held := if ledger.held == [] then [] else ledger.held[1..])
  }

  /** Taking the head of a queue: an event counts as delivered, the end mark comes last of all. */
  lemma TakenOk(queue: Queue, ledger: Ledger, emitted: seq<Event>, finished: bool)
    requires SubscriptionOk(queue, ledger, emitted, finished) && ledger.open && queue.items != [] && Increasing(emitted)
    ensures SubscriptionOk(queue.(items := queue.items[1..]), AfterTaking(ledger, queue.items[0]), emitted, finished)
    ensures queue.items[0].End? ==> finished && !ledger.ended && queue.items[1..] == []
  {
    var held, mark := ledger.held, EndMark(finished && !ledger.ended);
    if held == [] {
      assert Notes(held) + mark == mark;
      assert mark == [End] && [End][1..] == [];
    } else {
      HeadOf(held, mark);
      TakenOne(ledger.delivered, emitted, ledger.start, |emitted| - |held|);
      TakenEvent(queue, ledger, emitted, finished);
    }
  }

  lemma TakenEvent(queue: Queue, ledger: Ledger, emitted: seq<Event>, finished: bool)
    requires SubscriptionOk(queue, ledger, emitted, finished) && ledger.open && ledger.held != []
    requires queue.items != [] && queue.items[0] == Note(ledger.held[0])
    requires queue.items[1..] == Notes(ledger.held[1..]) + EndMark(finished && !ledger.ended)
    requires TakenBefore(ledger.delivered + [ledger.held[0]], emitted, ledger.start, |emitted| - |ledger.held| + 1)
    ensures SubscriptionOk(queue.(items := queue.items[1..]), AfterTaking(ledger, queue.items[0]), emitted, finished)
  {
    var delivered, held := ledger.delivered + [ledger.held[0]], ledger.held[1..];
    assert AfterTaking(ledger, queue.items[0]) == ledger.(delivered := delivered, held := held);
    TailIsLatest(ledger.held, emitted);
  }

  lemma TailIsLatest(held: seq<Event>, emitted: seq<Event>)
    requires IsLatest(held, emitted) && held != []
    ensures IsLatest(held[1..], emitted) && (held[1..] == [] ==> held[0] == emitted[|emitted| - 1])
  {
  }

  lemma HeadOf(held: seq<Event>, mark: seq<Item>)
    requires held != []
    ensures (Notes(held) + mark)[0] == Note(held[0]) && (Notes(held) + mark)[1..] == Notes(held[1..]) + mark
  {
    DropFirst(held);
    assert [] + Notes(held)[1..] == Notes(held)[1..];
    TailOfConcat(Notes(held), mark);
  }

  lemma TakenOne(delivered: seq<Event>, emitted: seq<Event>, start: int, block: nat)
    requires TakenBefore(delivered, emitted, start, block) && start <= block < |emitted| && Increasing(emitted)
    ensures TakenBefore(delivered + [emitted[block]], emitted, start, block + 1)
  {
    var later := delivered + [emitted[block]];
    forall k | 0 <= k < |later|
      ensures Occurs(later[k], emitted, start, block + 1)
      ensures k < |delivered| ==> later[k].sequence < emitted[block].sequence
    {
      if k < |delivered| {
        assert Occurs(delivered[k], emitted, start, block);
        var i :| start <= i < block && 0 <= i < |emitted| && emitted[i] == delivered[k];
        assert emitted[i] == later[k];
      } else {
        assert emitted[block] == later[k];
      }
    }
  }
}
