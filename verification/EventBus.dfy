/**
 The bounded application event queue: per-stream sequence numbers, drop
 accounting and the tombstones left behind by an ended Temporary Chat.

 `Bus` is the value of one event bus.  The functions on `Bus` are its atomic
 actions; the class `EventBus` runs them in the order the runtime does, and
 module `BusRuns` interleaves them.
 */
module EventBuses {
  import opened Prelude

  const GAP_STREAM := "application:events"
  const MAX_DRAIN_BATCH := 256

  function ConversationStream(conversation: string): string { "conversation:" + conversation }

  function OperationStream(operation: string): string { "operation:" + operation }

  /** What an event carries: an opaque payload, or the gap report that `Drain` makes up itself. */
  datatype Body = Payload(id: nat) | Gap(lost: nat)

  datatype Event = Event(stream: string, sequence: nat, operation: Option<string>, body: Body)

  datatype Bus = Bus(
    capacity: nat,
    queue: seq<Event>,
    suppressedStreams: set<string>,
    suppressedOperations: set<string>,
    sequences: map<string, nat>,
    queued: nat,
    dropped: nat)
  {
    ghost predicate Valid() { |queue| <= capacity }
  }

  // ---- atomic actions -------------------------------------------------------

  /** An event is hit when its stream is in `streams` or its operation is in `operations`. */
  predicate Hit(stream: string, operation: Option<string>, streams: set<string>, operations: set<string>) {
    stream in streams || (operation.Some? && operation.value in operations)
  }

  /** The events of `q` that are not hit, in their order. */
  function Keep(q: seq<Event>, streams: set<string>, operations: set<string>): seq<Event> {
    if q == [] then []
    else
      var last := q[|q| - 1];
      Keep(q[..|q| - 1], streams, operations) +
      if Hit(last.stream, last.operation, streams, operations) then [] else [last]
  }

  function Sequence(sequences: map<string, nat>, stream: string): nat {
    if stream in sequences then sequences[stream] else 0
  }

  /** Advances the sequence number of one stream; the new number is `Sequence(r.sequences, stream)`. */
  function Advance(b: Bus, stream: string): Bus {
    b.(sequences := b.sequences[stream := Sequence(b.sequences, stream) + 1])
  }

  function Build(b: Bus, stream: string, operation: Option<string>, body: Body): Event {
    Event(stream, Sequence(b.sequences, stream) + 1, operation, body)
  }

  predicate HasRoom(b: Bus) { |b.queue| < b.capacity }

  /** Everything `emit` does, as one action. */
  function Emitted(b: Bus, stream: string, operation: Option<string>, body: Body): Bus {
    if Hit(stream, operation, b.suppressedStreams, b.suppressedOperations) then b
    else
      var event := Build(b, stream, operation, body);
      var b' := Advance(b, stream);
      if HasRoom(b') then b'.(queue := b'.queue + [event], queued := b'.queued + 1)
      else b'.(dropped := b'.dropped + 1)
  }

  function OperationStreams(operations: set<string>): set<string> {
    set o | o in operations :: OperationStream(o)
  }

  /** The streams that die with a conversation and its operations. */
  function SessionStreams(conversation: string, operations: set<string>): set<string> {
    {ConversationStream(conversation)} + OperationStreams(operations)
  }

  /** First half of a purge: the tombstones. */
  function Tombstoned(b: Bus, conversation: string, operations: set<string>): Bus {
    b.(suppressedStreams := b.suppressedStreams + SessionStreams(conversation, operations),
       suppressedOperations := b.suppressedOperations + operations)
  }

  /** Second half of a purge: the queue without the session's events. */
  function Swept(b: Bus, conversation: string, operations: set<string>): Bus {
    var streams := SessionStreams(conversation, operations);
    var kept := Keep(b.queue, streams, operations);
    b.(queue := kept,
       queued := MinusSat(b.queued, |b.queue|) + |kept|,
       sequences := b.sequences - streams)
  }

  /** A stream that dies with the session. */
  ghost predicate Dies(stream: string, conversation: string, operations: set<string>) {
    stream == "conversation:" + conversation || exists o <- operations :: stream == "operation:" + o
  }

  /** Besides the queue: the session's streams and operations are suppressed from then on, and its numbering is forgotten. */
  ghost predicate Silences(b: Bus, b': Bus, conversation: string, operations: set<string>) {
    && (forall stream :: stream in b'.suppressedStreams <==> stream in b.suppressedStreams || Dies(stream, conversation, operations))
    && b'.suppressedOperations == b.suppressedOperations + operations
    && (forall stream :: stream in b'.sequences <==> stream in b.sequences && !Dies(stream, conversation, operations))
    && (forall stream <- b'.sequences :: b'.sequences[stream] == b.sequences[stream])
  }

  lemma PurgeSilences(b: Bus, conversation: string, operations: set<string>)
    ensures Silences(b, Swept(Tombstoned(b, conversation, operations), conversation, operations), conversation, operations)
  {
    forall stream ensures stream in SessionStreams(conversation, operations) <==> Dies(stream, conversation, operations) {
      if o :| o in operations && stream == "operation:" + o { assert OperationStream(o) == stream; }
    }
  }

  // ---- laws of the order-preserving filter ----------------------------------

  lemma {:induction false} KeepMember(q: seq<Event>, streams: set<string>, operations: set<string>, e: Event)
    ensures e in Keep(q, streams, operations) <==> e in q && !Hit(e.stream, e.operation, streams, operations)
  {
    if q != [] {
      var last := q[|q| - 1];
      assert q == q[..|q| - 1] + [last];
      KeepMember(q[..|q| - 1], streams, operations, e);
    }
  }

  lemma {:induction false} KeepLength(q: seq<Event>, streams: set<string>, operations: set<string>)
    ensures |Keep(q, streams, operations)| <= |q|
  {
    if q != [] { KeepLength(q[..|q| - 1], streams, operations); }
  }

  lemma {:induction false} KeepConcat(a: seq<Event>, b: seq<Event>, streams: set<string>, operations: set<string>)
    ensures Keep(a + b, streams, operations) == Keep(a, streams, operations) + Keep(b, streams, operations)
  {
    if b == [] {
      assert a + b == a;
    } else {
      assert (a + b)[..|a + b| - 1] == a + b[..|b| - 1];
      KeepConcat(a, b[..|b| - 1], streams, operations);
    }
  }

  lemma KeepOne(e: Event, streams: set<string>, operations: set<string>)
    ensures Keep([e], streams, operations) == if Hit(e.stream, e.operation, streams, operations) then [] else [e]
  {
    assert [e][..0] == [];
  }

  lemma KeepAppend(q: seq<Event>, e: Event, streams: set<string>, operations: set<string>)
    ensures Keep(q + [e], streams, operations)
         == Keep(q, streams, operations) + if Hit(e.stream, e.operation, streams, operations) then [] else [e]
  {
    assert (q + [e])[..|q|] == q;
  }

  /** A coarser filter does not notice that a finer one ran before it. */
  lemma {:induction false} KeepAbsorbs(
    q: seq<Event>, streams: set<string>, operations: set<string>, streams': set<string>, operations': set<string>)
    requires streams <= streams' && operations <= operations'
    ensures Keep(Keep(q, streams, operations), streams', operations') == Keep(q, streams', operations')
  {
    if q != [] {
      var front, last := q[..|q| - 1], q[|q| - 1];
      assert q == front + [last];
      KeepAbsorbs(front, streams, operations, streams', operations');
      KeepConcat(front, [last], streams', operations');
      KeepOne(last, streams', operations');
      if Hit(last.stream, last.operation, streams, operations) {
        assert Keep(q, streams, operations) == Keep(front, streams, operations);
      } else {
        KeepConcat(Keep(front, streams, operations), [last], streams', operations');
      }
    }
  }

  /** What is a prefix under a finer filter is one under a coarser. */
  lemma KeepCoarser(
    a: seq<Event>, b: seq<Event>, streams: set<string>, operations: set<string>, streams': set<string>, operations': set<string>)
    requires streams <= streams' && operations <= operations'
    requires Keep(a, streams, operations) <= Keep(b, streams, operations)
    ensures Keep(a, streams', operations') <= Keep(b, streams', operations')
  {
    KeepAbsorbs(a, streams, operations, streams', operations');
    KeepAbsorbs(b, streams, operations, streams', operations');
    KeepPrefix(Keep(a, streams, operations), Keep(b, streams, operations), streams', operations');
  }

  lemma KeepPrefix(short: seq<Event>, long: seq<Event>, streams: set<string>, operations: set<string>)
    requires short <= long
    ensures Keep(short, streams, operations) <= Keep(long, streams, operations)
  {
    assert long == short + long[|short|..];
    KeepConcat(short, long[|short|..], streams, operations);
  }

  // ---- the class ------------------------------------------------------------

  /** `EventBus`, with the mutexes and atomics of one call left out: see `BusRuns` for their interleaving. */
  class EventBus {
    const capacity: nat
    var queue: seq<Event>
    var suppressedStreams: set<string>
    var suppressedOperations: set<string>
    var sequences: map<string, nat>
    var queued: nat
    var dropped: nat

    ghost function View(): Bus
      reads this
    {
      Bus(capacity, queue, suppressedStreams, suppressedOperations, sequences, queued, dropped)
    }

    constructor (capacity: nat)
      ensures View() == Bus(capacity, [], {}, {}, map[], 0, 0)
    {
      this.capacity := capacity;
      queue, suppressedStreams, suppressedOperations, sequences, queued, dropped := [], {}, {}, map[], 0, 0;
    }

    method BuildEvent(stream: string, operation: Option<string>, body: Body) returns (event: Event)
      modifies `sequences
      ensures View() == Advance(old(View()), stream)
      ensures event == Build(old(View()), stream, operation, body)
    {
      var sequence := (if stream in sequences then sequences[stream] else 0) + 1;
      sequences := sequences[stream := sequence];
      event := Event(stream, sequence, operation, body);
    }

    method TrySend(event: Event) returns (sent: bool)
      modifies `queue
      ensures sent <==> old(HasRoom(View()))
      ensures queue == if sent then old(queue) + [event] else old(queue)
    {
      sent := |queue| < capacity;
      if sent { queue := queue + [event]; }
    }

    method DecrementQueued()
      modifies `queued
      ensures queued == MinusSat(old(queued), 1)
    {
      queued := if queued == 0 then 0 else queued - 1;
    }

    method Emit(stream: string, operation: Option<string>, body: Body)
      requires View().Valid()
      modifies this
      ensures View().Valid()
      ensures View() == Emitted(old(View()), stream, operation, body)
      ensures var silent := stream in old(suppressedStreams) || (operation.Some? && operation.value in old(suppressedOperations));
              var number := 1 + if stream in old(sequences) then old(sequences)[stream] else 0;
              if silent then View() == old(View())
              else
                && sequences == old(sequences)[stream := number]
                && (if |old(queue)| < capacity
                    then queue == old(queue) + [Event(stream, number, operation, body)] && queued == old(queued) + 1 && dropped == old(dropped)
                    else queue == old(queue) && queued == old(queued) && dropped == old(dropped) + 1)
    {
      if stream in suppressedStreams || (operation.Some? && operation.value in suppressedOperations) {
        return;
      }
      var event := BuildEvent(stream, operation, body);
      var sent := TrySend(event);
      if sent {
        queued := queued + 1;
      } else {
        dropped := dropped + 1;
      }
    }

    /** Empties the queue and hands back what does not belong to the session. */
    method TakeRetained(conversationStream: string, operationStreams: set<string>, operations: set<string>)
      returns (retained: seq<Event>, removed: nat)
      modifies `queue, `queued
      ensures retained == Keep(old(queue), {conversationStream} + operationStreams, operations)
      ensures removed == |old(queue)| - |retained|
      ensures queue == [] && queued == MinusSat(old(queued), |old(queue)|)
    {
      ghost var streams := {conversationStream} + operationStreams;
      ghost var taken: seq<Event> := [];
      retained, removed := [], 0;
      while queue != []
        invariant old(queue) == taken + queue
        invariant retained == Keep(taken, streams, operations)
        invariant removed == |taken| - |retained|
        invariant queued == MinusSat(old(queued), |taken|)
        decreases |queue|
      {
        var event := queue[0];
        queue := queue[1..];
        DecrementQueued();
        KeepAppend(taken, event, streams, operations);
        taken := taken + [event];
        if event.stream == conversationStream || event.stream in operationStreams
           || (event.operation.Some? && event.operation.value in operations) {
          removed := removed + 1;
        } else {
          retained := retained + [event];
        }
      }
      assert taken == old(queue);
    }

    /** Puts the retained events back.  They fit, so the branch that would count a drop is never reached. */
    method Resend(retained: seq<Event>)
      requires queue == [] && |retained| <= capacity
      modifies `queue, `queued
      ensures queue == retained && queued == old(queued) + |retained|
    {
      var i := 0;
      while i < |retained|
        invariant 0 <= i <= |retained|
        invariant queue == retained[..i]
        invariant queued == old(queued) + i
      {
        var sent := TrySend(retained[i]);
        assert sent;
        queued := queued + 1;
        i := i + 1;
      }
    }

    /** Unrelated events survive in order, and re-enqueueing loses none: `dropped` does not move. */
    method PurgeTemporaryChat(conversation: string, operations: set<string>) returns (removed: nat)
      requires View().Valid()
      modifies this
      ensures View().Valid()
      ensures View() == Swept(Tombstoned(old(View()), conversation, operations), conversation, operations)
      ensures dropped == old(dropped)
      ensures removed == |old(queue)| - |queue|
    {
      var conversationStream := ConversationStream(conversation);
      var operationStreams := OperationStreams(operations);
      suppressedStreams := suppressedStreams + ({conversationStream} + operationStreams);
      suppressedOperations := suppressedOperations + operations;
      var retained;
      retained, removed := TakeRetained(conversationStream, operationStreams, operations);
      KeepLength(old(queue), {conversationStream} + operationStreams, operations);
      Resend(retained);
      sequences := sequences - ({conversationStream} + operationStreams);
    }

    /** Moves events from the queue to a batch until it holds `bound` of them. */
    method TakeQueued(head: seq<Event>, bound: nat) returns (events: seq<Event>)
      requires |head| <= bound
      modifies `queue, `queued
      ensures var n := Min(bound - |head|, |old(queue)|);
              && events == head + old(queue)[..n] && queue == old(queue)[n..] && queued == MinusSat(old(queued), n)
    {
      events := head;
      ghost var before, n := queue, 0;
      while |events| < bound && queue != []
        invariant 0 <= n <= |before| && queue == before[n..] && events == head + before[..n]
        invariant |events| <= bound && queued == MinusSat(old(queued), n)
        decreases |queue|
      {
        var event := queue[0];
        assert before[..n + 1] == before[..n] + [event];
        queue := queue[1..];
        DecrementQueued();
        events := events + [event];
        n := n + 1;
      }
    }

    /** Takes the gap report first, then as much of the queue as the clamped limit leaves room for. */
    method Drain(limit: nat) returns (events: seq<Event>, hasMore: bool)
      requires View().Valid()
      modifies this
      ensures View().Valid()
      ensures var b := old(View());
              var batch := if limit < 1 then 1 else if limit > 256 then 256 else limit;
              var n := Min(batch - (if b.dropped > 0 then 1 else 0), |b.queue|);
              && events == (if b.dropped > 0
                            then [Event("application:events", Sequence(b.sequences, "application:events") + 1, None, Gap(b.dropped))]
                            else []) + b.queue[..n]
              && queue == b.queue[n..]
              && queued == MinusSat(b.queued, n)
              && dropped == 0
              && sequences == (if b.dropped > 0 then Advance(b, GAP_STREAM) else b).sequences
              && suppressedStreams == b.suppressedStreams && suppressedOperations == b.suppressedOperations
      ensures 0 <= |events| <= MAX_DRAIN_BATCH
      ensures hasMore <==> queued > 0
      ensures old(queued) >= |old(queue)| ==> (hasMore <==> queue != [] || old(queued) > |old(queue)|)
    {
      var bound := if limit < 1 then 1 else if limit > MAX_DRAIN_BATCH then MAX_DRAIN_BATCH else limit;
      events := [];
      var lost := dropped;
      dropped := 0;
      if lost > 0 {
        var gap := BuildEvent(GAP_STREAM, None, Gap(lost));
        events := [gap];
      }
      events := TakeQueued(events, bound);
      hasMore := queued > 0 || dropped > 0;
    }
  }
}
