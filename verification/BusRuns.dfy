/**
 Every interleaving of emitters, drains and purges on one event bus.

 An emitter or a purge holds the queue lock; a drain holds the receiver lock;
 a purge takes both, in that order.  Each step below is one atomic action of
 the runtime, so a state may sit between a send and the counter update that
 follows it.  `delivered` lists events in the order in which drains take them.
 */
module BusRuns {
  import opened Prelude
  import opened EventBuses

  /** Who holds the queue lock, and how far it has come. */
  datatype Holder =
    | Free
    | Built(event: Event)
    | Sent
    | Refused
    | Purging(conversation: string, operations: set<string>)

  /** Who holds the receiver lock; `uncounted` is a receive whose decrement is still to come. */
  datatype Receiver = Idle | Draining(uncounted: bool)

  datatype State = State(
    bus: Bus,
    holder: Holder,
    receiver: Receiver,
    /** Drop counts that drains have taken but not yet turned into a gap event. */
    swapped: seq<nat>,
    delivered: seq<Event>,
    // History, read by no step.
    built: nat,
    purged: nat,
    lost: nat,
    /** Some caller emitted on the gap stream, which the runtime reserves for `Drain`. */
    gapShared: bool,
    swept: set<(string, set<string>)>)

  datatype Step =
    | EmitBegin(stream: string, operation: Option<string>, id: nat)
    | EmitSend
    | EmitCount
    | SwapDropped
    | BuildGap(index: nat)
    | LockReceiver
    | Receive
    | CountReceived
    | UnlockReceiver
    | Tombstone(conversation: string, operations: set<string>)
    | Sweep
    | Elsewhere

  ghost predicate Init(s: State) {
    exists capacity: nat :: s ==
      State(Bus(capacity, [], {}, {}, map[], 0, 0), Free, Idle, [], [], 0, 0, 0, false, {})
  }

  predicate Enabled(s: State, step: Step) {
    match step
    case EmitBegin(_, _, _) => s.holder.Free?
    case EmitSend => s.holder.Built?
    case EmitCount => s.holder.Sent? || s.holder.Refused?
    case SwapDropped => s.bus.dropped > 0
    case BuildGap(index) => index < |s.swapped|
    case LockReceiver => s.receiver.Idle?
    case Receive => s.receiver == Draining(false) && s.bus.queue != []
    case CountReceived => s.receiver == Draining(true)
    case UnlockReceiver => s.receiver == Draining(false)
    case Tombstone(_, _) => s.holder.Free?
    case Sweep => s.holder.Purging? && s.receiver.Idle?
    case Elsewhere => true
  }

  function Apply(s: State, step: Step): State
    requires Enabled(s, step)
  {
    match step
    case EmitBegin(stream, operation, id) =>
      if Hit(stream, operation, s.bus.suppressedStreams, s.bus.suppressedOperations) then s
      else s.(bus := Advance(s.bus, stream),
              holder := Built(Build(s.bus, stream, operation, Payload(id))),
              built := s.built + 1,
              gapShared := s.gapShared || stream == GAP_STREAM)
    case EmitSend =>
      if HasRoom(s.bus) then s.(bus := s.bus.(queue := s.bus.queue + [s.holder.event]), holder := Sent)
      else s.(holder := Refused, lost := s.lost + 1)
    case EmitCount =>
      if s.holder.Sent? then s.(bus := s.bus.(queued := s.bus.queued + 1), holder := Free)
      else s.(bus := s.bus.(dropped := s.bus.dropped + 1), holder := Free)
    case SwapDropped =>
      s.(bus := s.bus.(dropped := 0), swapped := s.swapped + [s.bus.dropped])
    case BuildGap(index) =>
      s.(bus := Advance(s.bus, GAP_STREAM),
         delivered := s.delivered + [Build(s.bus, GAP_STREAM, None, Gap(s.swapped[index]))],
         swapped := s.swapped[..index] + s.swapped[index + 1..])
    case LockReceiver => s.(receiver := Draining(false))
    case Receive =>
      s.(bus := s.bus.(queue := s.bus.queue[1..]),
         delivered := s.delivered + [s.bus.queue[0]],
         receiver := Draining(true))
    case CountReceived =>
      s.(bus := s.bus.(queued := MinusSat(s.bus.queued, 1)), receiver := Draining(false))
    case UnlockReceiver => s.(receiver := Idle)
    case Tombstone(conversation, operations) =>
      s.(bus := Tombstoned(s.bus, conversation, operations), holder := Purging(conversation, operations))
    case Sweep =>
      var Purging(conversation, operations) := s.holder;
      var bus := Swept(s.bus, conversation, operations);
      KeepLength(s.bus.queue, SessionStreams(conversation, operations), operations);
      s.(bus := bus, holder := Free,
         purged := s.purged + (|s.bus.queue| - |bus.queue|),
         swept := s.swept + {(conversation, operations)})
    case Elsewhere => s
  }

  ghost predicate Next(s: State, s': State) {
    exists step :: Enabled(s, step) && s' == Apply(s, step)
  }

  ghost predicate IsRun(run: seq<State>) {
    && |run| > 0
    && Init(run[0])
    && forall i :: 0 <= i < |run| - 1 ==> Next(run[i], run[i + 1])
  }

  // ---- one call is the composition of its steps ------------------------------

  /** Left alone, the steps of an emitter add up to `Emitted`. */
  lemma EmitIsItsSteps(s: State, stream: string, operation: Option<string>, id: nat)
    requires s.holder.Free?
    ensures var s1 := Apply(s, EmitBegin(stream, operation, id));
            if s1.holder.Free? then s1.bus == Emitted(s.bus, stream, operation, Payload(id))
            else Apply(Apply(s1, EmitSend), EmitCount).bus == Emitted(s.bus, stream, operation, Payload(id))
  {
  }

  /** Left alone, the two halves of a purge add up to what `PurgeTemporaryChat` does. */
  lemma PurgeIsItsSteps(s: State, conversation: string, operations: set<string>)
    requires s.holder.Free? && s.receiver.Idle?
    ensures Apply(Apply(s, Tombstone(conversation, operations)), Sweep).bus
         == Swept(Tombstoned(s.bus, conversation, operations), conversation, operations)
  {
  }

  // ---- accounting ------------------------------------------------------------

  function Payloads(events: seq<Event>): seq<Event> {
    if events == [] then []
    else
      var last := events[|events| - 1];
      Payloads(events[..|events| - 1]) + if last.body.Payload? then [last] else []
  }

  function Reported(events: seq<Event>): nat {
    if events == [] then 0
    else
      var last := events[|events| - 1];
      Reported(events[..|events| - 1]) + if last.body.Gap? then last.body.lost else 0
  }

  function InHand(s: State): seq<Event> {
    if s.holder.Built? then [s.holder.event] else []
  }

  ghost predicate PayloadOnly(events: seq<Event>) {
    forall e <- events :: e.body.Payload?
  }

  /**
   Every event ever built is in exactly one place, and every drop is in exactly
   one place: still in the counter, taken by a drain, or reported in a gap event.
   */
  ghost predicate Accounted(s: State) {
    && s.bus.Valid()
    && PayloadOnly(s.bus.queue) && PayloadOnly(InHand(s))
    && s.built == |Payloads(s.delivered)| + |s.bus.queue| + s.purged + s.lost + |InHand(s)|
    && s.lost == Reported(s.delivered) + Sum(s.swapped) + s.bus.dropped + (if s.holder.Refused? then 1 else 0)
  }

  lemma {:induction false} SumRemove(counts: seq<nat>, i: nat)
    requires i < |counts|
    ensures Sum(counts) == Sum(counts[..i] + counts[i + 1..]) + counts[i]
  {
    var without := counts[..i] + counts[i + 1..];
    if i == |counts| - 1 {
      assert without == counts[..i];
    } else {
      var front := counts[..|counts| - 1];
      SumRemove(front, i);
      assert without[..|without| - 1] == front[..i] + front[i + 1..];
      assert without[|without| - 1] == counts[|counts| - 1];
    }
  }

  lemma AccountedGap(s: State, index: nat)
    requires Accounted(s) && index < |s.swapped|
    ensures Accounted(Apply(s, BuildGap(index)))
  {
    SumRemove(s.swapped, index);
    assert Apply(s, BuildGap(index)).delivered[..|s.delivered|] == s.delivered;
  }

  lemma AccountedReceive(s: State)
    requires Accounted(s) && Enabled(s, Receive)
    ensures Accounted(Apply(s, Receive))
  {
    assert Apply(s, Receive).delivered[..|s.delivered|] == s.delivered;
  }

  lemma AccountedSweep(s: State)
    requires Accounted(s) && Enabled(s, Sweep)
    ensures Accounted(Apply(s, Sweep))
  {
    var Purging(conversation, operations) := s.holder;
    var streams := SessionStreams(conversation, operations);
    KeepLength(s.bus.queue, streams, operations);
    forall e | e in Apply(s, Sweep).bus.queue ensures e in s.bus.queue { KeepMember(s.bus.queue, streams, operations, e); }
  }

  lemma AccountedNext(s: State, step: Step)
    requires Accounted(s) && Enabled(s, step)
    ensures Accounted(Apply(s, step))
  {
    match step
    case BuildGap(index) => AccountedGap(s, index);
    case Receive => AccountedReceive(s);
    case SwapDropped => assert Apply(s, step).swapped[..|s.swapped|] == s.swapped;
    case Sweep => AccountedSweep(s);
    case _ =>
  }

  // ---- the queue counter -----------------------------------------------------

  /** By how much the counter exceeds the queue, once what is about to be counted has been counted. */
  function Excess(s: State): int {
    s.bus.queued + (if s.holder.Sent? then 1 else 0) - |s.bus.queue| - (if s.receiver == Draining(true) then 1 else 0)
  }

  ghost predicate CounterCovers(s: State) { 0 <= Excess(s) <= 1 }

  /** A receive is counted while the counter is at zero: the decrement is lost. */
  predicate Saturates(s: State, s': State) {
    s.receiver == Draining(true) && s'.receiver == Draining(false) && s.bus.queued == 0
  }

  /** A decrement is lost only for an event that was taken before its own send was counted; nothing else moves the excess. */
  lemma ExcessNext(s: State, step: Step)
    requires CounterCovers(s) && Enabled(s, step)
    ensures var s' := Apply(s, step);
            && CounterCovers(s')
            && Excess(s') == Excess(s) + (if Saturates(s, s') then 1 else 0)
            && (Saturates(s, s') <==>
                  step.CountReceived? && s.bus.queued == 0 && s.holder.Sent? && s.bus.queue == [] && Excess(s) == 0)
  {
    if step.Sweep? {
      KeepLength(s.bus.queue, SessionStreams(s.holder.conversation, s.holder.operations), s.holder.operations);
    }
  }

  // ---- sequence numbers ------------------------------------------------------

  ghost predicate Ascends(a: Event, b: Event, gapShared: bool) {
    a.stream == b.stream && !(a.stream == GAP_STREAM && gapShared) ==> a.sequence < b.sequence
  }

  /** Sequence numbers rise along `events` on every stream (bar a gap stream that callers share). */
  ghost predicate Rising(events: seq<Event>, gapShared: bool) {
    forall i, j :: 0 <= i < j < |events| ==> Ascends(events[i], events[j], gapShared)
  }

  /** All events not yet purged or lost, oldest first. */
  function Line(s: State): seq<Event> {
    s.delivered + s.bus.queue + InHand(s)
  }

  ghost predicate Behind(b: Bus, e: Event) {
    e.stream in b.suppressedStreams || e.sequence <= Sequence(b.sequences, e.stream)
  }

  ghost predicate Ordered(s: State) {
    && Rising(Line(s), s.gapShared)
    && (forall e <- Line(s) :: Behind(s.bus, e))
    && GAP_STREAM !in s.bus.suppressedStreams
    && (!s.gapShared ==> forall e <- s.bus.queue + InHand(s) :: e.stream != GAP_STREAM)
    && (s.holder.Purging? ==>
          SessionStreams(s.holder.conversation, s.holder.operations) <= s.bus.suppressedStreams)
  }

  lemma GapStreamIsNoSession(conversation: string, operations: set<string>)
    ensures GAP_STREAM !in SessionStreams(conversation, operations)
  {
    assert GAP_STREAM[0] == 'a';
    assert ConversationStream(conversation)[0] == 'c';
    forall o | o in operations ensures OperationStream(o) != GAP_STREAM {
      assert OperationStream(o)[0] == 'o';
    }
  }

  lemma {:induction false} RisingKeep(a: seq<Event>, q: seq<Event>, streams: set<string>, operations: set<string>, shared: bool)
    requires Rising(a + q, shared)
    ensures Rising(a + Keep(q, streams, operations), shared)
  {
    if q != [] {
      var front, last := q[..|q| - 1], q[|q| - 1];
      assert a + q == (a + front) + [last];
      forall i, j | 0 <= i < j < |a + front| ensures Ascends((a + front)[i], (a + front)[j], shared) {
        assert Ascends((a + q)[i], (a + q)[j], shared);
      }
      RisingKeep(a, front, streams, operations, shared);
      var kept := a + Keep(front, streams, operations);
      forall e | e in kept ensures Ascends(e, last, shared) {
        KeepMember(front, streams, operations, e);
        assert e in a + front;
        var i :| 0 <= i < |a + front| && (a + front)[i] == e;
        assert Ascends((a + q)[i], (a + q)[|a + front|], shared);
      }
      RisingAppend(kept, last, shared);
      assert a + Keep(q, streams, operations) == kept || a + Keep(q, streams, operations) == kept + [last];
    }
  }

  lemma RisingAppend(a: seq<Event>, e: Event, shared: bool)
    requires Rising(a, shared) && forall x <- a :: Ascends(x, e, shared)
    ensures Rising(a + [e], shared)
  {
  }

  lemma OrderedEmit(s: State, step: Step)
    requires Ordered(s) && step.EmitBegin? && Enabled(s, step)
    ensures Ordered(Apply(s, step))
  {
    var s' := Apply(s, step);
    if s' != s {
      var e := s'.holder.event;
      assert Line(s') == Line(s) + [e];
      forall x | x in Line(s) ensures Ascends(x, e, s'.gapShared) { assert Behind(s.bus, x); }
      RisingAppend(Line(s), e, s'.gapShared);
      forall x | x in Line(s') ensures Behind(s'.bus, x) { assert x == e || Behind(s.bus, x); }
    }
  }

  lemma OrderedGap(s: State, step: Step)
    requires Ordered(s) && step.BuildGap? && Enabled(s, step)
    ensures Ordered(Apply(s, step))
  {
    var s' := Apply(s, step);
    var gap := s'.delivered[|s.delivered|];
    var rest := s.bus.queue + InHand(s);
    assert Line(s) == s.delivered + rest && Line(s') == s.delivered + [gap] + rest;
    forall x <- s.delivered ensures Ascends(x, gap, s.gapShared) { assert x in Line(s) && Behind(s.bus, x); }
    RisingInsert(s.delivered, gap, rest, s.gapShared);
    forall x | x in Line(s') ensures Behind(s'.bus, x) { assert x == gap || (x in Line(s) && Behind(s.bus, x)); }
  }

  lemma RisingInsert(a: seq<Event>, e: Event, b: seq<Event>, shared: bool)
    requires Rising(a + b, shared)
    requires (forall x <- a :: Ascends(x, e, shared)) && (forall x <- b :: Ascends(e, x, shared))
    ensures Rising(a + [e] + b, shared)
  {
    var n, line := |a|, a + [e] + b;
    forall i, j | 0 <= i < j < |line| ensures Ascends(line[i], line[j], shared) {
      if i == n {
        assert line[j] == b[j - n - 1];
      } else if j != n {
        var i0, j0 := if i < n then i else i - 1, if j < n then j else j - 1;
        assert Ascends((a + b)[i0], (a + b)[j0], shared);
      }
    }
  }

  lemma OrderedSweep(s: State)
    requires Ordered(s) && Enabled(s, Sweep)
    ensures Ordered(Apply(s, Sweep))
  {
    var s' := Apply(s, Sweep);
    var Purging(conversation, operations) := s.holder;
    var streams := SessionStreams(conversation, operations);
    assert Line(s) == s.delivered + s.bus.queue && Line(s') == s.delivered + s'.bus.queue;
    RisingKeep(s.delivered, s.bus.queue, streams, operations, s.gapShared);
    forall x | x in s'.bus.queue ensures x in s.bus.queue { KeepMember(s.bus.queue, streams, operations, x); }
    forall x | x in Line(s') ensures Behind(s'.bus, x) { assert Behind(s.bus, x); }
  }

  lemma OrderedNext(s: State, step: Step)
    requires Ordered(s) && Enabled(s, step)
    ensures Ordered(Apply(s, step))
  {
    var s' := Apply(s, step);
    match step
    case EmitBegin(_, _, _) => OrderedEmit(s, step);
    case BuildGap(_) => OrderedGap(s, step);
    case Sweep => OrderedSweep(s);
    case EmitSend =>
      if HasRoom(s.bus) {
        assert Line(s') == Line(s);
      } else {
        assert Line(s) == Line(s') + [s.holder.event];
        forall i, j | 0 <= i < j < |Line(s')| ensures Ascends(Line(s')[i], Line(s')[j], s.gapShared) {
          assert Ascends(Line(s)[i], Line(s)[j], s.gapShared);
        }
      }
    case Receive =>
      assert Line(s') == Line(s);
      assert forall e <- s'.bus.queue :: e in s.bus.queue;
    case Tombstone(conversation, operations) =>
      GapStreamIsNoSession(conversation, operations);
      assert Line(s') == Line(s);
      forall x | x in Line(s') ensures Behind(s'.bus, x) { assert Behind(s.bus, x); }
    case _ =>
      assert Line(s') == Line(s);
  }

  // ---- tombstones ------------------------------------------------------------

  /** Nothing that is queued or about to be queued belongs to a session already swept. */
  ghost predicate Silent(s: State) {
    && GAP_STREAM !in s.bus.suppressedStreams
    && (s.holder.Purging? ==>
          && SessionStreams(s.holder.conversation, s.holder.operations) <= s.bus.suppressedStreams
          && s.holder.operations <= s.bus.suppressedOperations)
    && forall p <- s.swept ::
         && SessionStreams(p.0, p.1) <= s.bus.suppressedStreams
         && p.1 <= s.bus.suppressedOperations
         && forall e <- s.bus.queue + InHand(s) :: !Hit(e.stream, e.operation, SessionStreams(p.0, p.1), p.1)
  }

  lemma SilentNext(s: State, step: Step)
    requires Silent(s) && Enabled(s, step)
    ensures Silent(Apply(s, step))
  {
    var s' := Apply(s, step);
    match step
    case Sweep =>
      var Purging(conversation, operations) := s.holder;
      forall e | e in s'.bus.queue
        ensures e in s.bus.queue && !Hit(e.stream, e.operation, SessionStreams(conversation, operations), operations)
      {
        KeepMember(s.bus.queue, SessionStreams(conversation, operations), operations, e);
      }
    case Tombstone(conversation, operations) =>
      GapStreamIsNoSession(conversation, operations);
    case EmitBegin(_, _, _) =>
      assert forall e <- s'.bus.queue + InHand(s') :: e in s.bus.queue + InHand(s) || e in InHand(s');
    case _ =>
      assert forall e <- s'.bus.queue + InHand(s') :: e in s.bus.queue + InHand(s);
  }

  /** Between `s` and `s'` drains took nothing on the streams or operations of purge `p`. */
  ghost predicate NothingDelivered(s: State, s': State, p: (string, set<string>)) {
    && s.delivered <= s'.delivered
    && forall e <- s'.delivered[|s.delivered|..] :: !Hit(e.stream, e.operation, SessionStreams(p.0, p.1), p.1)
  }

  lemma StepDeliversNothingSwept(s: State, step: Step, p: (string, set<string>))
    requires Silent(s) && Enabled(s, step) && p in s.swept
    ensures p in Apply(s, step).swept && NothingDelivered(s, Apply(s, step), p)
  {
    if step.Receive? { assert s.bus.queue[0] in s.bus.queue + InHand(s); }
  }

  // ---- survival --------------------------------------------------------------

  /** Payload events in delivery order: those delivered, then those queued. */
  function Stream(s: State): seq<Event> { Payloads(s.delivered) + s.bus.queue }

  /** What of `events` no tombstone of `s` covers. */
  function Unrelated(events: seq<Event>, s: State): seq<Event> {
    Keep(events, s.bus.suppressedStreams, s.bus.suppressedOperations)
  }

  lemma {:induction false} PayloadsMember(events: seq<Event>, e: Event)
    ensures e in Payloads(events) ==> e in events
  {
    if events != [] { PayloadsMember(events[..|events| - 1], e); }
  }

  lemma PayloadsAppend(events: seq<Event>, e: Event)
    ensures Payloads(events + [e]) == Payloads(events) + if e.body.Payload? then [e] else []
  {
    assert (events + [e])[..|events|] == events;
  }

  lemma ReceiveKeepsStream(s: State)
    requires Accounted(s) && Enabled(s, Receive)
    ensures Stream(Apply(s, Receive)) == Stream(s)
  {
    PayloadsAppend(s.delivered, s.bus.queue[0]);
    assert s.bus.queue == [s.bus.queue[0]] + s.bus.queue[1..];
    assert s.bus.queue[0] in s.bus.queue;
    Associate(Payloads(s.delivered), [s.bus.queue[0]], s.bus.queue[1..]);
  }

  lemma GapKeepsStream(s: State, index: nat)
    requires index < |s.swapped|
    ensures Stream(Apply(s, BuildGap(index))) == Stream(s)
  {
    PayloadsAppend(s.delivered, Apply(s, BuildGap(index)).delivered[|s.delivered|]);
  }

  /** Apart from a purge, a step only appends to the stream. */
  lemma StreamGrows(s: State, step: Step)
    requires Accounted(s) && Enabled(s, step) && !step.Sweep?
    ensures Stream(s) <= Stream(Apply(s, step))
  {
    match step
    case EmitSend => if HasRoom(s.bus) { assert Stream(Apply(s, step)) == Stream(s) + [s.holder.event]; }
    case Receive => ReceiveKeepsStream(s);
    case BuildGap(index) => GapKeepsStream(s, index);
    case _ =>
  }

  lemma StepKeepsUnrelated(s: State, step: Step)
    requires Accounted(s) && Silent(s) && Enabled(s, step)
    ensures var s' := Apply(s, step);
            && s.bus.suppressedStreams <= s'.bus.suppressedStreams
            && s.bus.suppressedOperations <= s'.bus.suppressedOperations
            && Unrelated(Stream(s), s') <= Unrelated(Stream(s'), s')
  {
    var s' := Apply(s, step);
    if step.Sweep? {
      SweepKeepsUnrelated(s);
    } else {
      StreamGrows(s, step);
      var more := Stream(s')[|Stream(s)|..];
      assert Stream(s') == Stream(s) + more;
      KeepConcat(Stream(s), more, s'.bus.suppressedStreams, s'.bus.suppressedOperations);
    }
  }

  lemma SweepKeepsUnrelated(s: State)
    requires Silent(s) && Enabled(s, Sweep)
    ensures Unrelated(Stream(Apply(s, Sweep)), s) == Unrelated(Stream(s), s)
  {
    var Purging(conversation, operations) := s.holder;
    var streams, queue := SessionStreams(conversation, operations), Apply(s, Sweep).bus.queue;
    KeepAbsorbs(s.bus.queue, streams, operations, s.bus.suppressedStreams, s.bus.suppressedOperations);
    KeepConcat(Payloads(s.delivered), s.bus.queue, s.bus.suppressedStreams, s.bus.suppressedOperations);
    KeepConcat(Payloads(s.delivered), queue, s.bus.suppressedStreams, s.bus.suppressedOperations);
  }

  // ---- whole runs ------------------------------------------------------------

  ghost predicate Inv(s: State) {
    Accounted(s) && CounterCovers(s) && Ordered(s) && Silent(s)
  }

  lemma InvNext(s: State, s': State)
    requires Inv(s) && Next(s, s')
    ensures Inv(s')
  {
    var step :| Enabled(s, step) && s' == Apply(s, step);
    AccountedNext(s, step);
    ExcessNext(s, step);
    OrderedNext(s, step);
    SilentNext(s, step);
  }

  lemma {:induction false} InvHolds(run: seq<State>, i: nat)
    requires IsRun(run) && i < |run|
    ensures Inv(run[i])
  {
    if i > 0 {
      InvHolds(run, i - 1);
      assert Next(run[i - 1], run[i - 1 + 1]);
      InvNext(run[i - 1], run[i]);
    }
  }

  /**
   Built = delivered + queued + purged + dropped + in an emitter's hand, and
   every drop is reported in one gap event, held by one drain, still in the
   counter, or about to be added to it.
   */
  lemma AccountingHolds(run: seq<State>, i: nat)
    requires IsRun(run) && i < |run|
    ensures var s := run[i];
            && s.built == |Payloads(s.delivered)| + |s.bus.queue| + s.purged + s.lost + |InHand(s)|
            && s.lost == Reported(s.delivered) + Sum(s.swapped) + s.bus.dropped + (if s.holder.Refused? then 1 else 0)
  {
    InvHolds(run, i);
  }

  /** Some decrement was lost before the i-th state. */
  ghost predicate Saturated(run: seq<State>, i: nat)
    requires i < |run|
  {
    i > 0 && (Saturated(run, i - 1) || Saturates(run[i - 1], run[i]))
  }

  lemma {:induction false} SaturatedLasts(run: seq<State>, i: nat, j: nat)
    requires i <= j < |run| && Saturated(run, i)
    ensures Saturated(run, j)
  {
    if i < j { SaturatedLasts(run, i, j - 1); }
  }

  lemma ExcessAlong(run: seq<State>, i: nat)
    requires IsRun(run) && i + 1 < |run|
    ensures 0 <= Excess(run[i + 1]) <= 1
    ensures Excess(run[i + 1]) == Excess(run[i]) + if Saturates(run[i], run[i + 1]) then 1 else 0
  {
    InvHolds(run, i);
    assert Next(run[i], run[i + 1]);
    var step :| Enabled(run[i], step) && run[i + 1] == Apply(run[i], step);
    ExcessNext(run[i], step);
  }

  /**
   The counter is exact until the first decrement is lost, and one too high
   ever after: in every reachable state, counting what is about to be counted,
   it exceeds the queue by one if and only if a decrement was lost before.
   */
  lemma {:induction false} CounterIsExactUntilSaturated(run: seq<State>, i: nat)
    requires IsRun(run) && i < |run|
    ensures Excess(run[i]) == if Saturated(run, i) then 1 else 0
  {
    if i > 0 {
      CounterIsExactUntilSaturated(run, i - 1);
      ExcessAlong(run, i - 1);
    }
  }

  /** What a drain reports as `has_more`: something is counted as queued, or there are drops to report. */
  predicate HasMore(s: State) { s.bus.queued > 0 || s.bus.dropped > 0 }

  /** When no emitter or drain is between an action and its count, the flag is exact until a decrement is lost, then always set. */
  lemma MoreIsExactUntilSaturated(run: seq<State>, i: nat, j: nat)
    requires IsRun(run) && i <= j < |run| && !run[j].holder.Sent? && run[j].receiver != Draining(true)
    ensures HasMore(run[j]) <==> run[j].bus.queue != [] || run[j].bus.dropped > 0 || Saturated(run, j)
    ensures Saturated(run, i) ==> HasMore(run[j])
  {
    CounterIsExactUntilSaturated(run, j);
    if Saturated(run, i) { SaturatedLasts(run, i, j); }
  }

  lemma Extend(run: seq<State>, step: Step) returns (longer: seq<State>)
    requires IsRun(run) && Enabled(run[|run| - 1], step)
    ensures IsRun(longer) && longer[|longer| - 1] == Apply(run[|run| - 1], step)
  {
    longer := run + [Apply(run[|run| - 1], step)];
    forall i | 0 <= i < |longer| - 1 ensures Next(longer[i], longer[i + 1]) {
      if i < |run| - 1 { assert Next(run[i], run[i + 1]); }
    }
  }

  /** A drain that takes and counts an event before its emitter does leaves an idle, empty bus that reports more. */
  lemma SaturationWitness(stream: string, id: nat) returns (run: seq<State>)
    ensures IsRun(run) && Saturated(run, |run| - 1)
    ensures var s := run[|run| - 1];
            s.holder.Free? && s.receiver.Idle? && s.bus.queue == [] && s.bus.dropped == 0 && HasMore(s)
  {
    run := [State(Bus(1, [], {}, {}, map[], 0, 0), Free, Idle, [], [], 0, 0, 0, false, {})];
    run := Extend(run, EmitBegin(stream, None, id));
    run := Extend(run, EmitSend);
    run := Extend(run, LockReceiver);
    run := Extend(run, Receive);
    run := Extend(run, CountReceived);
    run := Extend(run, EmitCount);
    run := Extend(run, UnlockReceiver);
    CounterIsExactUntilSaturated(run, |run| - 1);
  }

  /** On every stream the delivered sequence numbers strictly rise, across purges too. */
  lemma DeliveredRise(run: seq<State>, i: nat, m: nat, n: nat)
    requires IsRun(run) && i < |run| && m < n < |run[i].delivered|
    requires run[i].delivered[m].stream == run[i].delivered[n].stream
    requires run[i].delivered[m].stream == GAP_STREAM ==> !run[i].gapShared
    ensures run[i].delivered[m].sequence < run[i].delivered[n].sequence
  {
    InvHolds(run, i);
    assert Ascends(Line(run[i])[m], Line(run[i])[n], run[i].gapShared);
  }

  lemma RunDeliversNothingSwept(run: seq<State>, i: nat, p: (string, set<string>))
    requires IsRun(run) && i + 1 < |run| && p in run[i].swept
    ensures p in run[i + 1].swept && NothingDelivered(run[i], run[i + 1], p)
  {
    InvHolds(run, i);
    assert Next(run[i], run[i + 1]);
    var step :| Enabled(run[i], step) && run[i + 1] == Apply(run[i], step);
    StepDeliversNothingSwept(run[i], step, p);
  }

  lemma NothingDeliveredTransitive(s: State, s': State, s'': State, p: (string, set<string>))
    requires NothingDelivered(s, s', p) && NothingDelivered(s', s'', p)
    ensures NothingDelivered(s, s'', p)
  {
    var n, n' := |s.delivered|, |s'.delivered|;
    assert s''.delivered[n..] == s'.delivered[n..] + s''.delivered[n'..];
  }

  /** After a sweep, in every continuation, drains take nothing of the purged session. */
  lemma {:induction false} SweptStaysSilent(run: seq<State>, i: nat, j: nat, p: (string, set<string>))
    requires IsRun(run) && i <= j < |run| && p in run[i].swept
    ensures p in run[j].swept && NothingDelivered(run[i], run[j], p)
    decreases j
  {
    if i < j {
      SweptStaysSilent(run, i, j - 1, p);
      RunDeliversNothingSwept(run, j - 1, p);
      NothingDeliveredTransitive(run[i], run[j - 1], run[j], p);
    }
  }

  /** Events no tombstone covers are never lost once queued and never change their relative order. */
  lemma {:induction false} UnrelatedSurvive(run: seq<State>, i: nat, j: nat)
    requires IsRun(run) && i <= j < |run|
    ensures run[i].bus.suppressedStreams <= run[j].bus.suppressedStreams
    ensures run[i].bus.suppressedOperations <= run[j].bus.suppressedOperations
    ensures Unrelated(Stream(run[i]), run[j]) <= Unrelated(Stream(run[j]), run[j])
    decreases j
  {
    if i < j {
      var s, s' := run[j - 1], run[j];
      UnrelatedSurvive(run, i, j - 1);
      assert Next(s, run[j - 1 + 1]);
      var step :| Enabled(s, step) && s' == Apply(s, step);
      InvHolds(run, j - 1);
      StepKeepsUnrelated(s, step);
      KeepCoarser(Stream(run[i]), Stream(s), s.bus.suppressedStreams, s.bus.suppressedOperations,
        s'.bus.suppressedStreams, s'.bus.suppressedOperations);
    }
  }
}
