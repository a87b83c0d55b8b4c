/**
 Ending a Temporary Chat while its producers are still running.

 `end_temporary_chat` is three actions: the session ends, the event bus gets
 its tombstones, the queue is swept.  Emitters, drains, operation creation,
 finishing and cancelling run in between in any order.
 */
module TemporaryChats {
  import opened Prelude
  import opened EventBuses
  import opened EphemeralChats
  import Bus = BusRuns

  const LIFECYCLE_STREAM := "application:temporary-chat"

  /** The lifecycle signal does not go out on a stream that dies with the session. */
  lemma LifecycleIsApart(conversation: string, operations: set<string>)
    ensures LIFECYCLE_STREAM !in SessionStreams(conversation, operations)
  {
    assert LIFECYCLE_STREAM[0] == 'a' && ConversationStream(conversation)[0] == 'c';
    assert forall id <- operations :: OperationStream(id)[0] == 'o';
  }

  /** The queue after the end of a session: the others' events as they were, followed at most by the lifecycle signal. */
  ghost predicate Erased(before: seq<Event>, after: seq<Event>, conversation: string, operations: set<string>) {
    var streams := SessionStreams(conversation, operations);
    var kept := Keep(before, streams, operations);
    && (after == kept || (after != [] && after == kept + [after[|after| - 1]] && IsSignal(after[|after| - 1], |before| - |kept|)))
    && forall e <- after :: !Hit(e.stream, e.operation, streams, operations)
  }

  /** The lifecycle signal tells how many events the purge removed. */
  predicate IsSignal(e: Event, removed: int) {
    e.stream == LIFECYCLE_STREAM && e.operation.None? && e.body.Payload? && e.body.id == removed
  }

  /** `end_temporary_chat` with nothing in between; `valid` is whether both ids parse. */
  method EndTemporaryChat(chats: EphemeralChatState, events: EventBus, key: Key, valid: bool) returns (ended: bool)
    requires chats.View().Valid() && events.View().Valid()
    modifies chats, events
    ensures chats.View().Valid() && events.View().Valid()
    ensures ended <==> valid && key in old(chats.conversations)
    ensures !ended ==> chats.View() == old(chats.View()) && events.View() == old(events.View())
    ensures ended ==>
              && chats.View() == Ended(old(chats.View()), key) && StateOf(chats.View(), key) == Retired
              && Erased(old(events.queue), events.queue, key.0, old(chats.operationIds[key]))
  {
    if !valid { return false; }
    var ids := chats.End(key);
    if ids.None? { return false; }
    var removed := events.PurgeTemporaryChat(key.0, ids.value);
    ghost var swept := events.queue;
    events.Emit(LIFECYCLE_STREAM, None, Payload(removed));
    SweptIsErased(old(events.queue), events.queue, key.0, ids.value);
    return true;
  }

  lemma SweptIsErased(before: seq<Event>, after: seq<Event>, conversation: string, operations: set<string>)
    requires var kept := Keep(before, SessionStreams(conversation, operations), operations);
             after == kept || exists e: Event :: IsSignal(e, |before| - |kept|) && after == kept + [e]
    ensures Erased(before, after, conversation, operations)
  {
    var streams := SessionStreams(conversation, operations);
    LifecycleIsApart(conversation, operations);
    forall e <- after ensures !Hit(e.stream, e.operation, streams, operations) {
      KeepMember(before, streams, operations, e);
    }
  }

  datatype State = State(
    bus: Bus.State,
    chat: Chat,
    /** Ended sessions whose purge has not finished, with the operation ids that `End` returned. */
    ending: map<Key, set<string>>,
    /** The session whose purge holds the queue lock. */
    sweeping: Option<Key>,
    // History, read by no step.
    created: map<Key, set<string>>,
    purged: set<Key>)

  datatype Step =
    | OnBus(busStep: Bus.Step)
    | Begin(key: Key)
    | Append(key: Key, message: Message)
    | Create(key: Key, id: string, token: Token)
    | Finish(id: string)
    | Cancel(id: string)
    | End(key: Key)
    | Tombstone(key: Key)
    | Sweep(key: Key)

  /** Every operation id ever created in the session. */
  function CreatedIn(s: State, key: Key): set<string> {
    if key in s.created then s.created[key] else {}
  }

  ghost predicate Init(s: State) {
    Bus.Init(s.bus) && s.chat == NO_CHATS && s.ending == map[] && s.sweeping == None && s.created == map[] && s.purged == {}
  }

  predicate Enabled(s: State, step: Step) {
    match step
    case OnBus(busStep) => !busStep.Tombstone? && !busStep.Sweep? && Bus.Enabled(s.bus, busStep)
    case Tombstone(key) => key in s.ending && Bus.Enabled(s.bus, Bus.Step.Tombstone(key.0, s.ending[key]))
    case Sweep(key) => s.sweeping == Some(key) && Bus.Enabled(s.bus, Bus.Step.Sweep)
    case _ => true
  }

  function Apply(s: State, step: Step): State
    requires Enabled(s, step)
  {
    match step
    case OnBus(busStep) => s.(bus := Bus.Apply(s.bus, busStep))
    case Begin(key) => s.(chat := Begun(s.chat, key))
    case Append(key, message) => s.(chat := Appended(s.chat, key, message))
    case Create(key, id, token) =>
      s.(chat := Created(s.chat, key, id, token),
         created := if key in s.chat.conversations && key in s.chat.operationIds
                    then s.created[key := CreatedIn(s, key) + {id}] else s.created)
    case Finish(id) => s.(chat := Finished(s.chat, id))
    case Cancel(id) => s.(chat := Cancelled(s.chat, id))
    case End(key) =>
      s.(chat := Ended(s.chat, key),
         ending := if key in s.chat.conversations && key in s.chat.operationIds
                   then s.ending[key := s.chat.operationIds[key]] else s.ending)
    case Tombstone(key) =>
      s.(bus := Bus.Apply(s.bus, Bus.Step.Tombstone(key.0, s.ending[key])), sweeping := Some(key))
    case Sweep(key) =>
      s.(bus := Bus.Apply(s.bus, Bus.Step.Sweep), sweeping := None,
         ending := s.ending - {key}, purged := s.purged + {key})
  }

  ghost predicate Next(s: State, s': State) {
    exists step :: Enabled(s, step) && s' == Apply(s, step)
  }

  ghost predicate IsRun(run: seq<State>) {
    && |run| > 0
    && Init(run[0])
    && forall i :: 0 <= i < |run| - 1 ==> Next(run[i], run[i + 1])
  }

  /** What a session remembers, what its purge is given and what was swept are all it ever created. */
  ghost predicate Remembered(s: State) {
    && (forall key <- s.created :: key in s.chat.conversations || key in s.chat.retired)
    && (forall key <- s.chat.operationIds :: s.chat.operationIds[key] == CreatedIn(s, key))
    && (forall key <- s.ending :: key in s.chat.retired && s.ending[key] == CreatedIn(s, key))
    && (forall key <- s.purged :: key in s.chat.retired && (key.0, CreatedIn(s, key)) in s.bus.swept)
  }

  ghost predicate LockAgrees(s: State) {
    match s.sweeping
    case None => !s.bus.holder.Purging?
    case Some(key) => key in s.ending && s.bus.holder == Bus.Purging(key.0, s.ending[key])
  }

  ghost predicate Inv(s: State) {
    s.chat.Valid() && Remembered(s) && LockAgrees(s)
  }

  lemma InvSweep(s: State, step: Step)
    requires Inv(s) && Enabled(s, step) && step.Sweep?
    ensures Inv(Apply(s, step))
  {
    assert (step.key.0, CreatedIn(s, step.key)) in Apply(s, step).bus.swept;
  }

  lemma InvBus(s: State, step: Step)
    requires Inv(s) && Enabled(s, step) && (step.OnBus? || step.Tombstone? || step.Sweep?)
    ensures Inv(Apply(s, step))
  {
    var s' := Apply(s, step);
    assert s'.chat == s.chat && s'.created == s.created;
    match step
    case OnBus(busStep) =>
      assert s.bus.swept == s'.bus.swept;
    case Tombstone(key) =>
    case Sweep(key) => InvSweep(s, step);
  }

  ghost predicate OnChat(step: Step) { !step.OnBus? && !step.Tombstone? && !step.Sweep? }

  lemma ValidNext(s: State, step: Step)
    requires s.chat.Valid() && Enabled(s, step) && OnChat(step)
    ensures Apply(s, step).chat.Valid()
  {
    match step
    case Begin(key) => ActionsKeepValid(s.chat, key, "", 0, 0);
    case Append(key, message) => ActionsKeepValid(s.chat, key, "", 0, message);
    case Create(key, id, token) => ActionsKeepValid(s.chat, key, id, token, 0);
    case Finish(id) => ActionsKeepValid(s.chat, ("", ""), id, 0, 0);
    case Cancel(id) => ActionsKeepValid(s.chat, ("", ""), id, 0, 0);
    case End(key) => EndedValid(s.chat, key);
  }

  lemma RememberedCreate(s: State, step: Step)
    requires Remembered(s) && Enabled(s, step) && step.Create?
    requires s.chat.operationIds.Keys == s.chat.conversations.Keys && s.chat.conversations.Keys !! s.chat.retired
    ensures Remembered(Apply(s, step))
  {
  }

  lemma RememberedEnd(s: State, step: Step)
    requires Remembered(s) && Enabled(s, step) && step.End?
    requires s.chat.operationIds.Keys == s.chat.conversations.Keys && s.chat.conversations.Keys !! s.chat.retired
    ensures Remembered(Apply(s, step))
  {
  }

  lemma RememberedNext(s: State, step: Step)
    requires Remembered(s) && Enabled(s, step) && OnChat(step)
    requires s.chat.operationIds.Keys == s.chat.conversations.Keys && s.chat.conversations.Keys !! s.chat.retired
    ensures Remembered(Apply(s, step))
  {
    if step.Create? {
      RememberedCreate(s, step);
    } else if step.End? {
      RememberedEnd(s, step);
    }
  }

  lemma LockAgreesNext(s: State, step: Step)
    requires s.chat.Valid() && Remembered(s) && LockAgrees(s) && Enabled(s, step) && OnChat(step)
    ensures LockAgrees(Apply(s, step))
  {
  }

  lemma InvChat(s: State, step: Step)
    requires Inv(s) && Enabled(s, step) && OnChat(step)
    ensures Inv(Apply(s, step))
  {
    ValidNext(s, step);
    RememberedNext(s, step);
    LockAgreesNext(s, step);
  }

  lemma InvNext(s: State, step: Step)
    requires Inv(s) && Enabled(s, step)
    ensures Inv(Apply(s, step))
  {
    if step.OnBus? || step.Tombstone? || step.Sweep? { InvBus(s, step); } else { InvChat(s, step); }
  }

  lemma {:induction false} InvHolds(run: seq<State>, i: nat)
    requires IsRun(run) && i < |run|
    ensures Inv(run[i])
  {
    if i > 0 {
      InvHolds(run, i - 1);
      assert Next(run[i - 1], run[i - 1 + 1]);
      var step :| Enabled(run[i - 1], step) && run[i] == Apply(run[i - 1], step);
      InvNext(run[i - 1], step);
    }
  }

  ghost function BusOf(run: seq<State>): seq<Bus.State> {
    seq(|run|, i requires 0 <= i < |run| => run[i].bus)
  }

  lemma BusStep(s: State, s': State)
    requires Next(s, s')
    ensures Bus.Next(s.bus, s'.bus)
  {
    var step :| Enabled(s, step) && s' == Apply(s, step);
    var busStep := match step
      case OnBus(b) => b
      case Tombstone(key) => Bus.Step.Tombstone(key.0, s.ending[key])
      case Sweep(_) => Bus.Step.Sweep
      case _ => Bus.Elsewhere;
    assert Bus.Enabled(s.bus, busStep) && s'.bus == Bus.Apply(s.bus, busStep);
  }

  lemma BusRun(run: seq<State>)
    requires IsRun(run)
    ensures Bus.IsRun(BusOf(run))
  {
    forall i | 0 <= i < |run| - 1 ensures Bus.Next(BusOf(run)[i], BusOf(run)[i + 1]) {
      assert Next(run[i], run[i + 1]);
      BusStep(run[i], run[i + 1]);
    }
  }

  lemma ActionAges(s: State, step: Step, key: Key)
    requires s.chat.operationIds.Keys == s.chat.conversations.Keys && s.chat.conversations.Keys !! s.chat.retired
    requires Enabled(s, step) && OnChat(step)
    ensures Aged(s, Apply(s, step), key)
    ensures StateOf(s.chat, key) == Absent ==> StateOf(Apply(s, step).chat, key) != Retired
  {
  }

  /** From `s` to `s'` the session got no younger; once retired, it creates nothing. */
  ghost predicate Aged(s: State, s': State, key: Key) {
    && (StateOf(s.chat, key) == Retired ==> StateOf(s'.chat, key) == Retired && CreatedIn(s', key) == CreatedIn(s, key))
    && (StateOf(s.chat, key) == Active ==> StateOf(s'.chat, key) != Absent)
  }

  lemma StepAges(s: State, s': State, key: Key)
    requires s.chat.Valid() && Next(s, s')
    ensures Aged(s, s', key) && (StateOf(s.chat, key) == Absent ==> StateOf(s'.chat, key) != Retired)
  {
    var step :| Enabled(s, step) && s' == Apply(s, step);
    if OnChat(step) {
      ActionAges(s, step, key);
    } else {
      assert s'.chat == s.chat && s'.created == s.created;
    }
  }

  lemma AgesAlong(run: seq<State>, i: nat, key: Key)
    requires IsRun(run) && i + 1 < |run|
    ensures Aged(run[i], run[i + 1], key)
    ensures StateOf(run[i].chat, key) == Absent ==> StateOf(run[i + 1].chat, key) != Retired
  {
    InvHolds(run, i);
    assert Next(run[i], run[i + 1]);
    StepAges(run[i], run[i + 1], key);
  }

  /** A session cannot come back once ended, and an ended session never creates another operation. */
  lemma {:induction false} SessionsOnlyAge(run: seq<State>, i: nat, j: nat, key: Key)
    requires IsRun(run) && i <= j < |run|
    ensures Aged(run[i], run[j], key)
    decreases j
  {
    if i < j {
      SessionsOnlyAge(run, i, j - 1, key);
      AgesAlong(run, j - 1, key);
    }
  }

  /** Between absent and retired a session has been active. */
  lemma RetiredThroughActive(run: seq<State>, i: nat, j: nat, key: Key) returns (k: nat)
    requires IsRun(run) && i <= j < |run|
    requires StateOf(run[i].chat, key) == Absent && StateOf(run[j].chat, key) == Retired
    ensures i < k < j && StateOf(run[k].chat, key) == Active
  {
    var states := seq(|run|, n requires 0 <= n < |run| => StateOf(run[n].chat, key));
    forall n | 0 <= n < |states| - 1 ensures states[n] == Absent ==> states[n + 1] != Retired { AgesAlong(run, n, key); }
    k := ThroughActive(states, i, j);
  }

  /**
   Erasure.  Once the purge of a session has run, no drain in any continuation
   takes an event on its conversation stream, or on the stream or with the id
   of any operation ever created in the session.
   */
  lemma Erasure(run: seq<State>, i: nat, j: nat, key: Key)
    requires IsRun(run) && i <= j < |run| && key in run[i].purged
    ensures run[i].bus.delivered <= run[j].bus.delivered
    ensures forall e <- run[j].bus.delivered[|run[i].bus.delivered|..] ::
              && e.stream != ConversationStream(key.0)
              && forall id <- CreatedIn(run[j], key) :: e.stream != OperationStream(id) && e.operation != Some(id)
  {
    InvHolds(run, i);
    SessionsOnlyAge(run, i, j, key);
    BusRun(run);
    var p := (key.0, CreatedIn(run[i], key));
    Bus.SweptStaysSilent(BusOf(run), i, j, p);
    assert BusOf(run)[i] == run[i].bus && BusOf(run)[j] == run[j].bus;
    forall e | e in run[j].bus.delivered[|run[i].bus.delivered|..]
      ensures e.stream != ConversationStream(key.0)
      ensures forall id <- CreatedIn(run[j], key) :: e.stream != OperationStream(id) && e.operation != Some(id)
    {
      assert !Hit(e.stream, e.operation, SessionStreams(p.0, p.1), p.1);
      forall id | id in CreatedIn(run[j], key) ensures e.stream != OperationStream(id) && e.operation != Some(id) {
        assert OperationStream(id) in SessionStreams(p.0, p.1);
      }
    }
  }

  // ---- the events of others ----------------------------------------------------------------

  /** The streams and operation ids of all sessions that have ended. */
  function EndedStreams(s: State): set<string> {
    set key, stream | key in s.chat.retired && stream in SessionStreams(key.0, CreatedIn(s, key)) :: stream
  }

  function EndedOperations(s: State): set<string> {
    set key, id | key in s.chat.retired && id in CreatedIn(s, key) :: id
  }

  /** Nothing is suppressed but the streams and operations of sessions that have ended. */
  ghost predicate OnlyEndedSuppressed(s: State) {
    s.bus.bus.suppressedStreams <= EndedStreams(s) && s.bus.bus.suppressedOperations <= EndedOperations(s)
  }

  lemma EndedGrow(s: State, s': State)
    requires s.chat.Valid() && Next(s, s')
    ensures EndedStreams(s) <= EndedStreams(s') && EndedOperations(s) <= EndedOperations(s')
  {
    forall key <- s.chat.retired ensures key in s'.chat.retired && CreatedIn(s', key) == CreatedIn(s, key) {
      StepAges(s, s', key);
      assert key !in s.chat.conversations;
    }
  }

  lemma TombstoneCovers(s: State, key: Key)
    requires Remembered(s) && key in s.ending
    ensures SessionStreams(key.0, s.ending[key]) <= EndedStreams(s) && s.ending[key] <= EndedOperations(s)
  {
  }

  /** Only the first half of a purge suppresses anything. */
  lemma SuppressedNext(s: State, step: Step)
    requires Enabled(s, step)
    ensures var b, b' := s.bus.bus, Apply(s, step).bus.bus;
            && b'.suppressedStreams == b.suppressedStreams +
                 (if step.Tombstone? then SessionStreams(step.key.0, s.ending[step.key]) else {})
            && b'.suppressedOperations == b.suppressedOperations + (if step.Tombstone? then s.ending[step.key] else {})
  {
  }

  lemma OnlyEndedNext(s: State, step: Step)
    requires Remembered(s) && OnlyEndedSuppressed(s) && Enabled(s, step)
    requires EndedStreams(s) <= EndedStreams(Apply(s, step)) && EndedOperations(s) <= EndedOperations(Apply(s, step))
    ensures OnlyEndedSuppressed(Apply(s, step))
  {
    SuppressedNext(s, step);
    if step.Tombstone? { TombstoneCovers(s, step.key); }
  }

  lemma OnlyEndedAlong(run: seq<State>, i: nat)
    requires IsRun(run) && i + 1 < |run| && OnlyEndedSuppressed(run[i])
    ensures OnlyEndedSuppressed(run[i + 1])
  {
    InvHolds(run, i);
    assert Next(run[i], run[i + 1]);
    EndedGrow(run[i], run[i + 1]);
    var step :| Enabled(run[i], step) && run[i + 1] == Apply(run[i], step);
    OnlyEndedNext(run[i], step);
  }

  lemma {:induction false} OnlyEndedHolds(run: seq<State>, i: nat)
    requires IsRun(run) && i < |run|
    ensures OnlyEndedSuppressed(run[i])
  {
    if i > 0 {
      OnlyEndedHolds(run, i - 1);
      OnlyEndedAlong(run, i - 1);
    }
  }

  /** The events that no ended session covers. */
  function Others(events: seq<Event>, s: State): seq<Event> {
    Keep(events, EndedStreams(s), EndedOperations(s))
  }

  /** An event is a session's when it is on one of its streams or carries one of its operation ids. */
  predicate Covers(s: State, key: Key, e: Event) {
    Hit(e.stream, e.operation, SessionStreams(key.0, CreatedIn(s, key)), CreatedIn(s, key))
  }

  /**
   Events that no ended session covers are neither lost from the queue nor
   reordered: each is still queued or has been delivered.
   */
  lemma OthersSurvive(run: seq<State>, i: nat, j: nat, e: Event)
    requires IsRun(run) && i <= j < |run|
    ensures Others(Bus.Stream(run[i].bus), run[j]) <= Others(Bus.Stream(run[j].bus), run[j])
    ensures e in run[i].bus.bus.queue && (forall key <- run[j].chat.retired :: !Covers(run[j], key, e)) ==>
              e in run[j].bus.bus.queue || e in run[j].bus.delivered
  {
    BusRun(run);
    Bus.UnrelatedSurvive(BusOf(run), i, j);
    OnlyEndedHolds(run, j);
    var before, after, s := Bus.Stream(run[i].bus), Bus.Stream(run[j].bus), run[j];
    KeepCoarser(before, after, s.bus.bus.suppressedStreams, s.bus.bus.suppressedOperations, EndedStreams(s), EndedOperations(s));
    KeepMember(before, EndedStreams(s), EndedOperations(s), e);
    KeepMember(after, EndedStreams(s), EndedOperations(s), e);
    Bus.PayloadsMember(run[j].bus.delivered, e);
  }

  lemma Extend(run: seq<State>, step: Step) returns (longer: seq<State>)
    requires IsRun(run) && Enabled(run[|run| - 1], step)
    ensures IsRun(longer) && longer == run + [Apply(run[|run| - 1], step)]
  {
    longer := run + [Apply(run[|run| - 1], step)];
    forall i | 0 <= i < |longer| - 1 ensures Next(longer[i], longer[i + 1]) {
      if i < |run| - 1 { assert Next(run[i], run[i + 1]); }
    }
  }

  /** Two active sessions that were given the same operation id, with nothing queued. */
  lemma TwoSessions(a: Key, b: Key, id: string) returns (run: seq<State>)
    requires a != b
    ensures IsRun(run)
    ensures var s := run[|run| - 1];
            && s.chat.conversations.Keys == {a, b} && s.chat.operationIds == map[a := {id}, b := {id}]
            && s.chat.retired == {} && s.ending == map[] && s.created == map[a := {id}, b := {id}] && s.sweeping == None
            && s.bus == run[0].bus && s.bus.bus.capacity == 1
  {
    run := [State(Bus.State(EventBuses.Bus.Bus(1, [], {}, {}, map[], 0, 0), Bus.Free, Bus.Idle, [], [], 0, 0, 0, false, {}),
                  NO_CHATS, map[], None, map[], {})];
    assert Bus.Init(run[0].bus);
    run := Extend(run, Begin(a));
    run := Extend(run, Begin(b));
    var none: set<string> := {};
    assert run[|run| - 1].chat.operationIds == map[a := none, b := none] && none + {id} == {id};
    run := Extend(run, Create(a, id, 0));
    run := Extend(run, Create(b, id, 1));
  }

  /** One event with that id is queued. */
  lemma OneQueued(a: Key, b: Key, id: string) returns (run: seq<State>, e: Event)
    requires a != b
    ensures IsRun(run) && e.operation == Some(id)
    ensures var s := run[|run| - 1];
            && s.chat.conversations.Keys == {a, b} && s.chat.operationIds == map[a := {id}, b := {id}]
            && s.chat.retired == {} && s.ending == map[] && s.created == map[a := {id}, b := {id}] && s.sweeping == None
            && s.bus.bus.queue == [e] && s.bus.delivered == [] && s.bus.holder.Free? && s.bus.receiver.Idle?
  {
    run := TwoSessions(a, b, id);
    assert Bus.Init(run[0].bus);
    e := Build(run[|run| - 1].bus.bus, OperationStream(id), Some(id), Payload(0));
    run := Extend(run, OnBus(Bus.EmitBegin(OperationStream(id), Some(id), 0)));
    run := Extend(run, OnBus(Bus.EmitSend));
    run := Extend(run, OnBus(Bus.EmitCount));
  }

  /** The first of them has ended and its tombstones are set. */
  lemma OneEnded(a: Key, b: Key, id: string) returns (run: seq<State>, i: nat, e: Event)
    requires a != b
    ensures IsRun(run) && i < |run| && e in run[i].bus.bus.queue && Covers(run[i], b, e) && e.operation == Some(id)
    ensures var s := run[|run| - 1];
            && StateOf(s.chat, b) == Active && s.sweeping == Some(a) && s.bus.bus.queue == [e] && s.bus.delivered == []
            && s.bus.holder == Bus.Purging(a.0, {id}) && s.bus.receiver.Idle?
  {
    run, e := OneQueued(a, b, id);
    i := |run| - 1;
    run := Extend(run, End(a));
    run := Extend(run, Tombstone(a));
  }

  /** Callers may give two sessions the same operation id; then ending one removes a queued event of the other. */
  lemma SharedOperationWitness(a: Key, b: Key, id: string) returns (run: seq<State>, i: nat, e: Event)
    requires a != b
    ensures IsRun(run) && i < |run| && e in run[i].bus.bus.queue && Covers(run[i], b, e)
    ensures var s := run[|run| - 1]; StateOf(s.chat, b) == Active && e !in s.bus.bus.queue && e !in s.bus.delivered
  {
    run, i, e := OneEnded(a, b, id);
    KeepMember([e], SessionStreams(a.0, {id}), {id}, e);
    run := Extend(run, Sweep(a));
  }
}
