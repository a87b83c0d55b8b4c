/**
 Routing chat messages to the process-local or to the durable history.

 A command reads the session state and acts on it in two separate actions, and
 a spawned task keeps the decision for as long as it runs.
 */
module ChatIsolation {
  import opened EphemeralChats

  /** How far an in-flight command has come; `Running` is its background task. */
  datatype Phase = Arrived | Routed(state: SessionState) | Running(temporary: bool)

  datatype Command = Command(key: Key, phase: Phase)

  datatype State = State(
    chat: Chat,
    durable: map<Key, seq<Message>>,
    commands: map<nat, Command>,
    /** History: the keys that have ever been an active Temporary Chat. */
    everActive: set<Key>)

  datatype Step =
    | Begin(key: Key)
    | End(key: Key)
    | Submit(id: nat, key: Key)
    | ReadState(id: nat)
    | AppendRouted(id: nat, message: Message)
    | Accept(id: nat, operation: string, token: Token)
    | AppendFromTask(id: nat, message: Message)
    | Done(id: nat)

  /** Hydration may have filled the durable map with anything. */
  ghost predicate Init(s: State) {
    s.chat == NO_CHATS && s.commands == map[] && s.everActive == {}
  }

  function History(s: State, key: Key): seq<Message> {
    if key in s.durable then s.durable[key] else []
  }

  predicate InFlight(s: State, key: Key) {
    exists id :: id in s.commands && s.commands[id].key == key
  }

  predicate Enabled(s: State, step: Step) {
    match step
    // The runtime mints the key: no in-flight command knows it, and its durable history is checked to be empty.
    case Begin(key) => !InFlight(s, key) && History(s, key) == []
    case End(_) => true
    case Submit(id, _) => id !in s.commands
    case ReadState(id) => id in s.commands && s.commands[id].phase.Arrived?
    case AppendRouted(id, _) => id in s.commands && s.commands[id].phase.Routed?
    case Accept(id, _, _) => id in s.commands && s.commands[id].phase.Routed?
    case AppendFromTask(id, _) => id in s.commands && s.commands[id].phase.Running?
    case Done(id) => id in s.commands
  }

  function AppendDurable(s: State, key: Key, message: Message): State {
    s.(durable := s.durable[key := History(s, key) + [message]])
  }

  function At(s: State, id: nat, phase: Phase): State
    requires id in s.commands
  {
    s.(commands := s.commands[id := s.commands[id].(phase := phase)])
  }

  function Apply(s: State, step: Step): State
    requires Enabled(s, step)
  {
    match step
    case Begin(key) =>
      s.(chat := Begun(s.chat, key),
         everActive := if MayBegin(s.chat, key) then s.everActive + {key} else s.everActive)
    case End(key) => s.(chat := Ended(s.chat, key))
    case Submit(id, key) => s.(commands := s.commands[id := Command(key, Arrived)])
    case ReadState(id) => At(s, id, Routed(StateOf(s.chat, s.commands[id].key)))
    case AppendRouted(id, message) =>
      var key := s.commands[id].key;
      var s' := match s.commands[id].phase.state
        case Active => s.(chat := Appended(s.chat, key, message))
        case Retired => s
        case Absent => AppendDurable(s, key, message);
      At(s', id, Arrived)
    case Accept(id, operation, token) =>
      var key := s.commands[id].key;
      (match s.commands[id].phase.state
       case Retired => s.(commands := s.commands - {id})
       case Absent => At(s, id, Running(false))
       case Active =>
         if key in s.chat.conversations
         then At(s.(chat := Created(s.chat, key, operation, token)), id, Running(true))
         else s.(commands := s.commands - {id}))
    case AppendFromTask(id, message) =>
      var key := s.commands[id].key;
      if s.commands[id].phase.temporary then s.(chat := Appended(s.chat, key, message))
      else AppendDurable(s, key, message)
    case Done(id) => s.(commands := s.commands - {id})
  }

  ghost predicate IsRun(run: seq<State>, steps: seq<Step>) {
    && |run| == |steps| + 1
    && Init(run[0])
    && forall i :: 0 <= i < |steps| ==> Enabled(run[i], steps[i]) && run[i + 1] == Apply(run[i], steps[i])
  }

  /** A command bound for the durable map never concerns a key that has been a Temporary Chat. */
  ghost predicate BoundForDurable(c: Command) {
    c.phase == Routed(Absent) || c.phase == Running(false)
  }

  ghost predicate Separate(s: State) {
    && s.everActive == s.chat.conversations.Keys + s.chat.retired
    && (forall key <- s.everActive :: History(s, key) == [])
    && (forall id <- s.commands :: BoundForDurable(s.commands[id]) ==> s.commands[id].key !in s.everActive)
  }

  ghost predicate Inv(s: State) { s.chat.Valid() && Separate(s) }

  lemma ValidNext(s: State, step: Step)
    requires s.chat.Valid() && Enabled(s, step)
    ensures Apply(s, step).chat.Valid()
  {
    match step
    case End(key) => EndedValid(s.chat, key);
    case Begin(key) => ActionsKeepValid(s.chat, key, "", 0, 0);
    case AppendRouted(id, message) => ActionsKeepValid(s.chat, s.commands[id].key, "", 0, message);
    case AppendFromTask(id, message) => ActionsKeepValid(s.chat, s.commands[id].key, "", 0, message);
    case Accept(id, operation, token) => ActionsKeepValid(s.chat, s.commands[id].key, operation, token, 0);
    case _ =>
  }

  lemma SeparateLifecycle(s: State, step: Step)
    requires Separate(s) && (step.Begin? || step.End?) && Enabled(s, step)
    ensures Separate(Apply(s, step))
  {
  }

  lemma SeparateDurable(s: State, key: Key, message: Message)
    requires Separate(s) && key !in s.everActive
    ensures Separate(AppendDurable(s, key, message))
  {
  }

  lemma SeparateTemporary(s: State, key: Key, message: Message)
    requires Separate(s)
    ensures Separate(s.(chat := Appended(s.chat, key, message)))
  {
    var c := Appended(s.chat, key, message);
    assert c.conversations.Keys == s.chat.conversations.Keys && c.retired == s.chat.retired;
  }

  lemma SeparateArrived(s: State, id: nat)
    requires Separate(s) && id in s.commands
    ensures Separate(At(s, id, Arrived))
  {
  }

  lemma SeparateRouting(s: State, step: Step)
    requires Separate(s) && (step.AppendRouted? || step.AppendFromTask?) && Enabled(s, step)
    ensures Separate(Apply(s, step))
  {
    var key := s.commands[step.id].key;
    if BoundForDurable(s.commands[step.id]) {
      SeparateDurable(s, key, step.message);
      if step.AppendRouted? { SeparateArrived(AppendDurable(s, key, step.message), step.id); }
    } else {
      SeparateTemporary(s, key, step.message);
      if step.AppendRouted? {
        SeparateArrived(s.(chat := Appended(s.chat, key, step.message)), step.id);
        SeparateArrived(s, step.id);
      }
    }
  }

  lemma SeparateNext(s: State, step: Step)
    requires Separate(s) && Enabled(s, step)
    ensures Separate(Apply(s, step))
  {
    if step.Begin? || step.End? {
      SeparateLifecycle(s, step);
    } else if step.AppendRouted? || step.AppendFromTask? {
      SeparateRouting(s, step);
    }
  }

  lemma InvNext(s: State, step: Step)
    requires Inv(s) && Enabled(s, step)
    ensures Inv(Apply(s, step))
  {
    ValidNext(s, step);
    SeparateNext(s, step);
  }

  lemma ActionAges(s: State, step: Step, key: Key)
    requires s.chat.conversations.Keys !! s.chat.retired && Enabled(s, step)
    requires step.Begin? || step.End? || step.AppendRouted? || step.AppendFromTask?
    ensures var c := Apply(s, step).chat;
            && (StateOf(s.chat, key) == Retired ==> StateOf(c, key) == Retired)
            && (StateOf(s.chat, key) == Active ==> StateOf(c, key) != Absent)
            && (StateOf(s.chat, key) == Absent ==> StateOf(c, key) != Retired)
  {
  }

  /** One step moves a key on by at most one, and never back. */
  lemma StepAges(s: State, step: Step, key: Key)
    requires s.chat.conversations.Keys !! s.chat.retired && Enabled(s, step)
    ensures var c := Apply(s, step).chat;
            && (StateOf(s.chat, key) == Retired ==> StateOf(c, key) == Retired)
            && (StateOf(s.chat, key) == Active ==> StateOf(c, key) != Absent)
            && (StateOf(s.chat, key) == Absent ==> StateOf(c, key) != Retired)
  {
    if step.Begin? || step.End? || step.AppendRouted? || step.AppendFromTask? {
      ActionAges(s, step, key);
    } else {
      var c := Apply(s, step).chat;
      assert c.conversations == s.chat.conversations && c.retired == s.chat.retired;
    }
  }

  lemma {:induction false} InvHolds(run: seq<State>, steps: seq<Step>, i: nat)
    requires IsRun(run, steps) && i < |run|
    ensures Inv(run[i])
  {
    if i > 0 {
      InvHolds(run, steps, i - 1);
      assert run[i - 1 + 1] == Apply(run[i - 1], steps[i - 1]);
      InvNext(run[i - 1], steps[i - 1]);
    }
  }

  lemma AgesAlong(run: seq<State>, steps: seq<Step>, i: nat, key: Key)
    requires IsRun(run, steps) && i < |steps|
    ensures var before, after := StateOf(run[i].chat, key), StateOf(run[i + 1].chat, key);
            && (before == Retired ==> after == Retired)
            && (before == Active ==> after != Absent)
            && (before == Absent ==> after != Retired)
  {
    InvHolds(run, steps, i);
    StepAges(run[i], steps[i], key);
  }

  /**
   Isolation.  A key never moves back, and from the moment it is Active no
   message for it is ever in the durable map.
   */
  lemma {:induction false} Isolation(run: seq<State>, steps: seq<Step>, i: nat, j: nat, key: Key)
    requires IsRun(run, steps) && i <= j < |run| && StateOf(run[i].chat, key) != Absent
    ensures StateOf(run[j].chat, key) != Absent
    ensures StateOf(run[i].chat, key) == Retired ==> StateOf(run[j].chat, key) == Retired
    ensures History(run[j], key) == []
    decreases j
  {
    InvHolds(run, steps, j);
    if i < j {
      Isolation(run, steps, i, j - 1, key);
      AgesAlong(run, steps, j - 1, key);
    }
  }

  /** Between absent and retired a key has been active. */
  lemma RetiredThroughActive(run: seq<State>, steps: seq<Step>, i: nat, j: nat, key: Key) returns (k: nat)
    requires IsRun(run, steps) && i <= j < |run|
    requires StateOf(run[i].chat, key) == Absent && StateOf(run[j].chat, key) == Retired
    ensures i < k < j && StateOf(run[k].chat, key) == Active
  {
    var states := seq(|run|, n requires 0 <= n < |run| => StateOf(run[n].chat, key));
    forall n | 0 <= n < |states| - 1 ensures states[n] == Absent ==> states[n + 1] != Retired { AgesAlong(run, steps, n, key); }
    k := ThroughActive(states, i, j);
  }
}
