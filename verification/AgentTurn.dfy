/**
 One agent turn: inference rounds under the watchdog's budgets, each followed
 by the messages of its tool calls, until the model answers or something ends
 the turn.  Clocks, the context builder, the backend, the tools and the sink
 answer as they like.
 */
module AgentTurns {
  import opened Prelude

  type Id = string
  datatype Role = User | Assistant | Tool

  /** What a message says, before it gets its place in the conversation. */
  datatype Draft = Draft(role: Role, content: string, tokens: Option<nat>)
  datatype Message = Message(id: Id, branch: Id, parent: Option<Id>, draft: Draft)

  datatype Kind = Iterations | Tokens | Seconds
  datatype Error =
    | WatchdogExceeded(kind: Kind)
    | Invariant
    | ContextFailed
    | Panicked
    | BackendFailed
    | ThermalThrottle
    | OutOfMemory
    | PersistFailed
    | ToolsFailed

  // ---- the watchdog --------------------------------------------------------------------

  /** The limits of a turn and when it started. */
  datatype Budget = Budget(maxIterations: nat, maxTokens: nat, maxWall: nat, start: nat) {
    predicate InTime(now: nat) { (if now <= start then 0 else now - start) < maxWall }
  }

  class Watchdog {
    var start: nat
    const maxIterations: nat
    const maxTokens: nat
    const maxWall: nat

    function Limits(): Budget
      reads this
    {
      Budget(maxIterations, maxTokens, maxWall, start)
    }

    constructor (maxIterations: nat, maxTokens: nat, maxWall: nat, now: nat)
      ensures this.maxIterations == maxIterations && this.maxTokens == maxTokens && this.maxWall == maxWall && start == now
    {
      this.maxIterations, this.maxTokens, this.maxWall, start := maxIterations, maxTokens, maxWall, now;
    }

    method Rearm(now: nat)
      modifies this
      ensures start == now
    {
      start := now;
    }

    /** The first exhausted budget, if any; a budget is exhausted as soon as it is reached. */
    method Check(iteration: nat, tokens: nat, now: nat) returns (tripped: Option<Kind>)
      ensures tripped.None? <==> iteration < maxIterations && tokens < maxTokens && MinusSat(now, start) < maxWall
      ensures tripped == Some(Iterations) <==> iteration >= maxIterations
      ensures tripped == Some(Tokens) <==> iteration < maxIterations && tokens >= maxTokens
    {
      if iteration >= maxIterations { return Some(Iterations); }
      if tokens >= maxTokens { return Some(Tokens); }
      if MinusSat(now, start) >= maxWall { return Some(Seconds); }
      return None;
    }

    function RemainingWallClock(now: nat): (r: nat)
      reads this
      ensures r <= maxWall && (r == 0 <==> MinusSat(now, start) >= maxWall)
    {
      MinusSat(maxWall, MinusSat(now, start))
    }

    function RemainingTokenBudget(tokens: nat): (r: nat)
      ensures tokens < maxTokens ==> r > 0 && tokens + r == maxTokens
      ensures tokens >= maxTokens ==> r == 0
    {
      MinusSat(maxTokens, tokens)
    }
  }

  // ---- one inference -------------------------------------------------------------------

  datatype Stop = Completed | UserStopped | ThermalKill | MemoryKill | WatchdogTripped

  /** What ends an attempt: the user, the deadline or the backend. */
  datatype Attempt =
    | UserCancelled
    | DeadlinePassed
    | BackendPanicked
    | BackendError
    | BackendDone(text: string, used: nat, stop: Stop)

  datatype Supervised = Answer(text: string, used: nat) | Stopped | Bad(error: Error)

  /** What an attempt that was granted `grant` tokens yields. */
  function Supervise(attempt: Attempt, grant: nat): (r: Supervised)
    ensures r.Answer? <==> attempt.BackendDone? && attempt.stop.Completed? && attempt.used <= grant
    ensures r.Answer? ==> r == Answer(attempt.text, attempt.used)
    ensures r != Bad(Invariant)
  {
    match attempt
    case UserCancelled => Stopped
    case DeadlinePassed => Bad(WatchdogExceeded(Seconds))
    case BackendPanicked => Bad(Panicked)
    case BackendError => Bad(BackendFailed)
    case BackendDone(text, used, stop) =>
      if used > grant then Bad(WatchdogExceeded(Tokens))
      else match stop
        case Completed => Answer(text, used)
        case UserStopped => Stopped
        case ThermalKill => Bad(ThermalThrottle)
        case MemoryKill => Bad(OutOfMemory)
        case WatchdogTripped => Bad(WatchdogExceeded(Seconds))
  }

  // ---- one round -----------------------------------------------------------------------

  datatype ToolOutcome = ToolOutcome(output: string, notice: Option<string>)
  datatype ToolRun = ToolsFail | ToolsDone(outcomes: seq<ToolOutcome>, blocked: Option<string>)

  /** What the answer turns out to contain. */
  datatype Calls =
    | NoCall
    | Unparsable(envelope: string)
    /** Rejected calls become envelopes; `tools` is absent when no call was accepted. */
    | Parsed(rejections: seq<string>, tools: Option<ToolRun>)

  /** Everything that the environment answers in one round. */
  datatype Round = Round(
    checkedAt: nat, cancelled: bool, contextBuilt: bool, startedAt: nat, attempt: Attempt, calls: Calls)

  function ToolDraft(content: string): Draft { Draft(Tool, content, None) }

  function AssistantDraft(text: string, used: nat): Draft { Draft(Assistant, text, Some(used % U32)) }

  function ToolDrafts(contents: seq<string>): seq<Draft> {
    seq(|contents|, i requires 0 <= i < |contents| => ToolDraft(contents[i]))
  }

  function OutcomeScript(outcome: ToolOutcome): seq<Draft> {
    [ToolDraft(outcome.output)] + if outcome.notice.Some? then [ToolDraft(outcome.notice.value)] else []
  }

  function OutcomeDrafts(outcomes: seq<ToolOutcome>): seq<Draft> {
    if outcomes == [] then []
    else OutcomeDrafts(outcomes[..|outcomes| - 1]) + OutcomeScript(outcomes[|outcomes| - 1])
  }

  /** The messages of the executed tools, in order. */
  function ToolScript(run: ToolRun): seq<Draft> {
    if run.ToolsFail? then []
    else OutcomeDrafts(run.outcomes) + if run.blocked.Some? then [ToolDraft(run.blocked.value)] else []
  }

  function CallScript(calls: Calls): seq<Draft> {
    match calls
    case NoCall => []
    case Unparsable(envelope) => [ToolDraft(envelope)]
    case Parsed(rejections, tools) => ToolDrafts(rejections) + if tools.Some? then ToolScript(tools.value) else []
  }

  /** The messages of a round that calls tools, in order. */
  function Script(text: string, used: nat, calls: Calls): seq<Draft> {
    [AssistantDraft(text, used)] + CallScript(calls)
  }

  function RoundScript(round: Round): seq<Draft> {
    if round.attempt.BackendDone? then Script(round.attempt.text, round.attempt.used, round.calls) else []
  }

  /** The messages of the first `n` rounds, all of which called tools. */
  function Scripts(rounds: nat -> Round, n: nat): seq<Draft> {
    if n == 0 then [] else Scripts(rounds, n - 1) + RoundScript(rounds(n - 1))
  }

  /** How many messages come before those of outcome `i`: one for each earlier outcome and one for each of their notices. */
  function Place(outcomes: seq<ToolOutcome>, i: nat): nat
    requires i <= |outcomes|
  {
    if i == 0 then 0 else Place(outcomes, i - 1) + if outcomes[i - 1].notice.Some? then 2 else 1
  }

  lemma {:induction false} PlaceFront(outcomes: seq<ToolOutcome>, n: nat, i: nat)
    requires i <= n <= |outcomes|
    ensures Place(outcomes[..n], i) == Place(outcomes, i)
  {
    if i > 0 { PlaceFront(outcomes, n, i - 1); }
  }

  /** Every outcome has its output, directly followed by its notice if it has one. */
  lemma {:induction false} OutcomeAt(outcomes: seq<ToolOutcome>, i: nat)
    requires i < |outcomes|
    ensures var s, at := OutcomeDrafts(outcomes), Place(outcomes, i);
            && |s| == Place(outcomes, |outcomes|)
            && at + (if outcomes[i].notice.Some? then 2 else 1) <= |s|
            && s[at] == Draft(Tool, outcomes[i].output, None)
            && (outcomes[i].notice.Some? ==> s[at + 1] == Draft(Tool, outcomes[i].notice.value, None))
  {
    var n := |outcomes| - 1;
    PlaceFront(outcomes, n, n);
    if n > 0 { OutcomeAt(outcomes[..n], if i < n then i else 0); }
    if i < n { PlaceFront(outcomes, n, i); }
  }

  /** The messages of parsed calls: an envelope for each rejected call, the outcomes, the directive. */
  lemma CallsMean(rejections: seq<string>, tools: Option<ToolRun>)
    ensures var s, n := CallScript(Parsed(rejections, tools)), |rejections|;
            && |s| >= n && (forall i :: 0 <= i < n ==> s[i] == Draft(Tool, rejections[i], None))
            && (tools.None? || tools.value.ToolsFail? ==> |s| == n)
            && (tools.Some? && tools.value.ToolsDone? ==>
                  s[n..] == OutcomeDrafts(tools.value.outcomes) +
                            if tools.value.blocked.Some? then [Draft(Tool, tools.value.blocked.value, None)] else [])
  {
    var s, n := CallScript(Parsed(rejections, tools)), |rejections|;
    assert s[..n] == ToolDrafts(rejections);
  }

  /** A round's messages: the assistant's, then one envelope for an answer that cannot be parsed, or those of its calls. */
  lemma ScriptMeans(text: string, used: nat, calls: Calls)
    ensures var s := Script(text, used, calls);
            && s[0] == Draft(Assistant, text, Some(used % 0x1_0000_0000)) && s[1..] == CallScript(calls)
            && (calls.Unparsable? ==> s[1..] == [Draft(Tool, calls.envelope, None)])
            && (calls.NoCall? ==> s[1..] == [])
  {
  }

  // ---- the conversation ----------------------------------------------------------------

  function Drafts(messages: seq<Message>): seq<Draft> {
    seq(|messages|, i requires 0 <= i < |messages| => messages[i].draft)
  }

  function LastId(first: Id, messages: seq<Message>): Id {
    if messages == [] then first else messages[|messages| - 1].id
  }

  /** Each message follows its predecessor, on the turn's branch. */
  ghost predicate Chained(first: Id, branch: Id, messages: seq<Message>) {
    messages == [] ||
    var n := |messages| - 1;
    && Chained(first, branch, messages[..n])
    && messages[n].branch == branch && messages[n].parent == Some(LastId(first, messages[..n]))
  }

  lemma ChainedAppend(first: Id, branch: Id, messages: seq<Message>, m: Message)
    requires Chained(first, branch, messages) && m.branch == branch && m.parent == Some(LastId(first, messages))
    ensures Chained(first, branch, messages + [m]) && LastId(first, messages + [m]) == m.id
  {
    assert (messages + [m])[..|messages|] == messages;
  }

  /** Read message by message: the parent of each is the one before it. */
  lemma {:induction false} ChainedMeans(first: Id, branch: Id, messages: seq<Message>, i: nat)
    requires Chained(first, branch, messages) && i < |messages|
    ensures messages[i].branch == branch && messages[i].parent == Some(if i == 0 then first else messages[i - 1].id)
  {
    if i < |messages| - 1 { ChainedMeans(first, branch, messages[..|messages| - 1], i); }
  }

  lemma DraftsAppend(messages: seq<Message>, m: Message)
    ensures Drafts(messages + [m]) == Drafts(messages) + [m.draft]
  {
  }

  /** Going from `before` to `after` wrote the script, or a beginning of it on failure. */
  ghost predicate Wrote(before: seq<Draft>, after: seq<Draft>, script: seq<Draft>, ok: bool) {
    after <= before + script && (ok ==> after == before + script)
  }

  lemma WroteBoth(before: seq<Draft>, middle: seq<Draft>, after: seq<Draft>, a: seq<Draft>, b: seq<Draft>, ok: bool)
    requires middle == before + a && Wrote(middle, after, b, ok)
    ensures Wrote(before, after, a + b, ok)
  {
    assert before + a + b == before + (a + b);
  }

  lemma WrotePart(before: seq<Draft>, after: seq<Draft>, a: seq<Draft>, b: seq<Draft>)
    requires Wrote(before, after, a, false)
    ensures Wrote(before, after, a + b, false)
  {
    assert before + a <= before + (a + b);
  }

  /** The history of a turn and its durable copy. */
  class Transcript {
    const first: Id
    const branch: Id
    const sink: bool
    const mint: nat -> Id
    const persists: nat -> bool
    var appended: seq<Message>
    var lastId: Id
    var persisted: seq<Message>

    ghost predicate Valid()
      reads this
    {
      && Chained(first, branch, appended) && lastId == LastId(first, appended)
      && persisted == if sink then appended else []
    }

    /** The next message cannot be persisted. */
    ghost predicate Blocked()
      reads this
    {
      sink && !persists(|appended|)
    }

    constructor (first: Id, branch: Id, sink: bool, mint: nat -> Id, persists: nat -> bool)
      ensures Valid() && appended == [] && this.first == first && this.branch == branch && this.sink == sink
      ensures this.mint == mint && this.persists == persists
    {
      this.first, this.branch, this.sink, this.mint, this.persists := first, branch, sink, mint, persists;
      appended, lastId, persisted := [], first, [];
    }

    /** Persists a message first, and appends it only if that succeeds. */
    method Append(draft: Draft) returns (ok: bool)
      requires Valid()
      modifies this
      ensures Valid()
      ensures Drafts(appended) == Drafts(old(appended)) + if ok then [draft] else []
      ensures Wrote(Drafts(old(appended)), Drafts(appended), [draft], ok)
      ensures ok <==> !old(Blocked())
      ensures appended == if ok then old(appended) + [Message(mint(|old(appended)|), branch, Some(old(lastId)), draft)] else old(appended)
    {
      var message := Message(mint(|appended|), branch, Some(lastId), draft);
      if sink {
        if !persists(|appended|) { return false; }
        persisted := persisted + [message];
      }
      ChainedAppend(first, branch, appended, message);
      DraftsAppend(appended, message);
      appended := appended + [message];
      lastId := message.id;
      return true;
    }

    method AppendAll(drafts: seq<Draft>) returns (ok: bool)
      requires Valid()
      modifies this
      ensures Valid() && Wrote(Drafts(old(appended)), Drafts(appended), drafts, ok)
      ensures !ok ==> Blocked()
    {
      var i := 0;
      while i < |drafts|
        invariant 0 <= i <= |drafts|
        invariant Valid()
        invariant Drafts(appended) == Drafts(old(appended)) + drafts[..i]
      {
        ok := Append(drafts[i]);
        if !ok { return; }
        i := i + 1;
      }
      ok := true;
    }
  }

  // ---- the turn ------------------------------------------------------------------------

  method AppendOutcome(t: Transcript, outcome: ToolOutcome) returns (ok: bool)
    requires t.Valid()
    modifies t
    ensures t.Valid() && Wrote(Drafts(old(t.appended)), Drafts(t.appended), OutcomeScript(outcome), ok)
    ensures !ok ==> t.Blocked()
  {
    ok := t.Append(ToolDraft(outcome.output));
    if !ok || outcome.notice.None? { return; }
    ok := t.Append(ToolDraft(outcome.notice.value));
  }

  method AppendOutcomes(t: Transcript, outcomes: seq<ToolOutcome>) returns (ok: bool)
    requires t.Valid()
    modifies t
    ensures t.Valid() && Wrote(Drafts(old(t.appended)), Drafts(t.appended), OutcomeDrafts(outcomes), ok)
    ensures !ok ==> t.Blocked()
  {
    ghost var before := Drafts(t.appended);
    var i := 0;
    while i < |outcomes|
      invariant 0 <= i <= |outcomes|
      invariant t.Valid()
      invariant Drafts(t.appended) == before + OutcomeDrafts(outcomes[..i])
    {
      ghost var middle := Drafts(t.appended);
      OutcomePrefix(outcomes, i);
      ok := AppendOutcome(t, outcomes[i]);
      WroteBoth(before, middle, Drafts(t.appended), OutcomeDrafts(outcomes[..i]), OutcomeScript(outcomes[i]), ok);
      if !ok { return; }
      i := i + 1;
    }
    assert outcomes[..i] == outcomes;
    ok := true;
  }

  lemma OutcomePrefix(outcomes: seq<ToolOutcome>, i: nat)
    requires i < |outcomes|
    ensures var before, after := OutcomeDrafts(outcomes[..i]), OutcomeDrafts(outcomes[..i + 1]);
            && after == before + OutcomeScript(outcomes[i])
            && after <= OutcomeDrafts(outcomes)
  {
    assert outcomes[..i + 1][..i] == outcomes[..i];
    OutcomeMonotone(outcomes, i + 1);
  }

  lemma {:induction false} OutcomeMonotone(outcomes: seq<ToolOutcome>, i: nat)
    requires i <= |outcomes|
    ensures OutcomeDrafts(outcomes[..i]) <= OutcomeDrafts(outcomes)
    decreases |outcomes| - i
  {
    if i == |outcomes| {
      assert outcomes[..i] == outcomes;
    } else {
      assert outcomes[..i + 1][..i] == outcomes[..i];
      OutcomeMonotone(outcomes, i + 1);
    }
  }

  method AppendTools(t: Transcript, run: ToolRun) returns (error: Option<Error>)
    requires t.Valid()
    modifies t
    ensures t.Valid() && Wrote(Drafts(old(t.appended)), Drafts(t.appended), ToolScript(run), error.None?)
    ensures error.None? || (error.value.PersistFailed? && t.Blocked()) || error.value.ToolsFailed?
    ensures error == Some(ToolsFailed) <==> run.ToolsFail?
  {
    ghost var before := Drafts(t.appended);
    if run.ToolsFail? { return Some(ToolsFailed); }
    var ok := AppendOutcomes(t, run.outcomes);
    if !ok { WrotePart(before, Drafts(t.appended), OutcomeDrafts(run.outcomes), ToolScript(run)[|OutcomeDrafts(run.outcomes)|..]); }
    if !ok { return Some(PersistFailed); }
    if run.blocked.None? { return None; }
    ghost var middle := Drafts(t.appended);
    ok := t.Append(ToolDraft(run.blocked.value));
    WroteBoth(before, middle, Drafts(t.appended), OutcomeDrafts(run.outcomes), [ToolDraft(run.blocked.value)], ok);
    return if ok then None else Some(PersistFailed);
  }

  /** The tools run and fail. */
  predicate ToolsBreak(calls: Calls) { calls.Parsed? && calls.tools.Some? && calls.tools.value.ToolsFail? }

  /** A round's messages end in error only because the sink refuses the next one or the tools fail; failing tools always do. */
  ghost predicate ToolErrorFits(calls: Calls, error: Option<Error>, blocked: bool) {
    && (error.None? ==> !ToolsBreak(calls))
    && (error.Some? ==> (error.value.PersistFailed? && blocked) || (error.value.ToolsFailed? && ToolsBreak(calls)))
  }

  method AppendCalls(t: Transcript, calls: Calls) returns (error: Option<Error>)
    requires t.Valid() && !calls.NoCall?
    modifies t
    ensures t.Valid() && Wrote(Drafts(old(t.appended)), Drafts(t.appended), CallScript(calls), error.None?)
    ensures ToolErrorFits(calls, error, t.Blocked())
  {
    ghost var before := Drafts(t.appended);
    match calls {
      case Unparsable(envelope) =>
        var ok := t.Append(ToolDraft(envelope));
        return if ok then None else Some(PersistFailed);
      case Parsed(rejections, tools) =>
        ghost var rest := if tools.Some? then ToolScript(tools.value) else [];
        var ok := t.AppendAll(ToolDrafts(rejections));
        if !ok { WrotePart(before, Drafts(t.appended), ToolDrafts(rejections), rest); }
        if !ok { return Some(PersistFailed); }
        if tools.None? { return None; }
        ghost var middle := Drafts(t.appended);
        error := AppendTools(t, tools.value);
        WroteBoth(before, middle, Drafts(t.appended), ToolDrafts(rejections), rest, error.None?);
    }
  }

  /** The messages of one round; a failure leaves a beginning of its script. */
  method ToolRound(t: Transcript, text: string, used: nat, calls: Calls) returns (error: Option<Error>)
    requires t.Valid() && !calls.NoCall?
    modifies t
    ensures t.Valid() && Wrote(Drafts(old(t.appended)), Drafts(t.appended), Script(text, used, calls), error.None?)
    ensures ToolErrorFits(calls, error, t.Blocked())
  {
    ghost var before := Drafts(t.appended);
    var ok := t.Append(AssistantDraft(text, used));
    if !ok { WrotePart(before, Drafts(t.appended), [AssistantDraft(text, used)], CallScript(calls)); }
    if !ok { return Some(PersistFailed); }
    ghost var middle := Drafts(t.appended);
    error := AppendCalls(t, calls);
    WroteBoth(before, middle, Drafts(t.appended), [AssistantDraft(text, used)], CallScript(calls), error.None?);
  }

  /** An inference call: the tokens it was granted and those its accepted answer used. */
  datatype Call = Call(grant: nat, used: Option<nat>)

  function Used(call: Call): nat { if call.used.Some? then call.used.value else 0 }

  function Spent(calls: seq<Call>): nat {
    if calls == [] then 0 else Spent(calls[..|calls| - 1]) + Used(calls[|calls| - 1])
  }

  /** Every call was granted exactly what the earlier ones left, used no more, and all but the last were answered. */
  ghost predicate Fair(calls: seq<Call>, maxTokens: nat) {
    calls == [] ||
    var earlier, last := calls[..|calls| - 1], calls[|calls| - 1];
    && Fair(earlier, maxTokens) && (earlier == [] || earlier[|earlier| - 1].used.Some?)
    && 0 < last.grant == maxTokens - Spent(earlier)
    && Used(last) <= last.grant
  }

  lemma {:induction false} FairNeverOverspends(calls: seq<Call>, maxTokens: nat)
    requires Fair(calls, maxTokens)
    ensures Spent(calls) <= maxTokens
  {
  }

  datatype Ending =
    | Finished(parent: Id, tokens: nat, content: string)
    | Cancelled(parent: Id)
    | Failed(error: Error)

  /** The accepted answers are those of the first rounds. */
  ghost predicate Answered(rounds: nat -> Round, calls: seq<Call>) {
    forall i :: 0 <= i < |calls| && calls[i].used.Some? ==>
      rounds(i).attempt.BackendDone? && rounds(i).attempt.used == calls[i].used.value
  }

  function Answers(calls: seq<Call>): nat {
    if calls != [] && calls[|calls| - 1].used.None? then |calls| - 1 else |calls|
  }

  predicate SeedOk(seed: seq<Message>, branch: Id) { seed != [] && forall m <- seed :: m.branch == branch }

  lemma FairAppend(calls: seq<Call>, call: Call, maxTokens: nat)
    requires Fair(calls, maxTokens) && (calls == [] || calls[|calls| - 1].used.Some?)
    requires call.grant > 0 && call.grant + Spent(calls) == maxTokens && Used(call) <= call.grant
    ensures Fair(calls + [call], maxTokens) && Spent(calls + [call]) == Spent(calls) + Used(call)
  {
    assert (calls + [call])[..|calls|] == calls;
  }

  /** What a turn has written when it ends. */
  ghost predicate WroteRounds(rounds: nat -> Round, calls: seq<Call>, drafts: seq<Draft>, ending: Ending) {
    var n := Answers(calls);
    match ending
    case Finished(_, tokens, content) =>
      && n == |calls| > 0 && drafts == Scripts(rounds, n - 1)
      && rounds(n - 1).attempt.BackendDone? && rounds(n - 1).calls.NoCall?
      && content == rounds(n - 1).attempt.text && tokens == rounds(n - 1).attempt.used % U32
    case Cancelled(_) => drafts == Scripts(rounds, n)
    case Failed(_) => drafts <= Scripts(rounds, n)
  }

  // ---- why a turn ends -------------------------------------------------------------------

  /** All budgets are left at the check of the round. */
  predicate Within(b: Budget, round: Round, i: nat, tokens: nat) {
    i < b.maxIterations && tokens < b.maxTokens && b.InTime(round.checkedAt)
  }

  /** The round gets to call the backend. */
  predicate Proceeds(b: Budget, round: Round, i: nat, tokens: nat) {
    Within(b, round, i, tokens) && !round.cancelled && round.contextBuilt && b.InTime(round.startedAt)
  }

  /** The backend comes back within the tokens that are left. */
  predicate Returns(b: Budget, round: Round, i: nat, tokens: nat) {
    Proceeds(b, round, i, tokens) && round.attempt.BackendDone? && tokens + round.attempt.used <= b.maxTokens
  }

  /** The backend's answer is accepted. */
  predicate Accepts(b: Budget, round: Round, i: nat, tokens: nat) {
    Returns(b, round, i, tokens) && round.attempt.stop.Completed?
  }

  /** The turn goes on after the round: an accepted answer with tool calls whose tools do not fail. */
  predicate GoesOn(b: Budget, round: Round, i: nat, tokens: nat) {
    Accepts(b, round, i, tokens) && !round.calls.NoCall? && !ToolsBreak(round.calls)
  }

  /** Why round `i` ends the turn as it does; `blocked` is whether the sink refuses the next message. */
  ghost predicate Because(b: Budget, round: Round, i: nat, tokens: nat, ending: Ending, blocked: bool) {
    match ending
    case Finished(_, n, content) =>
      Accepts(b, round, i, tokens) && round.calls.NoCall? && content == round.attempt.text && n == round.attempt.used % U32
    case Cancelled(_) =>
      || (Within(b, round, i, tokens) && round.cancelled)
      || (Proceeds(b, round, i, tokens) && round.attempt.UserCancelled?)
      || (Returns(b, round, i, tokens) && round.attempt.stop.UserStopped?)
    case Failed(WatchdogExceeded(Iterations)) => i >= b.maxIterations
    case Failed(WatchdogExceeded(Tokens)) =>
      || (i < b.maxIterations && tokens >= b.maxTokens)
      || (Proceeds(b, round, i, tokens) && round.attempt.BackendDone? && tokens + round.attempt.used > b.maxTokens)
    case Failed(WatchdogExceeded(Seconds)) =>
      || (i < b.maxIterations && tokens < b.maxTokens && !b.InTime(round.checkedAt))
      || (Within(b, round, i, tokens) && !round.cancelled && round.contextBuilt && !b.InTime(round.startedAt))
      || (Proceeds(b, round, i, tokens) && round.attempt.DeadlinePassed?)
      || (Returns(b, round, i, tokens) && round.attempt.stop.WatchdogTripped?)
    case Failed(ContextFailed) => Within(b, round, i, tokens) && !round.cancelled && !round.contextBuilt
    case Failed(Panicked) => Proceeds(b, round, i, tokens) && round.attempt.BackendPanicked?
    case Failed(BackendFailed) => Proceeds(b, round, i, tokens) && round.attempt.BackendError?
    case Failed(ThermalThrottle) => Returns(b, round, i, tokens) && round.attempt.stop.ThermalKill?
    case Failed(OutOfMemory) => Returns(b, round, i, tokens) && round.attempt.stop.MemoryKill?
    case Failed(PersistFailed) => Accepts(b, round, i, tokens) && !round.calls.NoCall? && blocked
    case Failed(ToolsFailed) => Accepts(b, round, i, tokens) && ToolsBreak(round.calls)
    case Failed(Invariant) => false
  }

  /** What the answers of the first `n` rounds used. */
  function UsedBefore(rounds: nat -> Round, n: nat): nat {
    if n == 0 then 0
    else UsedBefore(rounds, n - 1) + if rounds(n - 1).attempt.BackendDone? then rounds(n - 1).attempt.used else 0
  }

  ghost predicate GoneOn(b: Budget, rounds: nat -> Round, n: nat) {
    forall k :: 0 <= k < n ==> GoesOn(b, rounds(k), k, UsedBefore(rounds, k))
  }

  lemma GoneOnNext(b: Budget, rounds: nat -> Round, n: nat)
    requires GoneOn(b, rounds, n) && GoesOn(b, rounds(n), n, UsedBefore(rounds, n))
    ensures GoneOn(b, rounds, n + 1) && UsedBefore(rounds, n + 1) == UsedBefore(rounds, n) + rounds(n).attempt.used
  {
  }

  /** The turn goes on through every round before the last, and ends there as that round says. */
  ghost predicate EndsAt(b: Budget, rounds: nat -> Round, last: nat, ending: Ending, blocked: bool) {
    && GoneOn(b, rounds, last)
    && Because(b, rounds(last), last, UsedBefore(rounds, last), ending, blocked)
  }

  /** Up to the id of the last message. */
  predicate SameEnding(a: Ending, b: Ending) {
    match (a, b)
    case (Finished(_, m, text), Finished(_, n, other)) => m == n && text == other
    case (Cancelled(_), Cancelled(_)) => true
    case (Failed(e), Failed(f)) => e == f
    case _ => false
  }

  lemma OneCause(b: Budget, round: Round, i: nat, tokens: nat, e: Ending, f: Ending, blocked: bool)
    requires Because(b, round, i, tokens, e, blocked) && e != Failed(PersistFailed)
    ensures !GoesOn(b, round, i, tokens)
    ensures Because(b, round, i, tokens, f, blocked) && f != Failed(PersistFailed) ==> SameEnding(e, f)
  {
  }

  /** The rounds determine where and how a turn ends, unless the sink refuses a message. */
  lemma EndingIsDetermined(b: Budget, rounds: nat -> Round, m: nat, e: Ending, n: nat, f: Ending, blocked: bool)
    requires EndsAt(b, rounds, m, e, blocked) && EndsAt(b, rounds, n, f, blocked)
    requires e != Failed(PersistFailed) && f != Failed(PersistFailed)
    ensures m == n && SameEnding(e, f)
  {
    OneCause(b, rounds(m), m, UsedBefore(rounds, m), e, f, blocked);
    OneCause(b, rounds(n), n, UsedBefore(rounds, n), f, e, blocked);
  }

  /**
   A whole turn.  It makes at most `maxIterations` inference calls and takes
   at most `maxTokens` tokens from them; the messages it appends are those of
   its rounds, chained on the turn's branch, and with a sink exactly these are
   persisted, however the turn ends.
   */
  method RunTurn(
    seed: seq<Message>, branch: Id, w: Watchdog, now: nat, rounds: nat -> Round, sink: bool, mint: nat -> Id, persists: nat -> bool)
    returns (ending: Ending, appended: seq<Message>, persisted: seq<Message>, calls: seq<Call>, ghost last: nat)
    modifies w
    ensures ending == Failed(Invariant) <==> !SeedOk(seed, branch)
    ensures !SeedOk(seed, branch) ==> appended == []
    ensures |calls| <= w.maxIterations && Spent(calls) <= w.maxTokens
    ensures Fair(calls, w.maxTokens) && Answered(rounds, calls)
    ensures persisted == if sink then appended else []
    ensures WroteRounds(rounds, calls, Drafts(appended), ending)
    ensures SeedOk(seed, branch) ==>
              EndsAt(Budget(w.maxIterations, w.maxTokens, w.maxWall, now), rounds, last, ending, sink && !persists(|appended|))
    ensures SeedOk(seed, branch) ==>
              var first := seed[|seed| - 1].id;
              && Chained(first, branch, appended)
              && (!ending.Failed? ==> ending.parent == LastId(first, appended))
  {
    w.Rearm(now);
    appended, persisted, calls, last := [], [], [], 0;
    if seed == [] || exists m <- seed :: m.branch != branch { ending := Failed(Invariant); return; }
    var t := new Transcript(seed[|seed| - 1].id, branch, sink, mint, persists);
    ending, calls, last := RunRounds(t, w, rounds);
    FairNeverOverspends(calls, w.maxTokens);
    appended, persisted := t.appended, t.persisted;
  }

  /** The part of a round up to the backend's answer: it ends early, or calls the backend with a grant. */
  datatype Inference = Early(ending: Ending) | Called(grant: nat, result: Supervised)

  method Infer(t: Transcript, w: Watchdog, round: Round, iteration: nat, tokens: nat) returns (r: Inference)
    requires t.Valid()
    ensures r.Early? ==> !r.ending.Finished? && r.ending != Failed(Invariant)
    ensures r.Early? && r.ending.Cancelled? ==> r.ending.parent == t.lastId
    ensures r.Called? ==> iteration < w.maxIterations && r.grant > 0 && tokens + r.grant == w.maxTokens
    ensures r.Called? ==> !round.cancelled && r.result == Supervise(round.attempt, r.grant)
    ensures r.Called? <==> Proceeds(w.Limits(), round, iteration, tokens)
    ensures r.Early? ==> Because(w.Limits(), round, iteration, tokens, r.ending, t.Blocked())
  {
    var tripped := w.Check(iteration, tokens, round.checkedAt);
    if tripped.Some? { return Early(Failed(WatchdogExceeded(tripped.value))); }
    if round.cancelled { return Early(Cancelled(t.lastId)); }
    if !round.contextBuilt { return Early(Failed(ContextFailed)); }
    var remaining, grant := w.RemainingWallClock(round.startedAt), w.RemainingTokenBudget(tokens);
    if remaining == 0 || grant == 0 { return Early(Failed(WatchdogExceeded(if remaining == 0 then Seconds else Tokens))); }
    return Called(grant, Supervise(round.attempt, grant));
  }

  predicate Accepted(call: Option<Call>) { call.Some? && call.value.used.Some? }

  /** What one round wrote, and why it ended the turn if it did. */
  ghost predicate RoundWrote(round: Round, call: Option<Call>, end: Option<Ending>, before: seq<Draft>, after: seq<Draft>) {
    match end
    case None => Accepted(call) && after == before + RoundScript(round)
    case Some(Finished(_, tokens, content)) =>
      && Accepted(call) && after == before && round.attempt.BackendDone? && round.calls.NoCall?
      && content == round.attempt.text && tokens == round.attempt.used % U32
    case Some(Cancelled(_)) => !Accepted(call) && after == before
    case Some(Failed(_)) => after <= before + if Accepted(call) then RoundScript(round) else []
  }

  ghost predicate CallFits(round: Round, call: Call, tokens: nat, maxTokens: nat) {
    && call.grant > 0 && call.grant + tokens == maxTokens && Used(call) <= call.grant
    && (call.used.Some? ==> round.attempt.BackendDone? && round.attempt.used == call.used.value)
  }

  /** One round of the loop: it may call the backend, and may end the turn. */
  method OneRound(t: Transcript, w: Watchdog, round: Round, iteration: nat, tokens: nat)
    returns (end: Option<Ending>, call: Option<Call>)
    requires t.Valid()
    modifies t
    ensures t.Valid() && end != Some(Failed(Invariant))
    ensures end.Some? && !end.value.Failed? ==> end.value.parent == t.lastId
    ensures call.Some? ==> iteration < w.maxIterations && CallFits(round, call.value, tokens, w.maxTokens)
    ensures RoundWrote(round, call, end, Drafts(old(t.appended)), Drafts(t.appended))
    ensures end.None? ==> GoesOn(w.Limits(), round, iteration, tokens)
    ensures end.Some? ==> Because(w.Limits(), round, iteration, tokens, end.value, t.Blocked())
  {
    var inference := Infer(t, w, round, iteration, tokens);
    if inference.Early? { return Some(inference.ending), None; }
    var result := inference.result;
    call := Some(Call(inference.grant, if result.Answer? then Some(result.used) else None));
    if result.Bad? { return Some(Failed(result.error)), call; }
    if result.Stopped? { return Some(Cancelled(t.lastId)), call; }
    if round.calls.NoCall? { return Some(Finished(t.lastId, result.used % U32, result.text)), call; }
    var error := ToolRound(t, result.text, result.used, round.calls);
    end := if error.Some? then Some(Failed(error.value)) else None;
  }

  /** The ledger of a turn's calls. */
  ghost predicate Ledger(rounds: nat -> Round, calls: seq<Call>, maxTokens: nat) {
    Fair(calls, maxTokens) && Answered(rounds, calls)
  }

  lemma LedgerAppend(rounds: nat -> Round, calls: seq<Call>, call: Call, maxTokens: nat)
    requires Ledger(rounds, calls, maxTokens) && Answers(calls) == |calls|
    requires CallFits(rounds(|calls|), call, Spent(calls), maxTokens)
    ensures Ledger(rounds, calls + [call], maxTokens) && Spent(calls + [call]) == Spent(calls) + Used(call)
    ensures Answers(calls + [call]) == |calls| + if call.used.Some? then 1 else 0
  {
    FairAppend(calls, call, maxTokens);
  }

  /** Between two rounds: every round so far went on, and what was spent and written is theirs. */
  ghost predicate UnderWay(b: Budget, rounds: nat -> Round, calls: seq<Call>, drafts: seq<Draft>, tokens: nat) {
    var n := |calls|;
    && n <= b.maxIterations && Ledger(rounds, calls, b.maxTokens) && Answers(calls) == n
    && tokens == Spent(calls) == UsedBefore(rounds, n) && GoneOn(b, rounds, n) && drafts == Scripts(rounds, n)
  }

  /** After the last round. */
  ghost predicate Over(
    b: Budget, rounds: nat -> Round, calls: seq<Call>, drafts: seq<Draft>, last: nat, ending: Ending, blocked: bool)
  {
    && |calls| <= b.maxIterations && Ledger(rounds, calls, b.maxTokens)
    && WroteRounds(rounds, calls, drafts, ending) && EndsAt(b, rounds, last, ending, blocked)
  }

  lemma RoundAdvances(
    b: Budget, rounds: nat -> Round, calls: seq<Call>, drafts: seq<Draft>, tokens: nat, call: Call, drafts': seq<Draft>)
    requires UnderWay(b, rounds, calls, drafts, tokens)
    requires var round := rounds(|calls|);
             && CallFits(round, call, tokens, b.maxTokens) && GoesOn(b, round, |calls|, tokens)
             && RoundWrote(round, Some(call), None, drafts, drafts')
    ensures UnderWay(b, rounds, calls + [call], drafts', tokens + Used(call))
  {
    LedgerAppend(rounds, calls, call, b.maxTokens);
    GoneOnNext(b, rounds, |calls|);
    assert Scripts(rounds, |calls| + 1) == Scripts(rounds, |calls|) + RoundScript(rounds(|calls|));
  }

  lemma RoundEnds(
    b: Budget, rounds: nat -> Round, calls: seq<Call>, drafts: seq<Draft>, tokens: nat, call: Option<Call>,
    drafts': seq<Draft>, ending: Ending, blocked: bool)
    requires UnderWay(b, rounds, calls, drafts, tokens)
    requires var round := rounds(|calls|);
             && (call.Some? ==> |calls| < b.maxIterations && CallFits(round, call.value, tokens, b.maxTokens))
             && RoundWrote(round, call, Some(ending), drafts, drafts')
             && Because(b, round, |calls|, tokens, ending, blocked)
    ensures Over(b, rounds, if call.Some? then calls + [call.value] else calls, drafts', |calls|, ending, blocked)
  {
    if call.Some? { LedgerAppend(rounds, calls, call.value, b.maxTokens); }
    assert Scripts(rounds, |calls| + 1) == Scripts(rounds, |calls|) + RoundScript(rounds(|calls|));
    assert drafts + [] == drafts;
  }

  method RunRounds(t: Transcript, w: Watchdog, rounds: nat -> Round)
    returns (ending: Ending, calls: seq<Call>, ghost last: nat)
    requires t.Valid() && t.appended == []
    modifies t
    ensures t.Valid()
    ensures Over(w.Limits(), rounds, calls, Drafts(t.appended), last, ending, t.Blocked())
    ensures ending != Failed(Invariant)
    ensures !ending.Failed? ==> ending.parent == t.lastId
  {
    var iteration: nat, tokens: nat := 0, 0;
    calls := [];
    ghost var b := w.Limits();
    while true
      invariant t.Valid() && iteration == |calls| && UnderWay(b, rounds, calls, Drafts(t.appended), tokens)
      decreases w.maxIterations - iteration
    {
      ghost var before := Drafts(t.appended);
      var end, call := OneRound(t, w, rounds(iteration), iteration, tokens);
      if end.Some? {
        RoundEnds(b, rounds, calls, before, tokens, call, Drafts(t.appended), end.value, t.Blocked());
        return end.value, if call.Some? then calls + [call.value] else calls, iteration;
      }
      RoundAdvances(b, rounds, calls, before, tokens, call.value, Drafts(t.appended));
      calls, tokens, iteration := calls + [call.value], tokens + Used(call.value), iteration + 1;
    }
  }
}
