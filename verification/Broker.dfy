/** The pull broker between the runtime and the Android platform. */
module Brokers {
  import opened Prelude

  const MAX_REQUESTS := 128
  const MAX_DRAIN := 32

  type Id = string
  datatype Request = Request(id: Id, operation: Option<Id>, body: string)
  datatype Response = Response(id: Id, succeeded: bool, payload: string)

  datatype Broker = Broker(pending: seq<Request>, inFlight: set<Id>, responses: map<Id, Response>)

  function Ids(requests: seq<Request>): seq<Id> {
    seq(|requests|, i requires 0 <= i < |requests| => requests[i].id)
  }

  function Outstanding(b: Broker): nat { |b.pending| + |b.inFlight| + |b.responses| }

  /** Whether the broker still holds the request, in whatever state. */
  predicate Holds(b: Broker, id: Id) { id in Ids(b.pending) || id in b.inFlight || id in b.responses }

  /** Each request is in one place only. */
  ghost predicate Apart(pending: seq<Id>, inFlight: set<Id>, responses: map<Id, Response>) {
    && Distinct(pending)
    && (forall id <- pending :: id !in inFlight && id !in responses)
    && inFlight !! responses.Keys
    && (forall id <- responses :: responses[id].id == id)
  }

  ghost predicate Valid(b: Broker) { Apart(Ids(b.pending), b.inFlight, b.responses) }

  /** The requests except the one with this id. */
  function Without(requests: seq<Request>, id: Id): seq<Request> {
    if requests == [] then []
    else
      var last := requests[|requests| - 1];
      Without(requests[..|requests| - 1], id) + if last.id == id then [] else [last]
  }

  function Drained(b: Broker, n: nat): Broker
    requires n <= |b.pending|
  {
    b.(pending := b.pending[n..], inFlight := b.inFlight + set id | id in Ids(b.pending[..n]))
  }

  function Submitted(b: Broker, r: Response): Broker {
    if r.id in b.inFlight then b.(inFlight := b.inFlight - {r.id}, responses := b.responses[r.id := r]) else b
  }

  function Abandoned(b: Broker, id: Id): Broker {
    Broker(Without(b.pending, id), b.inFlight - {id}, b.responses - {id})
  }

  // ---- lists of ids ------------------------------------------------------------------------

  /** The list without the ids in `gone`. */
  function Keep(s: seq<Id>, gone: set<Id>): seq<Id> {
    if s == [] then []
    else Keep(s[..|s| - 1], gone) + if s[|s| - 1] in gone then [] else [s[|s| - 1]]
  }

  lemma {:induction false} WithoutIsKeep(requests: seq<Request>, id: Id)
    ensures Ids(Without(requests, id)) == Keep(Ids(requests), {id})
  {
    if requests != [] {
      var n := |requests| - 1;
      WithoutIsKeep(requests[..n], id);
      assert Ids(requests)[..n] == Ids(requests[..n]);
      var w := Without(requests[..n], id);
      assert Ids(w + [requests[n]]) == Ids(w) + [requests[n].id];
      assert w + [] == w && Ids(w) + [] == Ids(w);
    }
  }

  lemma {:induction false} KeepMember(s: seq<Id>, gone: set<Id>, x: Id)
    ensures x in Keep(s, gone) <==> x in s && x !in gone
  {
    if s != [] {
      KeepMember(s[..|s| - 1], gone, x);
      assert s == s[..|s| - 1] + [s[|s| - 1]];
    }
  }

  lemma {:induction false} KeepDistinct(s: seq<Id>, gone: set<Id>)
    requires Distinct(s)
    ensures Distinct(Keep(s, gone)) && |Keep(s, gone)| <= |s|
  {
    if s != [] {
      var n := |s| - 1;
      KeepDistinct(s[..n], gone);
      KeepMember(s[..n], gone, s[n]);
      var front := Keep(s[..n], gone);
      assert s[n] !in s[..n];
      assert forall i :: 0 <= i < |front| ==> front[i] in front;
    }
  }

  lemma {:induction false} KeepConcat(a: seq<Id>, b: seq<Id>, gone: set<Id>)
    ensures Keep(a + b, gone) == Keep(a, gone) + Keep(b, gone)
  {
    if b == [] {
      assert a + b == a;
    } else {
      var n := |b| - 1;
      assert (a + b)[..|a| + n] == a + b[..n];
      KeepConcat(a, b[..n], gone);
    }
  }

  lemma {:induction false} KeepTwice(s: seq<Id>, gone: set<Id>, more: set<Id>)
    ensures Keep(Keep(s, gone), more) == Keep(s, gone + more)
  {
    if s != [] {
      var n := |s| - 1;
      var front, last := Keep(s[..n], gone), s[n];
      KeepTwice(s[..n], gone, more);
      if last !in gone { assert (front + [last])[..|front|] == front; } else { assert front + [] == front; }
    }
  }

  lemma {:induction false} KeepAll(s: seq<Id>, gone: set<Id>)
    requires forall x <- s :: x !in gone
    ensures Keep(s, gone) == s
  {
    if s != [] { KeepAll(s[..|s| - 1], gone); }
  }

  // ---- the operations keep the broker valid ------------------------------------------------

  lemma IdsConcat(a: seq<Request>, b: seq<Request>)
    ensures Ids(a + b) == Ids(a) + Ids(b)
  {
  }

  lemma ApartAppend(pending: seq<Id>, inFlight: set<Id>, responses: map<Id, Response>, id: Id)
    requires Apart(pending, inFlight, responses) && id !in pending && id !in inFlight && id !in responses
    ensures Apart(pending + [id], inFlight, responses)
  {
  }

  lemma EnqueueKeepsValid(b: Broker, r: Request)
    requires Valid(b) && !Holds(b, r.id)
    ensures Valid(b.(pending := b.pending + [r])) && Ids(b.pending + [r]) == Ids(b.pending) + [r.id]
  {
    IdsConcat(b.pending, [r]);
    assert Ids([r]) == [r.id];
    ApartAppend(Ids(b.pending), b.inFlight, b.responses, r.id);
  }

  lemma ApartMoved(a: seq<Id>, rest: seq<Id>, inFlight: set<Id>, responses: map<Id, Response>)
    requires Apart(a + rest, inFlight, responses)
    ensures Apart(rest, inFlight + (set id | id in a), responses)
    ensures |inFlight + (set id | id in a)| == |inFlight| + |a|
  {
    var all, moved := a + rest, set id | id in a;
    assert forall i :: 0 <= i < |a| ==> all[i] == a[i] && all[i] in all;
    assert forall i :: 0 <= i < |rest| ==> all[|a| + i] == rest[i] && all[|a| + i] in all;
    assert Distinct(a) && Distinct(rest);
    DistinctSize(a);
    assert inFlight !! moved;
  }

  lemma DrainKeepsValid(b: Broker, n: nat)
    requires Valid(b) && n <= |b.pending|
    ensures Valid(Drained(b, n)) && Outstanding(Drained(b, n)) == Outstanding(b)
    ensures Ids(b.pending) == Ids(b.pending[..n]) + Ids(b.pending[n..])
  {
    assert b.pending == b.pending[..n] + b.pending[n..];
    IdsConcat(b.pending[..n], b.pending[n..]);
    ApartMoved(Ids(b.pending[..n]), Ids(b.pending[n..]), b.inFlight, b.responses);
  }

  lemma AbandonKeepsValid(b: Broker, id: Id)
    requires Valid(b)
    ensures Valid(Abandoned(b, id)) && !Holds(Abandoned(b, id), id)
    ensures forall x :: x != id ==> (Holds(Abandoned(b, id), x) <==> Holds(b, x))
    ensures Outstanding(Abandoned(b, id)) <= Outstanding(b)
  {
    WithoutIsKeep(b.pending, id);
    KeepDistinct(Ids(b.pending), {id});
    forall x ensures x in Ids(Without(b.pending, id)) <==> x in Ids(b.pending) && x != id { KeepMember(Ids(b.pending), {id}, x); }
    assert |Without(b.pending, id)| == |Ids(Without(b.pending, id))|;
    assert b.responses.Keys - {id} == (b.responses - {id}).Keys;
    assert |b.responses - {id}| == |(b.responses - {id}).Keys| && |b.responses| == |b.responses.Keys|;
    SubsetSize((b.responses - {id}).Keys, b.responses.Keys);
  }

  // ---- the broker --------------------------------------------------------------------------

  datatype Wait = Payload(value: string) | PlatformFailed(message: string) | GaveUp

  function Outcome(r: Response): Wait { if r.succeeded then Payload(r.payload) else PlatformFailed(r.payload) }

  function WaitResult(responses: map<Id, Response>, id: Id): Wait {
    if id in responses then Outcome(responses[id]) else GaveUp
  }

  class PlatformRequestBroker {
    const capacity: nat
    var pending: seq<Request>
    var inFlight: set<Id>
    var responses: map<Id, Response>

    function View(): Broker
      reads this
    {
      Broker(pending, inFlight, responses)
    }

    ghost predicate Ok()
      reads this
    {
      Valid(View()) && Outstanding(View()) <= capacity <= MAX_REQUESTS
    }

    constructor (requested: nat)
      ensures Ok() && View() == Broker([], {}, map[]) && capacity == Max(1, Min(requested, MAX_REQUESTS))
    {
      capacity := if requested < 1 then 1 else if requested > MAX_REQUESTS then MAX_REQUESTS else requested;
      pending, inFlight, responses := [], {}, map[];
    }

    /** Refuses exactly when the capacity is used up. */
    method Enqueue(id: Id, operation: Option<Id>, body: string) returns (ok: bool)
      requires Ok() && !Holds(View(), id)
      modifies this
      ensures Ok() && ok == (|old(pending)| + |old(inFlight)| + |old(responses)| < capacity)
      ensures View() == if ok then old(View()).(pending := old(pending) + [Request(id, operation, body)]) else old(View())
    {
      if |pending| + |inFlight| + |responses| >= capacity { return false; }
      EnqueueKeepsValid(View(), Request(id, operation, body));
      pending := pending + [Request(id, operation, body)];
      return true;
    }

    /** Hands out the oldest requests, as many as allowed. */
    method Drain(requested: nat) returns (requests: seq<Request>, hasMore: bool)
      requires Ok()
      modifies this
      ensures Ok()
      ensures |requests| == Min(|old(pending)|, Max(1, Min(requested, MAX_DRAIN)))
      ensures requests == old(pending)[..|requests|] && View() == Drained(old(View()), |requests|)
      ensures hasMore <==> pending != []
      ensures forall id :: id in inFlight <==> id in old(inFlight) || id in Ids(requests)
    {
      var limit := if requested < 1 then 1 else if requested > MAX_DRAIN then MAX_DRAIN else requested;
      ghost var b := View();
      requests := [];
      while |requests| < limit && pending != []
        modifies this
        invariant |requests| <= limit && |requests| <= |b.pending|
        invariant requests == b.pending[..|requests|] && View() == Drained(b, |requests|)
        decreases |pending|
      {
        var request := pending[0];
        ghost var n := |requests|;
        DrainOne(b, n);
        pending := pending[1..];
        inFlight := inFlight + {request.id};
        requests := requests + [request];
      }
      DrainKeepsValid(b, |requests|);
      hasMore := pending != [];
    }

    /** Only a request that was handed out and not answered yet accepts a response. */
    method SubmitResponse(response: Response) returns (ok: bool)
      requires Ok()
      modifies this
      ensures Ok() && ok == (response.id in old(inFlight)) && View() == Submitted(old(View()), response)
      ensures ok ==> response.id in responses && responses[response.id] == response && response.id !in inFlight
    {
      if response.id !in inFlight { return false; }
      inFlight := inFlight - {response.id};
      responses := responses[response.id := response];
      return true;
    }

    method TakeResponse(id: Id) returns (r: Option<Response>)
      requires Ok()
      modifies this
      ensures Ok() && View() == old(View()).(responses := old(responses) - {id})
      ensures r == if id in old(responses) then Some(old(responses)[id]) else None
    {
      r := if id in responses then Some(responses[id]) else None;
      if id in responses { TakeShrinks(responses, id); }
      responses := responses - {id};
    }

    method Abandon(id: Id) returns (found: bool)
      requires Ok()
      modifies this
      ensures Ok() && View() == Abandoned(old(View()), id)
      ensures found == Holds(old(View()), id)
    {
      AbandonKeepsValid(View(), id);
      var kept := Without(pending, id);
      WithoutCount(pending, id);
      found := |kept| != |pending| || id in inFlight || id in responses;
      pending, inFlight, responses := kept, inFlight - {id}, responses - {id};
    }

    /** The last poll of a wait and its abandon, with nothing in between: whatever it returns, nothing of the request is left. */
    method FinishWait(id: Id) returns (w: Wait)
      requires Ok()
      modifies this
      ensures Ok() && !Holds(View(), id)
      ensures w == WaitResult(old(responses), id)
      ensures forall x :: x != id ==> (Holds(View(), x) <==> Holds(old(View()), x))
    {
      var r := TakeResponse(id);
      if r.Some? && r.value.succeeded { return Payload(r.value.payload); }
      AbandonKeepsValid(View(), id);
      var _ := Abandon(id);
      return if r.Some? then PlatformFailed(r.value.payload) else GaveUp;
    }
  }

  lemma DrainOne(b: Broker, n: nat)
    requires n < |b.pending|
    ensures b.pending[n..][0] == b.pending[n] && b.pending[n..][1..] == b.pending[n + 1..]
    ensures b.pending[..n + 1] == b.pending[..n] + [b.pending[n]]
    ensures Drained(b, n + 1).inFlight == Drained(b, n).inFlight + {b.pending[n].id}
  {
    IdsConcat(b.pending[..n], [b.pending[n]]);
    assert Ids([b.pending[n]]) == [b.pending[n].id];
    assert b.pending[..n + 1] == b.pending[..n] + [b.pending[n]];
  }

  lemma TakeShrinks(m: map<Id, Response>, id: Id)
    requires id in m
    ensures |m - {id}| == |m| - 1
  {
    assert (m - {id}).Keys == m.Keys - {id};
    assert |m| == |m.Keys| && |m - {id}| == |(m - {id}).Keys|;
  }

  lemma {:induction false} WithoutCount(requests: seq<Request>, id: Id)
    ensures |Without(requests, id)| <= |requests|
    ensures |Without(requests, id)| == |requests| <==> id !in Ids(requests)
  {
    if requests != [] {
      var n := |requests| - 1;
      WithoutCount(requests[..n], id);
      IdsConcat(requests[..n], [requests[n]]);
      assert Ids([requests[n]]) == [requests[n].id];
      assert requests == requests[..n] + [requests[n]];
    }
  }
}

/** Every history of broker calls. */
module BrokerRuns {
  import opened Prelude
  import opened Brokers

  datatype State = State(
    broker: Broker,
    // History, read by no step.
    enqueued: seq<Id>,
    drained: seq<Id>,
    /** Abandoned while still waiting to be drained. */
    dropped: set<Id>,
    answered: seq<Id>,
    taken: seq<Id>,
    /** Taken or abandoned. */
    gone: set<Id>)

  datatype Step = Enqueue(r: Request) | Drain(n: nat) | Submit(response: Response) | Take(id: Id) | Abandon(id: Id)

  ghost predicate Init(s: State) { s == State(Broker([], {}, map[]), [], [], {}, [], [], {}) }

  /** Ids of new requests have never been used. */
  predicate Enabled(s: State, step: Step, capacity: nat) {
    match step
    case Enqueue(r) => Outstanding(s.broker) < capacity && r.id !in s.enqueued && r.id !in s.gone
    case Drain(n) => n <= |s.broker.pending|
    case _ => true
  }

  function Apply(s: State, step: Step, capacity: nat): State
    requires Enabled(s, step, capacity)
  {
    var b := s.broker;
    match step
    case Enqueue(r) => s.(broker := b.(pending := b.pending + [r]), enqueued := s.enqueued + [r.id])
    case Drain(n) => s.(broker := Drained(b, n), drained := s.drained + Ids(b.pending[..n]))
    case Submit(r) => s.(broker := Submitted(b, r), answered := if r.id in b.inFlight then s.answered + [r.id] else s.answered)
    case Take(id) =>
      if id in b.responses then
        s.(broker := b.(responses := b.responses - {id}), taken := s.taken + [id], gone := s.gone + {id})
      else s
    case Abandon(id) =>
      s.(broker := Abandoned(b, id), gone := s.gone + {id},
         dropped := if id in Ids(b.pending) then s.dropped + {id} else s.dropped)
  }

  ghost predicate IsRun(run: seq<State>, steps: seq<Step>, capacity: nat) {
    && |run| == |steps| + 1
    && Init(run[0])
    && forall i :: 0 <= i < |steps| ==> Enabled(run[i], steps[i], capacity) && run[i + 1] == Apply(run[i], steps[i], capacity)
  }

  // ---- invariants ----------------------------------------------------------------------------

  ghost predicate Bounded(s: State, capacity: nat) { Valid(s.broker) && Outstanding(s.broker) <= capacity }

  /** What was drained and what is pending are the requests not abandoned in time, in the order they came. */
  ghost predicate Fifo(s: State) {
    && Distinct(s.enqueued)
    && s.drained + Ids(s.broker.pending) == Keep(s.enqueued, s.dropped)
  }

  /** Every request moves on only: drained, then answered, then taken; what is gone stays gone. */
  ghost predicate MovesOn(s: State) {
    && (forall id <- s.broker.inFlight :: id in s.drained)
    && (forall id <- s.broker.responses :: id in s.answered)
    && (forall id <- s.answered :: id in s.drained && id !in s.broker.inFlight)
    && (forall id <- s.taken :: id in s.answered && id in s.gone)
    && (forall id <- s.gone :: !Holds(s.broker, id))
    && (forall id <- s.dropped :: id in s.gone)
    && Distinct(s.answered) && Distinct(s.taken)
  }

  ghost predicate Inv(s: State, capacity: nat) { Bounded(s, capacity) && Fifo(s) && MovesOn(s) }

  lemma BoundedNext(s: State, step: Step, capacity: nat)
    requires Bounded(s, capacity) && Fifo(s) && MovesOn(s) && Enabled(s, step, capacity)
    ensures Bounded(Apply(s, step, capacity), capacity)
  {
    match step {
      case Enqueue(r) =>
        NewIsNotHeld(s, r.id);
        EnqueueKeepsValid(s.broker, r);
      case Drain(n) => DrainKeepsValid(s.broker, n);
      case Take(id) => if id in s.broker.responses { TakeShrinks(s.broker.responses, id); }
      case Abandon(id) => AbandonKeepsValid(s.broker, id);
      case Submit(_) =>
    }
  }

  lemma NewIsNotHeld(s: State, id: Id)
    requires Fifo(s) && MovesOn(s) && id !in s.enqueued
    ensures !Holds(s.broker, id) && id !in s.drained
  {
    KeepMember(s.enqueued, s.dropped, id);
    assert id !in s.drained + Ids(s.broker.pending);
  }

  lemma FifoEnqueue(s: State, step: Step, capacity: nat)
    requires Fifo(s) && MovesOn(s) && step.Enqueue? && Enabled(s, step, capacity)
    ensures Fifo(Apply(s, step, capacity))
  {
    var id := step.r.id;
    assert (s.enqueued + [id])[..|s.enqueued|] == s.enqueued;
    assert id !in s.dropped;
    IdsConcat(s.broker.pending, [step.r]);
    assert Ids([step.r]) == [id];
    assert s.drained + (Ids(s.broker.pending) + [id]) == s.drained + Ids(s.broker.pending) + [id];
  }

  lemma FifoAbandon(s: State, id: Id, capacity: nat)
    requires Fifo(s) && Distinct(Keep(s.enqueued, s.dropped))
    ensures Fifo(Apply(s, Abandon(id), capacity))
  {
    var pending := Ids(s.broker.pending);
    WithoutIsKeep(s.broker.pending, id);
    if id in pending {
      KeepTwice(s.enqueued, s.dropped, {id});
      KeepConcat(s.drained, pending, {id});
      ApartOnes(s.drained, pending, id);
      KeepAll(s.drained, {id});
    } else {
      KeepAll(pending, {id});
    }
  }

  lemma ApartOnes(a: seq<Id>, b: seq<Id>, id: Id)
    requires Distinct(a + b) && id in b
    ensures id !in a
  {
    var j :| 0 <= j < |b| && b[j] == id;
    assert (a + b)[|a| + j] == id;
    assert forall i :: 0 <= i < |a| ==> (a + b)[i] == a[i];
  }

  lemma FifoNext(s: State, step: Step, capacity: nat)
    requires Inv(s, capacity) && Enabled(s, step, capacity)
    ensures Fifo(Apply(s, step, capacity))
  {
    match step {
      case Enqueue(_) => FifoEnqueue(s, step, capacity);
      case Drain(n) =>
        DrainKeepsValid(s.broker, n);
        var moved, rest := Ids(s.broker.pending[..n]), Ids(s.broker.pending[n..]);
        assert s.drained + moved + rest == s.drained + (moved + rest);
      case Abandon(id) =>
        KeepDistinct(s.enqueued, s.dropped);
        FifoAbandon(s, id, capacity);
      case _ =>
    }
  }

  lemma MovesOnNext(s: State, step: Step, capacity: nat)
    requires Inv(s, capacity) && Enabled(s, step, capacity)
    ensures MovesOn(Apply(s, step, capacity))
  {
    match step {
      case Enqueue(r) => EnqueueMovesOn(s, r, capacity);
      case Drain(n) =>
        DrainKeepsValid(s.broker, n);
        DrainMovesOn(s, n, capacity);
      case Abandon(id) => AbandonMovesOn(s, id, capacity);
      case _ =>
    }
  }

  lemma EnqueueMovesOn(s: State, r: Request, capacity: nat)
    requires Inv(s, capacity) && Enabled(s, Enqueue(r), capacity)
    ensures MovesOn(Apply(s, Enqueue(r), capacity))
  {
    NewIsNotHeld(s, r.id);
    EnqueueKeepsValid(s.broker, r);
  }

  lemma AbandonMovesOn(s: State, id: Id, capacity: nat)
    requires Inv(s, capacity)
    ensures MovesOn(Apply(s, Abandon(id), capacity))
  {
    AbandonKeepsValid(s.broker, id);
  }

  lemma DrainMovesOn(s: State, n: nat, capacity: nat)
    requires Inv(s, capacity) && n <= |s.broker.pending|
    requires Ids(s.broker.pending) == Ids(s.broker.pending[..n]) + Ids(s.broker.pending[n..])
    ensures MovesOn(Apply(s, Drain(n), capacity))
  {
    var moved := Ids(s.broker.pending[..n]);
    KeepDistinct(s.enqueued, s.dropped);
    forall id <- moved ensures id !in s.answered {
      assert id in Ids(s.broker.pending);
      ApartOnes(s.drained, Ids(s.broker.pending), id);
    }
  }

  lemma {:induction false} InvHolds(run: seq<State>, steps: seq<Step>, capacity: nat, i: nat)
    requires IsRun(run, steps, capacity) && i < |run|
    ensures Inv(run[i], capacity)
  {
    if i > 0 {
      InvHolds(run, steps, capacity, i - 1);
      assert run[i - 1 + 1] == Apply(run[i - 1], steps[i - 1], capacity);
      BoundedNext(run[i - 1], steps[i - 1], capacity);
      FifoNext(run[i - 1], steps[i - 1], capacity);
      MovesOnNext(run[i - 1], steps[i - 1], capacity);
    }
  }

  // ---- whole histories ------------------------------------------------------------------------

  /** Requests are drained at most once, in the order in which they came; only abandoned ones are passed over. */
  lemma DrainedInOrder(run: seq<State>, steps: seq<Step>, capacity: nat, i: nat)
    requires IsRun(run, steps, capacity) && i < |run|
    ensures run[i].drained <= Keep(run[i].enqueued, run[i].dropped) && Distinct(run[i].drained)
    ensures Outstanding(run[i].broker) <= capacity
  {
    InvHolds(run, steps, capacity, i);
    var s := run[i];
    KeepDistinct(s.enqueued, s.dropped);
    assert forall k :: 0 <= k < |s.drained| ==> (s.drained + Ids(s.broker.pending))[k] == s.drained[k];
  }

  /** A request is answered at most once, taken at most once, and only after it was drained and answered. */
  lemma AnsweredOnce(run: seq<State>, steps: seq<Step>, capacity: nat, i: nat)
    requires IsRun(run, steps, capacity) && i < |run|
    ensures Distinct(run[i].answered) && Distinct(run[i].taken)
    ensures forall id <- run[i].taken :: id in run[i].answered
    ensures forall id <- run[i].answered :: id in run[i].drained
  {
    InvHolds(run, steps, capacity, i);
  }

  lemma {:induction false} GoneGrows(run: seq<State>, steps: seq<Step>, capacity: nat, i: nat, j: nat)
    requires IsRun(run, steps, capacity) && i <= j < |run|
    ensures run[i].gone <= run[j].gone
  {
    if i < j {
      GoneGrows(run, steps, capacity, i, j - 1);
      assert run[j - 1 + 1] == Apply(run[j - 1], steps[j - 1], capacity);
    }
  }

  /** A request that was taken or abandoned never reappears. */
  lemma GoneForever(run: seq<State>, steps: seq<Step>, capacity: nat, i: nat, j: nat, id: Id)
    requires IsRun(run, steps, capacity) && i < j < |run|
    requires steps[i] == Abandon(id) || (steps[i] == Take(id) && id in run[i].broker.responses)
    ensures !Holds(run[j].broker, id)
  {
    assert run[i + 1] == Apply(run[i], steps[i], capacity);
    GoneGrows(run, steps, capacity, i + 1, j);
    InvHolds(run, steps, capacity, j);
  }
}
