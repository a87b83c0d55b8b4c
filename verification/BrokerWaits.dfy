/**
 Waiting for a platform response.  A waiter polls, gives up, and abandons its
 request in separate actions, while others use the broker in between.
 */
module BrokerWaits {
  import opened Prelude
  import opened Brokers
  import Runs = BrokerRuns

  datatype Phase =
    | Waiting
    /** The outcome is decided and not a success; the request is still to be abandoned. */
    | Leaving(outcome: Wait)
    | Returned(outcome: Wait)

  datatype State = State(
    inner: Runs.State,
    waits: map<Id, Phase>,
    /** History: the responses that polls have taken. */
    polled: map<Id, Response>)

  datatype Step =
    | Other(step: Runs.Step)
    | Begin(id: Id)
    | Poll(id: Id)
    /** Cancelled or timed out. */
    | GiveUp(id: Id)
    | Leave(id: Id)

  ghost predicate Init(s: State) { Runs.Init(s.inner) && s.waits == map[] && s.polled == map[] }

  predicate Enabled(s: State, step: Step, capacity: nat) {
    match step
    case Other(other) => Runs.Enabled(s.inner, other, capacity)
    case Begin(id) => id !in s.waits
    case Poll(id) => id in s.waits && s.waits[id].Waiting?
    case GiveUp(id) => id in s.waits && s.waits[id].Waiting?
    case Leave(id) => id in s.waits && s.waits[id].Leaving?
  }

  function Apply(s: State, step: Step, capacity: nat): State
    requires Enabled(s, step, capacity)
  {
    match step
    case Other(other) => s.(inner := Runs.Apply(s.inner, other, capacity))
    case Begin(id) => s.(waits := s.waits[id := Waiting])
    case Poll(id) =>
      if id !in s.inner.broker.responses then s
      else
        var r := s.inner.broker.responses[id];
        State(Runs.Apply(s.inner, Runs.Take(id), capacity),
              s.waits[id := if r.succeeded then Returned(Outcome(r)) else Leaving(Outcome(r))],
              s.polled[id := r])
    case GiveUp(id) => s.(waits := s.waits[id := Leaving(GaveUp)])
    case Leave(id) =>
      s.(inner := Runs.Apply(s.inner, Runs.Abandon(id), capacity), waits := s.waits[id := Returned(s.waits[id].outcome)])
  }

  ghost predicate IsRun(run: seq<State>, steps: seq<Step>, capacity: nat) {
    && |run| == |steps| + 1
    && Init(run[0])
    && forall i :: 0 <= i < |steps| ==> Enabled(run[i], steps[i], capacity) && run[i + 1] == Apply(run[i], steps[i], capacity)
  }

  // ---- invariant -------------------------------------------------------------------------------

  /** A wait ends with the response it polled, if there was one, and with giving up otherwise. */
  ghost predicate Honest(s: State) {
    && (forall id <- s.polled :: id in s.waits && !s.waits[id].Waiting?)
    && (forall id <- s.waits :: !s.waits[id].Waiting? ==>
          s.waits[id].outcome == if id in s.polled then Outcome(s.polled[id]) else GaveUp)
  }

  ghost predicate Tidy(s: State) {
    forall id <- s.waits :: s.waits[id].Returned? ==> id in s.inner.gone
  }

  ghost predicate Inv(s: State, capacity: nat) { Runs.Inv(s.inner, capacity) && Honest(s) && Tidy(s) }

  lemma GoneNext(s: Runs.State, step: Runs.Step, capacity: nat)
    requires Runs.Enabled(s, step, capacity)
    ensures s.gone <= Runs.Apply(s, step, capacity).gone
  {
  }

  lemma InnerNext(s: Runs.State, step: Runs.Step, capacity: nat)
    requires Runs.Inv(s, capacity) && Runs.Enabled(s, step, capacity)
    ensures Runs.Inv(Runs.Apply(s, step, capacity), capacity)
  {
    Runs.BoundedNext(s, step, capacity);
    Runs.FifoNext(s, step, capacity);
    Runs.MovesOnNext(s, step, capacity);
  }

  /** What a step does to the broker, as a step of the broker's own histories. */
  lemma BrokerNext(s: State, step: Step, capacity: nat)
    requires Runs.Inv(s.inner, capacity) && Enabled(s, step, capacity)
    ensures Runs.Inv(Apply(s, step, capacity).inner, capacity)
  {
    match step {
      case Other(other) => InnerNext(s.inner, other, capacity);
      case Poll(id) => InnerNext(s.inner, Runs.Take(id), capacity);
      case Leave(id) => InnerNext(s.inner, Runs.Abandon(id), capacity);
      case _ =>
    }
  }

  lemma TidyNext(s: State, step: Step, capacity: nat)
    requires Tidy(s) && Enabled(s, step, capacity)
    ensures Tidy(Apply(s, step, capacity)) && s.inner.gone <= Apply(s, step, capacity).inner.gone
  {
    if step.Other? { GoneNext(s.inner, step.step, capacity); }
  }

  lemma HonestNext(s: State, step: Step, capacity: nat)
    requires Honest(s) && Enabled(s, step, capacity)
    ensures Honest(Apply(s, step, capacity))
  {
  }

  lemma {:induction false} InvHolds(run: seq<State>, steps: seq<Step>, capacity: nat, i: nat)
    requires IsRun(run, steps, capacity) && i < |run|
    ensures Inv(run[i], capacity)
  {
    if i > 0 {
      InvHolds(run, steps, capacity, i - 1);
      assert run[i - 1 + 1] == Apply(run[i - 1], steps[i - 1], capacity);
      BrokerNext(run[i - 1], steps[i - 1], capacity);
      TidyNext(run[i - 1], steps[i - 1], capacity);
      HonestNext(run[i - 1], steps[i - 1], capacity);
    }
  }

  lemma GoneAlong(run: seq<State>, steps: seq<Step>, capacity: nat, i: nat)
    requires IsRun(run, steps, capacity) && i < |steps|
    ensures run[i].inner.gone <= run[i + 1].inner.gone
  {
    InvHolds(run, steps, capacity, i);
    TidyNext(run[i], steps[i], capacity);
  }

  lemma {:induction false} GoneGrows(run: seq<State>, steps: seq<Step>, capacity: nat, i: nat, j: nat)
    requires IsRun(run, steps, capacity) && i <= j < |run|
    ensures run[i].inner.gone <= run[j].inner.gone
  {
    if i < j {
      GoneGrows(run, steps, capacity, i, j - 1);
      GoneAlong(run, steps, capacity, j - 1);
    }
  }

  /** Once a wait has returned, whatever it returned, nothing of its request is ever in the broker again. */
  lemma NoResidue(run: seq<State>, steps: seq<Step>, capacity: nat, i: nat, j: nat, id: Id)
    requires IsRun(run, steps, capacity) && i <= j < |run|
    requires id in run[i].waits && run[i].waits[id].Returned?
    ensures !Holds(run[j].inner.broker, id)
  {
    InvHolds(run, steps, capacity, i);
    GoneGrows(run, steps, capacity, i, j);
    InvHolds(run, steps, capacity, j);
  }

  /** A wait returns the response that one of its polls found, and gives up if and only if none did. */
  lemma ReturnsWhatItPolled(run: seq<State>, steps: seq<Step>, capacity: nat, i: nat, id: Id)
    requires IsRun(run, steps, capacity) && i < |run| && id in run[i].waits && run[i].waits[id].Returned?
    ensures run[i].waits[id].outcome == if id in run[i].polled then Outcome(run[i].polled[id]) else GaveUp
    ensures run[i].waits[id].outcome == GaveUp <==> id !in run[i].polled
  {
    InvHolds(run, steps, capacity, i);
  }

  lemma Extend(run: seq<State>, steps: seq<Step>, capacity: nat, step: Step) returns (run': seq<State>, steps': seq<Step>)
    requires IsRun(run, steps, capacity) && Enabled(run[|steps|], step, capacity)
    ensures IsRun(run', steps', capacity) && run'[|steps'|] == Apply(run[|steps|], step, capacity)
  {
    run', steps' := run + [Apply(run[|steps|], step, capacity)], steps + [step];
    forall i | 0 <= i < |steps'|
      ensures Enabled(run'[i], steps'[i], capacity) && run'[i + 1] == Apply(run'[i], steps'[i], capacity)
    {
      if i < |steps| { assert run[i + 1] == Apply(run[i], steps[i], capacity); }
    }
  }

  /** A waiter that gives up on a request the platform is working on. */
  lemma GivesUp(capacity: nat, request: Request) returns (run: seq<State>, steps: seq<Step>)
    requires capacity > 0
    ensures IsRun(run, steps, capacity)
    ensures var s := run[|steps|];
            && s.waits == map[request.id := Leaving(GaveUp)] && s.inner.broker == Broker([], {request.id}, map[])
            && s.inner.answered == [] && s.inner.taken == []
  {
    run, steps := [State(Runs.State(Broker([], {}, map[]), [], [], {}, [], [], {}), map[], map[])], [];
    run, steps := Extend(run, steps, capacity, Other(Runs.Enqueue(request)));
    run, steps := Extend(run, steps, capacity, Begin(request.id));
    assert run[|steps|].inner.broker.pending == [request] && [request][..1] == [request] && [request][1..] == [];
    assert Ids([request]) == [request.id];
    run, steps := Extend(run, steps, capacity, Other(Runs.Drain(1)));
    run, steps := Extend(run, steps, capacity, GiveUp(request.id));
  }

  /** A response that arrives between giving up and abandoning is accepted and then dropped. */
  lemma LateResponseWitness(capacity: nat, request: Request, payload: string)
    returns (run: seq<State>, steps: seq<Step>)
    requires capacity > 0
    ensures IsRun(run, steps, capacity)
    ensures var s := run[|steps|];
            && request.id in s.inner.answered && !Holds(s.inner.broker, request.id) && request.id !in s.inner.taken
            && request.id in s.waits && s.waits[request.id] == Returned(GaveUp)
  {
    var id := request.id;
    run, steps := GivesUp(capacity, request);
    run, steps := Extend(run, steps, capacity, Other(Runs.Submit(Response(id, true, payload))));
    run, steps := Extend(run, steps, capacity, Leave(id));
    NoResidue(run, steps, capacity, |steps|, |steps|, id);
  }
}
