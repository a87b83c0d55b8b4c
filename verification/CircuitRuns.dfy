/**
 Any number of requests over one circuit breaker.  A request holds a permit,
 is admitted or denied, and later reports its result, unless its caller drops
 it in between: a dropped request gives back its permit but reports nothing.
 */
module CircuitRuns {
  import opened Prelude
  import opened Circuits
  import opened Retries

  datatype Client = Client(policy: Policy, permits: nat)

  /** As the client validates its policy. */
  predicate ValidClient(c: Client) { c.policy.threshold > 0 && c.permits > 0 }

  /** Admitted requests are numbered in the order of their admission. */
  datatype State = State(
    circuit: Circuit,
    inFlight: set<nat>,
    // History, read by no step.
    admitted: nat,
    /** The requests admitted while the circuit was not closed. */
    probes: set<nat>,
    reported: seq<nat>,
    dropped: set<nat>,
    calls: seq<Call>)

  datatype Step =
    | Admit(now: nat)
    | Deny(now: nat)
    | Report(r: nat, result: Outcome, now: nat)
    | Drop(r: nat)

  ghost predicate Init(s: State) { s == State(Closed(0), {}, 0, {}, [], {}, []) }

  predicate Enabled(c: Client, s: State, step: Step) {
    match step
    case Admit(now) => |s.inFlight| < c.permits && Admits(s.circuit, now)
    case Deny(now) => |s.inFlight| < c.permits && !Admits(s.circuit, now)
    case Report(r, _, _) => r in s.inFlight
    case Drop(r) => r in s.inFlight
  }

  function Called(c: Client, s: State, call: Call): State {
    s.(circuit := Next(c.policy, s.circuit, call), calls := s.calls + [call])
  }

  function Apply(c: Client, s: State, step: Step): State
    requires Enabled(c, s, step)
  {
    match step
    case Admit(now) =>
      Called(c, s, BeforeRequest(now)).(
        inFlight := s.inFlight + {s.admitted},
        admitted := s.admitted + 1,
        probes := if s.circuit.Closed? then s.probes else s.probes + {s.admitted})
    case Deny(now) => Called(c, s, BeforeRequest(now))
    case Report(r, result, now) =>
      Called(c, s, Signal(result, now)).(inFlight := s.inFlight - {r}, reported := s.reported + [r])
    case Drop(r) => s.(inFlight := s.inFlight - {r}, dropped := s.dropped + {r})
  }

  /** States that follow each other, from anywhere. */
  ghost predicate IsPath(c: Client, run: seq<State>, steps: seq<Step>) {
    && |run| == |steps| + 1
    && forall i :: 0 <= i < |steps| ==> Enabled(c, run[i], steps[i]) && run[i + 1] == Apply(c, run[i], steps[i])
  }

  ghost predicate IsRun(c: Client, run: seq<State>, steps: seq<Step>) {
    IsPath(c, run, steps) && Init(run[0])
  }

  /** Left alone, the steps of a request tell the breaker what `Send` does. */
  lemma SendIsItsSteps(c: Client, s: State, before: nat, result: Outcome, after: nat)
    requires |s.inFlight| < c.permits && Admits(s.circuit, before)
    ensures var s1 := Apply(c, s, Admit(before));
            Apply(c, s1, Report(s.admitted, result, after)).calls == s.calls + [BeforeRequest(before)] + [Signal(result, after)]
  {
  }

  // ---- every admitted request is somewhere ---------------------------------------------------

  function Admissions(p: Policy, calls: seq<Call>): nat {
    if calls == [] then 0
    else
      var front, last := calls[..|calls| - 1], calls[|calls| - 1];
      Admissions(p, front) + if last.BeforeRequest? && Admits(After(p, front), last.now) then 1 else 0
  }

  function Reports(calls: seq<Call>): nat {
    if calls == [] then 0
    else Reports(calls[..|calls| - 1]) + if calls[|calls| - 1].BeforeRequest? then 0 else 1
  }

  /** Each admitted request is in flight, dropped or reported, and in one of these only. */
  ghost predicate Placed(s: State) {
    && (forall r: nat :: r < s.admitted <==> r in s.inFlight || r in s.dropped || r in s.reported)
    && s.inFlight !! s.dropped
    && (forall i :: 0 <= i < |s.reported| ==> s.reported[i] !in s.inFlight && s.reported[i] !in s.dropped)
    && Distinct(s.reported)
    && (forall r <- s.probes :: r < s.admitted)
  }

  ghost predicate Counted(s: State) { s.admitted == |s.reported| + |s.inFlight| + |s.dropped| }

  /** The breaker has been told of every admission and of every report, and of nothing else. */
  ghost predicate Told(c: Client, s: State) {
    && s.circuit == After(c.policy, s.calls)
    && Admissions(c.policy, s.calls) == s.admitted
    && Reports(s.calls) == |s.reported|
  }

  /** A probe under way is the request admitted last, and it has not reported. */
  ghost predicate ProbeIsLast(s: State) {
    s.circuit == HalfOpen(true) ==>
      s.admitted > 0 && s.admitted - 1 in s.probes && s.admitted - 1 in s.inFlight + s.dropped
  }

  ghost predicate Inv(c: Client, s: State) { Placed(s) && Counted(s) && Told(c, s) && ProbeIsLast(s) && |s.inFlight| <= c.permits }

  lemma PlacedNext(c: Client, s: State, step: Step)
    requires Placed(s) && Enabled(c, s, step)
    ensures Placed(Apply(c, s, step))
  {
  }

  lemma CountedNext(c: Client, s: State, step: Step)
    requires Placed(s) && Counted(s) && |s.inFlight| <= c.permits && Enabled(c, s, step)
    ensures Counted(Apply(c, s, step)) && |Apply(c, s, step).inFlight| <= c.permits
  {
  }

  lemma ToldNext(c: Client, s: State, step: Step)
    requires Told(c, s) && Enabled(c, s, step)
    ensures Told(c, Apply(c, s, step))
  {
    var s' := Apply(c, s, step);
    assert s'.calls != s.calls ==> s'.calls[..|s.calls|] == s.calls;
  }

  lemma ProbeIsLastNext(c: Client, s: State, step: Step)
    requires ProbeIsLast(s) && Placed(s) && Enabled(c, s, step)
    ensures ProbeIsLast(Apply(c, s, step))
  {
  }

  lemma {:induction false} InvHolds(c: Client, run: seq<State>, steps: seq<Step>, i: nat)
    requires IsRun(c, run, steps) && i < |run|
    ensures Inv(c, run[i])
  {
    if i > 0 {
      InvHolds(c, run, steps, i - 1);
      assert run[i - 1 + 1] == Apply(c, run[i - 1], steps[i - 1]);
      PlacedNext(c, run[i - 1], steps[i - 1]);
      CountedNext(c, run[i - 1], steps[i - 1]);
      ToldNext(c, run[i - 1], steps[i - 1]);
      ProbeIsLastNext(c, run[i - 1], steps[i - 1]);
    }
  }

  lemma {:induction false} DistinctCount(s: seq<nat>, x: nat)
    requires Distinct(s)
    ensures multiset(s)[x] == if x in s then 1 else 0
  {
    if s != [] {
      var n := |s| - 1;
      DistinctCount(s[..n], x);
      assert s == s[..n] + [s[n]];
      assert s[n] !in s[..n];
    }
  }

  /**
   Admissions = reports + in flight + dropped, for the requests and for what
   the breaker was told.  A request that is no longer in flight has reported
   exactly once if it was not dropped, and not at all if it was.
   */
  lemma EveryAdmissionIsAccountedFor(c: Client, run: seq<State>, steps: seq<Step>, i: nat, r: nat)
    requires IsRun(c, run, steps) && i < |run|
    ensures var s := run[i];
            && Admissions(c.policy, s.calls) == Reports(s.calls) + |s.inFlight| + |s.dropped|
            && Admissions(c.policy, s.calls) == s.admitted && Reports(s.calls) == |s.reported|
            && s.circuit == After(c.policy, s.calls)
            && (r < s.admitted && r !in s.inFlight ==> multiset(s.reported)[r] == if r in s.dropped then 0 else 1)
            && (r in s.inFlight || r >= s.admitted ==> multiset(s.reported)[r] == 0)
  {
    InvHolds(c, run, steps, i);
    DistinctCount(run[i].reported, r);
  }

  // ---- a dropped probe -----------------------------------------------------------------------

  /** While a probe is out and nobody reports, nobody is admitted. */
  lemma {:induction false} NoAdmissionWithoutReport(c: Client, run: seq<State>, steps: seq<Step>, i: nat, j: nat)
    requires IsPath(c, run, steps) && i <= j < |run| && run[i].circuit == HalfOpen(true)
    requires forall k :: i <= k < j ==> !steps[k].Report?
    ensures run[j].circuit == HalfOpen(true) && run[j].admitted == run[i].admitted
  {
    if i < j {
      NoAdmissionWithoutReport(c, run, steps, i, j - 1);
      assert run[j - 1 + 1] == Apply(c, run[j - 1], steps[j - 1]);
    }
  }

  /** A probe is out and nobody is left who could report. */
  predicate Stuck(s: State) { s.circuit == HalfOpen(true) && s.inFlight == {} }

  lemma {:induction false} StuckStays(c: Client, run: seq<State>, steps: seq<Step>, i: nat)
    requires IsPath(c, run, steps) && i < |run| && Stuck(run[0])
    ensures Stuck(run[i]) && run[i].admitted == run[0].admitted
  {
    if i > 0 {
      StuckStays(c, run, steps, i - 1);
      assert run[i - 1 + 1] == Apply(c, run[i - 1], steps[i - 1]);
    }
  }

  /** Some continuation admits a request. */
  ghost predicate MayAdmit(c: Client, s: State) {
    exists run: seq<State>, steps: seq<Step> :: IsPath(c, run, steps) && run[0] == s && run[|run| - 1].admitted > s.admitted
  }

  /** A time at which a circuit that has no probe out admits. */
  function AdmissionTime(k: Circuit): nat { if k.Open? then k.until else 0 }

  lemma OneStep(c: Client, s: State, step: Step)
    requires Enabled(c, s, step)
    ensures IsPath(c, [s, Apply(c, s, step)], [step])
  {
  }

  lemma TwoSteps(c: Client, s: State, first: Step, second: Step)
    requires Enabled(c, s, first) && Enabled(c, Apply(c, s, first), second)
    ensures var s1 := Apply(c, s, first); IsPath(c, [s, s1, Apply(c, s1, second)], [first, second])
  {
  }

  lemma FreeMayAdmit(c: Client, s: State)
    requires ValidClient(c) && s.inFlight == {} && s.circuit != HalfOpen(true)
    ensures MayAdmit(c, s)
  {
    var admit := Admit(AdmissionTime(s.circuit));
    OneStep(c, s, admit);
    var run := [s, Apply(c, s, admit)];
    assert IsPath(c, run, [admit]) && run[|run| - 1].admitted > s.admitted;
  }

  lemma BusyMayAdmit(c: Client, s: State, r: nat)
    requires r in s.inFlight && |s.inFlight| <= c.permits
    ensures MayAdmit(c, s)
  {
    var report, admit := Report(r, Answered(""), 0), Admit(0);
    var s1 := Apply(c, s, report);
    assert s1.circuit == Closed(0) && |s1.inFlight| == |s.inFlight| - 1;
    TwoSteps(c, s, report, admit);
    var run := [s, s1, Apply(c, s1, admit)];
    assert IsPath(c, run, [report, admit]) && run[|run| - 1].admitted > s.admitted;
  }

  /** The breaker can admit again if and only if it is not stuck; a stuck one never does, and its probe was dropped. */
  lemma AdmitsAgainUnlessStuck(c: Client, s: State)
    requires ValidClient(c) && Inv(c, s)
    ensures MayAdmit(c, s) <==> !Stuck(s)
    ensures Stuck(s) ==> s.admitted > 0 && s.admitted - 1 in s.dropped && s.admitted - 1 in s.probes
  {
    if Stuck(s) {
      if MayAdmit(c, s) {
        var run: seq<State>, steps: seq<Step> :| IsPath(c, run, steps) && run[0] == s && run[|run| - 1].admitted > s.admitted;
        StuckStays(c, run, steps, |run| - 1);
      }
    } else if s.inFlight == {} {
      FreeMayAdmit(c, s);
    } else {
      var r :| r in s.inFlight;
      BusyMayAdmit(c, s, r);
    }
  }

  lemma Extend(c: Client, run: seq<State>, steps: seq<Step>, step: Step) returns (run': seq<State>, steps': seq<Step>)
    requires IsRun(c, run, steps) && Enabled(c, run[|steps|], step)
    ensures IsRun(c, run', steps') && run'[|steps'|] == Apply(c, run[|steps|], step)
  {
    run', steps' := run + [Apply(c, run[|steps|], step)], steps + [step];
    forall i | 0 <= i < |steps'|
      ensures Enabled(c, run'[i], steps'[i]) && run'[i + 1] == Apply(c, run'[i], steps'[i])
    {
      if i < |steps| { assert run[i + 1] == Apply(c, run[i], steps[i]); }
    }
  }

  lemma {:induction false} FailTimes(c: Client, n: nat) returns (run: seq<State>, steps: seq<Step>)
    requires ValidClient(c) && n <= c.policy.threshold
    ensures IsRun(c, run, steps) && run[|steps|].inFlight == {}
    ensures run[|steps|].circuit == if n < c.policy.threshold then Closed(n) else Open(c.policy.openFor)
  {
    if n == 0 {
      run, steps := [State(Closed(0), {}, 0, {}, [], {}, [])], [];
    } else {
      run, steps := FailTimes(c, n - 1);
      var r := run[|steps|].admitted;
      run, steps := Extend(c, run, steps, Admit(0));
      run, steps := Extend(c, run, steps, Report(r, Failed(Timeout), 0));
    }
  }

  /** Every client can get stuck: enough failures, then a probe whose caller drops it. */
  lemma DroppedProbeWitness(c: Client) returns (run: seq<State>, steps: seq<Step>)
    requires ValidClient(c)
    ensures IsRun(c, run, steps) && Stuck(run[|steps|]) && !MayAdmit(c, run[|steps|])
  {
    run, steps := FailTimes(c, c.policy.threshold);
    var r := run[|steps|].admitted;
    run, steps := Extend(c, run, steps, Admit(c.policy.openFor));
    run, steps := Extend(c, run, steps, Drop(r));
    InvHolds(c, run, steps, |steps|);
    AdmitsAgainUnlessStuck(c, run[|steps|]);
  }

  // ---- two probes at once ----------------------------------------------------------------------

  /** A request admitted before probe `p` reports while `p` is out. */
  predicate StragglerReports(s: State, step: Step, p: nat) { step.Report? && step.r < p < s.admitted && p in s.inFlight }

  ghost predicate Straggled(run: seq<State>, steps: seq<Step>, j: nat, p: nat)
    requires j <= |steps| < |run|
  {
    exists i :: 0 <= i < j && StragglerReports(run[i], steps[i], p)
  }

  predicate JustProbing(s: State, p: nat) { s.circuit == HalfOpen(true) && s.admitted == p + 1 }

  lemma ProbingNext(c: Client, s: State, step: Step, p: nat)
    requires Placed(s) && Enabled(c, s, step)
    requires p in Apply(c, s, step).probes && p in Apply(c, s, step).inFlight
    ensures p == s.admitted ==> JustProbing(Apply(c, s, step), p)
    ensures p != s.admitted ==> p in s.probes && p in s.inFlight
    ensures p != s.admitted && JustProbing(s, p) ==> JustProbing(Apply(c, s, step), p) || StragglerReports(s, step, p)
  {
  }

  lemma {:induction false} AloneUntilStraggler(c: Client, run: seq<State>, steps: seq<Step>, j: nat, p: nat)
    requires IsRun(c, run, steps) && j < |run| && p in run[j].probes && p in run[j].inFlight
    ensures JustProbing(run[j], p) || Straggled(run, steps, j, p)
  {
    if j > 0 {
      InvHolds(c, run, steps, j - 1);
      assert Enabled(c, run[j - 1], steps[j - 1]) && run[j - 1 + 1] == Apply(c, run[j - 1], steps[j - 1]);
      ProbingNext(c, run[j - 1], steps[j - 1], p);
      if p != run[j - 1].admitted { AloneUntilStraggler(c, run, steps, j - 1, p); }
    }
  }

  /** Two requests admitted while the circuit was not closed are out at once only after a straggler has reported. */
  lemma TwoProbesMeanStraggler(c: Client, run: seq<State>, steps: seq<Step>, j: nat, p: nat, q: nat)
    requires IsRun(c, run, steps) && j < |run| && p < q
    requires p in run[j].probes && q in run[j].probes && p in run[j].inFlight && q in run[j].inFlight
    ensures Straggled(run, steps, j, p)
  {
    InvHolds(c, run, steps, j);
    AloneUntilStraggler(c, run, steps, j, p);
  }

  /** Some continuation has probe `p` and a later one out at once. */
  ghost predicate MayOverlap(c: Client, s: State, p: nat) {
    exists run: seq<State>, steps: seq<Step> :: IsPath(c, run, steps) && run[0] == s && Overlaps(run[|run| - 1], p)
  }

  ghost predicate Overlaps(s: State, p: nat) {
    p in s.inFlight && exists q :: q in s.inFlight && q in s.probes && q > p
  }

  /** As long as `p` is out it is alone. */
  ghost predicate OnlyOut(s: State, p: nat) {
    p < s.admitted && (p in s.inFlight ==> s.inFlight == {p} && s.circuit == HalfOpen(true))
  }

  lemma {:induction false} OnlyOutStays(c: Client, run: seq<State>, steps: seq<Step>, i: nat, p: nat)
    requires IsPath(c, run, steps) && i < |run| && OnlyOut(run[0], p)
    ensures OnlyOut(run[i], p)
  {
    if i > 0 {
      OnlyOutStays(c, run, steps, i - 1, p);
      assert run[i - 1 + 1] == Apply(c, run[i - 1], steps[i - 1]);
    }
  }

  lemma StragglerLetsOverlap(c: Client, s: State, p: nat, r: nat)
    requires s.circuit == HalfOpen(true) && s.admitted == p + 1 && p in s.inFlight
    requires r in s.inFlight && r != p && |s.inFlight| <= c.permits
    ensures MayOverlap(c, s, p)
  {
    var report, admit := Report(r, Failed(Cancelled), 0), Admit(0);
    var s1 := Apply(c, s, report);
    assert s1.circuit == HalfOpen(false) && |s1.inFlight| == |s.inFlight| - 1;
    TwoSteps(c, s, report, admit);
    var run := [s, s1, Apply(c, s1, admit)];
    assert run[2].admitted == p + 2 && p + 1 in run[2].inFlight && p + 1 in run[2].probes;
    assert IsPath(c, run, [report, admit]) && Overlaps(run[|run| - 1], p);
  }

  /** With probe `p` out, another one can join it if and only if some older request is still out too. */
  lemma OverlapExactlyWithStraggler(c: Client, s: State, p: nat)
    requires Inv(c, s) && s.circuit == HalfOpen(true) && s.admitted == p + 1 && p in s.inFlight
    ensures MayOverlap(c, s, p) <==> s.inFlight != {p}
    ensures forall r <- s.inFlight :: r <= p
  {
    if s.inFlight == {p} {
      if MayOverlap(c, s, p) {
        var run: seq<State>, steps: seq<Step> :| IsPath(c, run, steps) && run[0] == s && Overlaps(run[|run| - 1], p);
        OnlyOutStays(c, run, steps, |run| - 1, p);
      }
    } else {
      var r :| r in s.inFlight && r != p;
      StragglerLetsOverlap(c, s, p, r);
    }
  }
}
