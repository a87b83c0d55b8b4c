/**
 Overlapping agent runs: each takes a generation, registers it, and may return
 its own result only if no later run has superseded it.
 */
module AgentRuns {
  import opened Prelude

  /** The two atomic counters of the agent loop. */
  class Generations {
    var next: nat
    var active: nat

    constructor ()
      ensures next == 0 && active == 0
    {
      next, active := 0, 0;
    }

    method Mint() returns (g: nat)
      modifies `next
      ensures g == next == old(next) + 1
    {
      next := next + 1;
      return next;
    }

    /** `fetch_max`: a late registration does not displace a later run. */
    method Register(g: nat)
      modifies `active
      ensures active == Max(old(active), g)
    {
      if g > active { active := g; }
    }

    method IsCurrent(g: nat) returns (current: bool)
      ensures current <==> next == g && active == g
    {
      if next != g { return false; }
      return active == g;
    }

    /** The guard's drop: only the run's own registration is withdrawn. */
    method Release(g: nat)
      modifies `active
      ensures active == if old(active) == g then 0 else old(active)
    {
      if active == g { active := 0; }
    }

    /** A run that nothing overlaps returns its own result and leaves nothing registered. */
    method RunSeeded<R>(result: R) returns (r: Option<R>)
      requires active == 0
      modifies this
      ensures r == Some(result) && active == 0 && next == old(next) + 1
    {
      var g := Mint();
      Register(g);
      var current := IsCurrent(g);
      r := if current then Some(result) else None;
      Release(g);
    }
  }

  datatype Phase =
    | Minted
    | Running
    /** Between the two loads of the final check. */
    | Passed
    | Returned

  datatype State = State(
    next: nat,
    active: nat,
    runs: map<nat, Phase>,
    // History, read by no step.
    registered: set<nat>,
    /** The runs that returned their own result, in that order. */
    accepted: seq<nat>)

  datatype Step =
    | Mint
    | Register(g: nat)
    | CheckNext(g: nat)
    | CheckActive(g: nat)
    /** The guard is dropped: after returning, or because the caller gave up. */
    | Release(g: nat)

  ghost predicate Init(s: State) { s == State(0, 0, map[], {}, []) }

  predicate Enabled(s: State, step: Step) {
    match step
    case Mint => true
    case Register(g) => g in s.runs && s.runs[g].Minted?
    case CheckNext(g) => g in s.runs && s.runs[g].Running?
    case CheckActive(g) => g in s.runs && s.runs[g].Passed?
    case Release(g) => g in s.runs && !s.runs[g].Minted?
  }

  function Apply(s: State, step: Step): State
    requires Enabled(s, step)
  {
    match step
    case Mint => s.(next := s.next + 1, runs := s.runs[s.next + 1 := Minted])
    case Register(g) =>
      s.(active := Max(s.active, g), runs := s.runs[g := Running], registered := s.registered + {g})
    case CheckNext(g) => s.(runs := s.runs[g := if s.next == g then Passed else Returned])
    case CheckActive(g) =>
      s.(runs := s.runs[g := Returned], accepted := if s.active == g then s.accepted + [g] else s.accepted)
    case Release(g) => s.(active := if s.active == g then 0 else s.active, runs := s.runs - {g})
  }

  ghost predicate IsRun(run: seq<State>, steps: seq<Step>) {
    && |run| == |steps| + 1
    && Init(run[0])
    && forall i :: 0 <= i < |steps| ==> Enabled(run[i], steps[i]) && run[i + 1] == Apply(run[i], steps[i])
  }

  /** Left alone, the steps of a run do to the counters what `RunSeeded` does, and return its own result. */
  lemma RunIsItsSteps(s: State)
    requires s.active == 0 && s.next + 1 !in s.runs
    ensures var g := s.next + 1;
            var s1 := Apply(Apply(s, Mint), Register(g));
            var s2 := Apply(Apply(s1, CheckNext(g)), CheckActive(g));
            var s3 := Apply(s2, Release(g));
            && s1.active == Max(s.active, g) && s1.next == g
            && s3.active == 0 && s3.next == s.next + 1 && s3.accepted == s.accepted + [g] && s3.runs == s.runs
  {
  }

  // ---- invariant ------------------------------------------------------------------------

  predicate Live(s: State, g: nat) { g in s.runs && !s.runs[g].Minted? }

  predicate Newest(s: State, g: nat) { forall h <- s.registered :: h <= g }

  ghost predicate Bounded(s: State) {
    && (forall g <- s.runs :: 1 <= g <= s.next && (g in s.registered <==> !s.runs[g].Minted?))
    && (forall g <- s.registered :: 1 <= g <= s.next)
  }

  /**
   The registration counter names a live run.  It names every live run that is
   the newest registered one, and a run between its two checks only then.
   */
  ghost predicate NamesNewest(s: State) {
    && (s.active != 0 ==> Live(s, s.active))
    && (forall g <- s.runs :: Live(s, g) && Newest(s, g) ==> s.active == g)
    && (forall g <- s.runs :: s.runs[g].Passed? && s.active == g ==> Newest(s, g))
  }

  ghost predicate InOrder(s: State) {
    && (forall i :: 0 <= i < |s.accepted| ==>
          s.accepted[i] in s.registered && (s.accepted[i] in s.runs ==> s.runs[s.accepted[i]].Returned?))
    && (forall i, j :: 0 <= i < j < |s.accepted| ==> s.accepted[i] < s.accepted[j])
  }

  ghost predicate Inv(s: State) { Bounded(s) && NamesNewest(s) && InOrder(s) }

  lemma NamesNewestNext(s: State, step: Step)
    requires Bounded(s) && NamesNewest(s) && Enabled(s, step)
    ensures NamesNewest(Apply(s, step))
  {
    var s' := Apply(s, step);
    if step.Register? {
      assert step.g in s'.registered;
      forall g <- s'.runs | Live(s', g) && Newest(s', g) ensures s'.active == g {
        assert step.g <= g;
        if step.g != g { assert Live(s, g) && Newest(s, g); }
        else if s.active != 0 { assert s.active in s.registered; }
      }
      forall g <- s'.runs | s'.runs[g].Passed? && s'.active == g ensures Newest(s', g) {
        assert g != step.g && s.active == g;
      }
    } else {
      assert s'.registered == s.registered;
      assert forall g :: Newest(s', g) == Newest(s, g);
    }
  }

  lemma InOrderNext(s: State, step: Step)
    requires Inv(s) && Enabled(s, step)
    ensures InOrder(Apply(s, step))
  {
    if step.CheckActive? && s.active == step.g {
      assert Newest(s, step.g);
      assert forall i :: 0 <= i < |s.accepted| ==> s.accepted[i] <= step.g && s.accepted[i] != step.g;
    }
  }

  lemma {:induction false} InvHolds(run: seq<State>, steps: seq<Step>, i: nat)
    requires IsRun(run, steps) && i < |run|
    ensures Inv(run[i])
  {
    if i > 0 {
      InvHolds(run, steps, i - 1);
      assert run[i - 1 + 1] == Apply(run[i - 1], steps[i - 1]);
      NamesNewestNext(run[i - 1], steps[i - 1]);
      InOrderNext(run[i - 1], steps[i - 1]);
    }
  }

  // ---- whole runs ------------------------------------------------------------------------

  /** Results are returned in strictly increasing generation order. */
  lemma AcceptedInOrder(run: seq<State>, steps: seq<Step>, i: nat, m: nat, n: nat)
    requires IsRun(run, steps) && i < |run| && m < n < |run[i].accepted|
    ensures run[i].accepted[m] < run[i].accepted[n]
  {
    InvHolds(run, steps, i);
  }

  /** At its second check a run returns its own result exactly if no later run has registered. */
  lemma AcceptedExactlyIfNewest(run: seq<State>, steps: seq<Step>, i: nat, g: nat)
    requires IsRun(run, steps) && i < |steps| && steps[i] == CheckActive(g)
    ensures g in run[i + 1].accepted <==> Newest(run[i], g)
  {
    InvHolds(run, steps, i);
    assert Enabled(run[i], steps[i]) && run[i + 1] == Apply(run[i], steps[i]);
    assert Live(run[i], g);
  }

  /** A later run was minted before the run's first check, or registered before it returned its result. */
  ghost predicate Overtaken(s: State, g: nat) {
    || (g in s.runs && (s.runs[g].Minted? || s.runs[g].Running?) && s.next > g)
    || !Newest(s, g)
  }

  /** The run will not return its own result any more. */
  ghost predicate Superseded(s: State, g: nat) {
    && g !in s.accepted && g <= s.next
    && (Overtaken(s, g) || g !in s.runs || s.runs[g].Returned?)
  }

  lemma SupersededNext(s: State, step: Step, g: nat)
    requires Inv(s) && Superseded(s, g) && Enabled(s, step)
    ensures Superseded(Apply(s, step), g)
  {
    var s' := Apply(s, step);
    if !Newest(s, g) {
      var h :| h in s.registered && h > g;
      assert h in s'.registered;
    }
  }

  lemma {:induction false} SupersededStays(run: seq<State>, steps: seq<Step>, i: nat, j: nat, g: nat)
    requires IsRun(run, steps) && i <= j < |run| && Superseded(run[i], g)
    ensures Superseded(run[j], g)
  {
    if i < j {
      SupersededStays(run, steps, i, j - 1, g);
      InvHolds(run, steps, j - 1);
      assert run[j - 1 + 1] == Apply(run[j - 1], steps[j - 1]);
      SupersededNext(run[j - 1], steps[j - 1], g);
    }
  }

  /** A run overtaken before it returned never returns its own result, however the others go on. */
  lemma OvertakenNeverAccepted(run: seq<State>, steps: seq<Step>, i: nat, j: nat, g: nat)
    requires IsRun(run, steps) && i <= j < |run|
    requires g <= run[i].next && g !in run[i].accepted && Overtaken(run[i], g)
    ensures g !in run[j].accepted
  {
    SupersededStays(run, steps, i, j, g);
  }

  /** A registered generation belongs to a run that is still there; when none is left, none is registered. */
  lemma ActiveIsLive(run: seq<State>, steps: seq<Step>, i: nat)
    requires IsRun(run, steps) && i < |run|
    ensures run[i].active != 0 ==> Live(run[i], run[i].active)
    ensures run[i].runs == map[] ==> run[i].active == 0
  {
    InvHolds(run, steps, i);
  }
}
