/**
 Model activation: a generation-guarded, two-phase protocol.

 A backend is built outside the state lock and committed inside it; every
 change of candidate takes a new generation, and a commit whose operation id
 is no longer the current generation is ignored.
 */
module Activations {
  import opened Prelude

  datatype BackendKind = Production | DevelopmentMock | Unavailable

  datatype Category = BackendUnavailable | VerificationMismatch | ModelLoad | BackendRejected | Internal

  /** Model and revision. */
  type Model = (string, string)

  datatype Descriptor = Descriptor(model: string, revision: string, artifact: string, path: string) {
    predicate SameModel(m: Model) { model == m.0 && revision == m.1 }

    predicate SameArtifact(other: Descriptor) {
      model == other.model && revision == other.revision && artifact == other.artifact
    }
  }

  /** A constructed backend; `id` tells two constructions apart. */
  datatype Backend = Backend(id: nat, kind: BackendKind)

  datatype Active = Active(model: string, revision: string, artifact: string, backend: Backend)

  datatype Status =
    | NoModelSelected
    | ModelMissing(model: string, revision: string, generation: nat)
    | ModelVerifying(model: string, revision: string, generation: nat)
    | ModelVerified(model: string, revision: string, artifact: string, generation: nat)
    | Activating(model: string, revision: string, artifact: string, operation: nat)
    | Ready(model: string, revision: string, artifact: string, operation: nat, kind: BackendKind)
    | ActivationFailed(model: string, revision: string, artifact: string, operation: nat, category: Category)
    | Deactivating(model: string, revision: string, artifact: string, operation: nat)

  datatype Service = Service(
    selected: Option<Model>,
    verified: Option<Descriptor>,
    status: Status,
    active: Option<Active>,
    generation: nat)

  const IDLE := Service(None, None, NoModelSelected, None, 0)

  // ---- critical sections -------------------------------------------------------

  predicate Selected(v: Service, d: Descriptor) {
    v.selected.Some? && d.SameModel(v.selected.value)
  }

  predicate StillVerified(v: Service, d: Descriptor) {
    v.verified.Some? && v.verified.value.SameArtifact(d)
  }

  function Missing(v: Service, m: Model): Service {
    Service(Some(m), None, ModelMissing(m.0, m.1, v.generation + 1), v.active, v.generation + 1)
  }

  function Verifying(v: Service, m: Model): Service {
    Service(Some(m), None, ModelVerifying(m.0, m.1, v.generation + 1), v.active, v.generation + 1)
  }

  predicate AcceptsVerified(v: Service, generation: nat, d: Descriptor) {
    v.generation == generation && Selected(v, d)
  }

  function Verified(v: Service, generation: nat, d: Descriptor): Service {
    if AcceptsVerified(v, generation, d)
    then v.(verified := Some(d), status := ModelVerified(d.model, d.revision, d.artifact, generation))
    else v
  }

  predicate AcceptsFailure(v: Service, generation: nat, m: Model) {
    v.generation == generation && v.selected == Some(m) && v.status == ModelVerifying(m.0, m.1, generation)
  }

  function VerificationFailed(v: Service, generation: nat, m: Model, artifact: string, category: Category): Service {
    if AcceptsFailure(v, generation, m)
    then v.(verified := None, status := ActivationFailed(m.0, m.1, artifact, generation, category))
    else v
  }

  predicate MayStart(v: Service) { v.verified.Some? && Selected(v, v.verified.value) }

  /** The new operation id is the new generation. */
  function Started(v: Service): Service
    requires MayStart(v)
  {
    var d := v.verified.value;
    v.(status := Activating(d.model, d.revision, d.artifact, v.generation + 1), generation := v.generation + 1)
  }

  /** What the factory brought back: a backend, an error, or a contained panic. */
  datatype Built = Constructed(backend: Backend) | FactoryFailed(category: Category)

  datatype Commit = Committed | Failed(category: Category) | StaleIgnored

  function CommitOf(v: Service, operation: nat, d: Descriptor, built: Built): Commit {
    if built.Constructed? && built.backend.kind != Unavailable then
      if v.generation == operation && Selected(v, d) && StillVerified(v, d) then Committed else StaleIgnored
    else
      var category := if built.Constructed? then BackendUnavailable else built.category;
      if v.generation == operation && Selected(v, d) then Failed(category) else StaleIgnored
  }

  function AfterCommit(v: Service, operation: nat, d: Descriptor, built: Built): Service {
    match CommitOf(v, operation, d, built)
    case Committed =>
      v.(active := Some(Active(d.model, d.revision, d.artifact, built.backend)),
         status := Ready(d.model, d.revision, d.artifact, operation, built.backend.kind))
    case Failed(category) =>
      v.(status := ActivationFailed(d.model, d.revision, d.artifact, operation, category))
    case StaleIgnored => v
  }

  /**
   What the end of an activation does.  A usable backend is committed if and
   only if the activation is still current, its model still selected and its
   artifact still the verified one; then it is active, whatever was before.
   Without one, the failure is recorded if the activation is current and its
   model selected.  In every other case nothing changes.
   */
  ghost predicate Concludes(v: Service, v': Service, operation: nat, d: Descriptor, built: Built, commit: Commit) {
    var usable := built.Constructed? && built.backend.kind != Unavailable;
    var current := v.generation == operation && v.selected == Some((d.model, d.revision));
    var attested := v.verified.Some? && v.verified.value.model == d.model && v.verified.value.revision == d.revision
                    && v.verified.value.artifact == d.artifact;
    && (commit.Committed? <==> usable && current && attested)
    && (commit.Failed? <==> !usable && current)
    && v'.selected == v.selected && v'.verified == v.verified && v'.generation == v.generation
    && (commit.Committed? ==>
          && v'.active == Some(Active(d.model, d.revision, d.artifact, built.backend))
          && v'.status == Ready(d.model, d.revision, d.artifact, operation, built.backend.kind))
    && (commit.Failed? ==>
          && commit.category == (if built.Constructed? then BackendUnavailable else built.category)
          && v'.active == v.active
          && v'.status == ActivationFailed(d.model, d.revision, d.artifact, operation, commit.category))
    && (commit.StaleIgnored? ==> v' == v)
  }

  lemma CommitConcludes(v: Service, operation: nat, d: Descriptor, built: Built)
    ensures Concludes(v, AfterCommit(v, operation, d, built), operation, d, built, CommitOf(v, operation, d, built))
  {
  }

  function Retired(v: Service): Service {
    var operation := v.generation + 1;
    v.(status := if v.active.Some?
                 then Deactivating(v.active.value.model, v.active.value.revision, v.active.value.artifact, operation)
                 else NoModelSelected,
       active := None, generation := operation)
  }

  function Settled(v: Service, operation: nat, selected: Option<Model>, verified: Option<Descriptor>): Service {
    if v.generation != operation then v
    else v.(status :=
      if selected.Some? && verified.Some? && verified.value.SameModel(selected.value)
      then ModelVerified(selected.value.0, selected.value.1, verified.value.artifact, operation)
      else if selected.Some? && verified.None?
      then ModelMissing(selected.value.0, selected.value.1, operation)
      else NoModelSelected)
  }

  // ---- the class ---------------------------------------------------------------

  class ModelActivationService {
    var selected: Option<Model>
    var verified: Option<Descriptor>
    var status: Status
    var active: Option<Active>
    var generation: nat

    ghost function View(): Service
      reads this
    {
      Service(selected, verified, status, active, generation)
    }

    constructor ()
      ensures View() == IDLE
    {
      selected, verified, status, active, generation := None, None, NoModelSelected, None, 0;
    }

    method MarkModelMissing(m: Model) returns (g: nat)
      modifies this
      ensures View() == Missing(old(View()), m)
      ensures g == generation == old(generation) + 1 && active == old(active)
      ensures selected == Some(m) && verified.None? && status == ModelMissing(m.0, m.1, g)
    {
      generation := generation + 1;
      selected, verified, status := Some(m), None, ModelMissing(m.0, m.1, generation);
      return generation;
    }

    method BeginVerification(m: Model) returns (g: nat)
      modifies this
      ensures View() == Verifying(old(View()), m)
      ensures g == generation == old(generation) + 1 && active == old(active)
      ensures selected == Some(m) && verified.None? && status == ModelVerifying(m.0, m.1, g)
    {
      generation := generation + 1;
      selected, verified, status := Some(m), None, ModelVerifying(m.0, m.1, generation);
      return generation;
    }

    method MarkVerified(g: nat, d: Descriptor) returns (accepted: bool)
      modifies this
      ensures View() == Verified(old(View()), g, d)
      ensures accepted <==> old(generation) == g && old(selected) == Some((d.model, d.revision))
      ensures generation == old(generation) && selected == old(selected) && active == old(active)
      ensures verified == if accepted then Some(d) else old(verified)
      ensures status == if accepted then ModelVerified(d.model, d.revision, d.artifact, g) else old(status)
    {
      if generation != g { return false; }
      if !(selected.Some? && d.SameModel(selected.value)) { return false; }
      verified, status := Some(d), ModelVerified(d.model, d.revision, d.artifact, g);
      return true;
    }

    method MarkVerificationFailed(g: nat, m: Model, artifact: string, category: Category) returns (accepted: bool)
      modifies this
      ensures View() == VerificationFailed(old(View()), g, m, artifact, category)
      ensures accepted <==>
                old(generation) == g && old(selected) == Some(m) && old(status) == ModelVerifying(m.0, m.1, g)
      ensures generation == old(generation) && selected == old(selected) && active == old(active)
      ensures verified == if accepted then None else old(verified)
      ensures status == if accepted then ActivationFailed(m.0, m.1, artifact, g, category) else old(status)
    {
      if generation != g { return false; }
      var selectedMatches := selected == Some(m);
      var verifyingMatches := status.ModelVerifying? && status.model == m.0 && status.revision == m.1 && status.generation == g;
      if !selectedMatches || !verifyingMatches { return false; }
      verified, status := None, ActivationFailed(m.0, m.1, artifact, g, category);
      return true;
    }

    /** First critical section of `activate_verified`. */
    method StartActivation() returns (started: Option<(Descriptor, nat)>)
      modifies this
      ensures View() == if old(MayStart(View())) then Started(old(View())) else old(View())
      ensures started.Some? <==>
                old(verified).Some? && old(selected) == Some((old(verified).value.model, old(verified).value.revision))
      ensures selected == old(selected) && verified == old(verified) && active == old(active)
      ensures started.Some? ==>
                var d := verified.value;
                && started.value == (d, generation) && generation == old(generation) + 1
                && status == Activating(d.model, d.revision, d.artifact, generation)
    {
      if verified.None? { return None; }
      var d := verified.value;
      if !(selected.Some? && d.SameModel(selected.value)) { return None; }
      generation := generation + 1;
      status := Activating(d.model, d.revision, d.artifact, generation);
      return Some((d, generation));
    }

    /** Second critical section of `activate_verified`: install, record the failure, or ignore. */
    method CommitActivation(operation: nat, d: Descriptor, built: Built) returns (commit: Commit)
      modifies this
      ensures commit == old(CommitOf(View(), operation, d, built))
      ensures View() == AfterCommit(old(View()), operation, d, built)
      ensures Concludes(old(View()), View(), operation, d, built, commit)
    {
      if built.FactoryFailed? {
        commit := CommitFailure(operation, d, built.category);
        return;
      }
      if built.backend.kind == Unavailable {
        commit := CommitFailure(operation, d, BackendUnavailable);
        return;
      }
      if generation != operation { return StaleIgnored; }
      var stillSelected := selected.Some? && d.SameModel(selected.value);
      var stillVerified := verified.Some? && verified.value.SameArtifact(d);
      if !stillSelected || !stillVerified { return StaleIgnored; }
      active := Some(Active(d.model, d.revision, d.artifact, built.backend));
      status := Ready(d.model, d.revision, d.artifact, operation, built.backend.kind);
      return Committed;
    }

    method CommitFailure(operation: nat, d: Descriptor, category: Category) returns (commit: Commit)
      modifies `status
      ensures var current := old(generation == operation && Selected(View(), d));
              && commit == (if current then Failed(category) else StaleIgnored)
              && status == (if current then ActivationFailed(d.model, d.revision, d.artifact, operation, category)
                            else old(status))
    {
      if generation != operation { return StaleIgnored; }
      if !(selected.Some? && d.SameModel(selected.value)) { return StaleIgnored; }
      status := ActivationFailed(d.model, d.revision, d.artifact, operation, category);
      return Failed(category);
    }

    /** Both critical sections of `deactivate`, with nothing in between. */
    method Deactivate() returns (operation: nat)
      modifies this
      ensures operation == old(generation) + 1
      ensures View() == Settled(Retired(old(View())), operation, old(selected), old(verified))
      ensures active.None? && generation == operation && selected == old(selected) && verified == old(verified)
      ensures status ==
                if selected.None? then NoModelSelected
                else if verified.None? then ModelMissing(selected.value.0, selected.value.1, operation)
                else if (verified.value.model, verified.value.revision) != selected.value then NoModelSelected
                else ModelVerified(verified.value.model, verified.value.revision, verified.value.artifact, operation)
    {
      generation := generation + 1;
      operation := generation;
      var selected0, verified0 := selected, verified;
      status := match active
        case Some(a) => Deactivating(a.model, a.revision, a.artifact, operation)
        case None => NoModelSelected;
      active := None;
      status := match (selected0, verified0)
        case (Some(m), Some(d)) =>
          if d.SameModel(m) then ModelVerified(m.0, m.1, d.artifact, operation) else NoModelSelected
        case (Some(m), None) => ModelMissing(m.0, m.1, operation)
        case (None, _) => NoModelSelected;
    }
  }
}

/** Every interleaving of verification, activation and deactivation calls. */
module ActivationRuns {
  import opened Prelude
  import opened Activations

  datatype State = State(
    service: Service,
    /** Activations between their two critical sections, by operation id. */
    activating: map<nat, Descriptor>,
    /** Deactivations between their two critical sections, with what they read. */
    deactivating: map<nat, (Option<Model>, Option<Descriptor>)>,
    // History, read by no step.
    accepted: set<Descriptor>,
    /** Operation ids of the Ready commits, in the order they happened. */
    ready: seq<nat>)

  datatype Step =
    | MarkMissing(m: Model)
    | BeginVerification(m: Model)
    | MarkVerified(g: nat, d: Descriptor)
    | MarkVerificationFailed(g: nat, m: Model, artifact: string, category: Category)
    | StartActivation
    | CommitActivation(operation: nat, built: Built)
    | DeactivateFirst
    | DeactivateSecond(operation: nat)
    /** A stale call that returns at its check before the lock, or a call that only reads. */
    | Read

  ghost predicate Init(s: State) { s == State(IDLE, map[], map[], {}, []) }

  predicate Enabled(s: State, step: Step) {
    match step
    case StartActivation => MayStart(s.service)
    case CommitActivation(operation, _) => operation in s.activating
    case DeactivateSecond(operation) => operation in s.deactivating
    case _ => true
  }

  function Apply(s: State, step: Step): State
    requires Enabled(s, step)
  {
    var v := s.service;
    match step
    case MarkMissing(m) => s.(service := Missing(v, m))
    case BeginVerification(m) => s.(service := Verifying(v, m))
    case MarkVerified(g, d) =>
      s.(service := Verified(v, g, d),
         accepted := if AcceptsVerified(v, g, d) then s.accepted + {d} else s.accepted)
    case MarkVerificationFailed(g, m, artifact, category) =>
      s.(service := VerificationFailed(v, g, m, artifact, category))
    case StartActivation =>
      s.(service := Started(v), activating := s.activating[v.generation + 1 := v.verified.value])
    case CommitActivation(operation, built) =>
      var d := s.activating[operation];
      s.(service := AfterCommit(v, operation, d, built),
         activating := s.activating - {operation},
         ready := if CommitOf(v, operation, d, built).Committed? then s.ready + [operation] else s.ready)
    case DeactivateFirst =>
      s.(service := Retired(v), deactivating := s.deactivating[v.generation + 1 := (v.selected, v.verified)])
    case DeactivateSecond(operation) =>
      var (selected, verified) := s.deactivating[operation];
      s.(service := Settled(v, operation, selected, verified), deactivating := s.deactivating - {operation})
    case Read => s
  }

  ghost predicate Next(s: State, s': State) {
    exists step :: Enabled(s, step) && s' == Apply(s, step)
  }

  ghost predicate IsRun(run: seq<State>) {
    && |run| > 0
    && Init(run[0])
    && forall i :: 0 <= i < |run| - 1 ==> Next(run[i], run[i + 1])
  }

  // ---- invariant ---------------------------------------------------------------

  /** An active backend is usable and was built for a descriptor that verification accepted. */
  ghost predicate Earned(a: Active, accepted: set<Descriptor>) {
    && a.backend.kind != Unavailable
    && exists d <- accepted :: d.model == a.model && d.revision == a.revision && d.artifact == a.artifact
  }

  /** `Ready` names exactly the active backend. */
  ghost predicate Truthful(v: Service) {
    v.status.Ready? ==>
      && v.active.Some?
      && var a := v.active.value;
         && v.status.model == a.model && v.status.revision == a.revision
         && v.status.artifact == a.artifact && v.status.kind == a.backend.kind
  }

  ghost predicate Inv(s: State) {
    && Truthful(s.service)
    && (s.service.active.Some? ==> Earned(s.service.active.value, s.accepted))
    && (s.service.verified.Some? ==> s.service.verified.value in s.accepted)
    && (forall operation <- s.activating :: operation <= s.service.generation && s.activating[operation] in s.accepted)
    && (forall operation <- s.deactivating :: operation <= s.service.generation && operation !in s.activating)
    // The current generation belongs to at most one operation, and a pending one has not committed.
    && (forall i :: 0 <= i < |s.ready| ==> s.ready[i] <= s.service.generation && s.ready[i] !in s.activating)
    && (forall i :: 0 <= i < |s.ready| ==> s.ready[i] !in s.deactivating)
    && (forall i, j :: 0 <= i < j < |s.ready| ==> s.ready[i] < s.ready[j])
  }

  lemma InvCommit(s: State, step: Step)
    requires Inv(s) && step.CommitActivation? && Enabled(s, step)
    ensures Inv(Apply(s, step))
  {
    var d := s.activating[step.operation];
    assert d in s.accepted;
  }

  lemma InvDeactivate(s: State, step: Step)
    requires Inv(s) && (step.DeactivateFirst? || step.DeactivateSecond?) && Enabled(s, step)
    ensures Inv(Apply(s, step))
  {
  }

  lemma InvNext(s: State, step: Step)
    requires Inv(s) && Enabled(s, step)
    ensures Inv(Apply(s, step))
  {
    if step.CommitActivation? {
      InvCommit(s, step);
    } else if step.DeactivateFirst? || step.DeactivateSecond? {
      InvDeactivate(s, step);
    }
  }

  lemma {:induction false} InvHolds(run: seq<State>, i: nat)
    requires IsRun(run) && i < |run|
    ensures Inv(run[i])
  {
    if i > 0 {
      InvHolds(run, i - 1);
      assert Next(run[i - 1], run[i - 1 + 1]);
      var step :| Enabled(run[i - 1], step) && run[i] == Apply(run[i - 1], step);
      InvNext(run[i - 1], step);
    }
  }

  // ---- whole runs --------------------------------------------------------------

  /** Ready commits happen in strictly increasing operation-id order. */
  lemma ReadyCommitsIncrease(run: seq<State>, i: nat, m: nat, n: nat)
    requires IsRun(run) && i < |run| && m < n < |run[i].ready|
    ensures run[i].ready[m] < run[i].ready[n]
  {
    InvHolds(run, i);
  }

  /** In every reachable state, `Ready` is truthful and an active backend was earned. */
  lemma ReadyIsTruthful(run: seq<State>, i: nat)
    requires IsRun(run) && i < |run|
    ensures Truthful(run[i].service)
    ensures run[i].service.active.Some? ==> Earned(run[i].service.active.value, run[i].accepted)
  {
    InvHolds(run, i);
  }

  /** Beginning verification, marking a model missing, activating and deactivating all supersede. */
  ghost predicate Supersedes(step: Step) {
    step.MarkMissing? || step.BeginVerification? || step.StartActivation? || step.DeactivateFirst?
  }

  /**
   An activation that was pending when a superseding step ran never becomes
   Ready afterwards, in any continuation.
   */
  lemma {:induction false} SupersededNeverInstalls(run: seq<State>, i: nat, j: nat, operation: nat, step: Step)
    requires IsRun(run) && i < j < |run| && operation in run[i].activating
    requires Supersedes(step) && Enabled(run[i], step) && run[i + 1] == Apply(run[i], step)
    ensures run[j].service.generation > operation
    ensures operation !in run[j].ready
    decreases j
  {
    InvHolds(run, i);
    if j == i + 1 {
      assert run[j].ready == run[i].ready;
    } else {
      SupersededNeverInstalls(run, i, j - 1, operation, step);
      assert Next(run[j - 1], run[j - 1 + 1]);
      SupersededNext(run[j - 1], run[j], operation);
    }
  }

  lemma SupersededNext(s: State, s': State, operation: nat)
    requires Next(s, s') && s.service.generation > operation && operation !in s.ready
    ensures s'.service.generation > operation && operation !in s'.ready
  {
    var last :| Enabled(s, last) && s' == Apply(s, last);
  }

  /** The activation is pending and nothing has superseded it or changed what was verified. */
  ghost predicate Undisturbed(s: State, operation: nat, d: Descriptor) {
    && operation in s.activating && s.activating[operation] == d
    && s.service.generation == operation
    && s.service.selected == Some((d.model, d.revision)) && s.service.verified == Some(d)
  }

  /** Steps that may come between the start and the commit of an activation without disturbing it. */
  ghost predicate LeavesAlone(step: Step, operation: nat) {
    && !Supersedes(step) && !step.MarkVerified? && !step.MarkVerificationFailed?
    && (step.CommitActivation? ==> step.operation != operation)
  }

  lemma UndisturbedNext(s: State, step: Step, operation: nat, d: Descriptor)
    requires Undisturbed(s, operation, d) && Enabled(s, step) && LeavesAlone(step, operation)
    ensures Undisturbed(Apply(s, step), operation, d)
  {
  }

  /** `steps` are the steps of the run. */
  ghost predicate Labelled(run: seq<State>, steps: seq<Step>) {
    && |run| == |steps| + 1
    && forall i :: 0 <= i < |steps| ==> Enabled(run[i], steps[i]) && run[i + 1] == Apply(run[i], steps[i])
  }

  lemma {:induction false} StaysUndisturbed(run: seq<State>, steps: seq<Step>, i: nat, j: nat, operation: nat, d: Descriptor)
    requires Labelled(run, steps) && i <= j < |run| && Undisturbed(run[i], operation, d)
    requires forall k :: i <= k < j ==> LeavesAlone(steps[k], operation)
    ensures Undisturbed(run[j], operation, d)
  {
    if i < j {
      StaysUndisturbed(run, steps, i, j - 1, operation, d);
      assert run[j - 1 + 1] == Apply(run[j - 1], steps[j - 1]);
      UndisturbedNext(run[j - 1], steps[j - 1], operation, d);
    }
  }

  /**
   An activation that is not disturbed between its start and its commit of a
   usable backend becomes Ready, and its backend is active, whatever was
   active before.
   */
  lemma UndisturbedActivationInstalls(run: seq<State>, steps: seq<Step>, i: nat, j: nat, backend: Backend)
    requires Labelled(run, steps) && i < j < |steps| && steps[i].StartActivation? && backend.kind != Unavailable
    requires var operation := run[i].service.generation + 1;
             && steps[j] == CommitActivation(operation, Constructed(backend))
             && forall k :: i < k < j ==> LeavesAlone(steps[k], operation)
    ensures run[i].service.verified.Some?
    ensures var s, d, operation := run[j + 1], run[i].service.verified.value, run[i].service.generation + 1;
            && s.ready == run[j].ready + [operation]
            && s.service.active == Some(Active(d.model, d.revision, d.artifact, backend))
            && s.service.status == Ready(d.model, d.revision, d.artifact, operation, backend.kind)
  {
    var operation := run[i].service.generation + 1;
    assert Enabled(run[i], steps[i]) && run[i + 1] == Apply(run[i], steps[i]);
    var d := run[i].service.verified.value;
    StaysUndisturbed(run, steps, i + 1, j, operation, d);
    assert Enabled(run[j], steps[j]) && run[j + 1] == Apply(run[j], steps[j]);
    CommitConcludes(run[j].service, operation, d, Constructed(backend));
  }

  /** The active backend changes only at a Ready commit, which installs it, or at a deactivation, which removes it. */
  lemma ActiveChangesOnlyThere(s: State, step: Step)
    requires Enabled(s, step) && Apply(s, step).service.active != s.service.active
    ensures var s' := Apply(s, step);
            || (step.DeactivateFirst? && s'.service.active.None?)
            || (step.CommitActivation? && s'.ready == s.ready + [step.operation]
                && s'.service.active.Some? && s'.service.active.value.backend == step.built.backend
                && s'.service.status.Ready? && s'.service.status.operation == step.operation)
  {
  }

  /**
   Deactivation is not undone by what was already running: whatever is active
   after it was installed by an activation with a later operation id.
   */
  lemma DeactivationHolds(run: seq<State>, i: nat, j: nat)
    requires IsRun(run) && i < j < |run| && run[i + 1] == Apply(run[i], DeactivateFirst)
    ensures run[j].service.active.Some? ==>
              |run[j].ready| > |run[i].ready| && run[j].ready[|run[j].ready| - 1] > run[i + 1].service.generation
  {
    InvHolds(run, i);
    DeactivatedStays(run, i + 1, j, |run[i].ready|, run[i + 1].service.generation);
  }

  /** Generation `g` went to a deactivation, before more than `n` Ready commits: nothing installed earlier is active. */
  ghost predicate Deactivated(s: State, n: nat, g: nat) {
    && (s.service.active.Some? ==> |s.ready| > n && s.ready[|s.ready| - 1] > g)
    && |s.ready| >= n && s.service.generation >= g && g !in s.activating
  }

  lemma DeactivatedNext(s: State, s': State, n: nat, g: nat)
    requires Next(s, s') && Deactivated(s, n, g)
    ensures Deactivated(s', n, g)
  {
    var last :| Enabled(s, last) && s' == Apply(s, last);
    if last.CommitActivation? {
      DeactivatedCommit(s, last, n, g);
    } else {
      assert s'.ready == s.ready && (s'.service.active == s.service.active || s'.service.active.None?);
    }
  }

  lemma DeactivatedCommit(s: State, step: Step, n: nat, g: nat)
    requires Deactivated(s, n, g) && step.CommitActivation? && Enabled(s, step)
    ensures Deactivated(Apply(s, step), n, g)
  {
  }

  lemma {:induction false} DeactivatedStays(run: seq<State>, i: nat, j: nat, n: nat, g: nat)
    requires IsRun(run) && i <= j < |run| && Deactivated(run[i], n, g)
    ensures Deactivated(run[j], n, g)
  {
    if i < j {
      DeactivatedStays(run, i, j - 1, n, g);
      assert Next(run[j - 1], run[j - 1 + 1]);
      DeactivatedNext(run[j - 1], run[j], n, g);
    }
  }

  /** What readiness snapshots report. */
  predicate ActiveBackendReady(v: Service) { v.active.Some? && v.active.value.backend.kind != Unavailable }

  predicate ProductReady(v: Service, implementationAvailable: bool) {
    implementationAvailable && ActiveBackendReady(v) && v.active.value.backend.kind == Production
  }

  /** In every reachable state the snapshot is ready exactly when a backend is active, and product-ready never with a mock. */
  lemma ReadinessIsExact(run: seq<State>, i: nat, implementationAvailable: bool)
    requires IsRun(run) && i < |run|
    ensures var v := run[i].service;
            && (ActiveBackendReady(v) <==> v.active.Some?)
            && (v.status.Ready? ==> ActiveBackendReady(v))
            && (ProductReady(v, implementationAvailable) ==> v.active.value.backend.kind != DevelopmentMock)
  {
    InvHolds(run, i);
  }
}
