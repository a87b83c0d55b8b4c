# Verified models of the Mukei runtime's shared-state protocols

This project models, in Dafny, the parts of the Mukei runtime whose correctness
depends on interleavings, on incremental processing or on graph reasoning, and
proves what they are for over every input and every run.

| file | what it models |
|---|---|
| `EventBus.dfy`, `BusRuns.dfy` | the bounded event queue with per-stream sequence numbers, drop reports and tombstones, and all interleavings of its steps |
| `EphemeralChat.dfy`, `TemporaryChat.dfy`, `ChatIsolation.dfy` | Temporary Chat sessions, their erasure from the event bus and their isolation from the durable history |
| `Activation.dfy` | the two-phase, generation-guarded model activation service |
| `Utf8Stream.dfy` | incremental UTF-8 decoding of token callbacks |
| `TagDetector.dfy` | the windowed detector of reasoning tags |
| `Graphs.dfy`, `Provenance.dfy` | the dependency-graph policy checker for OpenSSL |
| `ProjectionRuns.dfy`, `FeatureState.dfy` | durable projections: mutators, the FIFO writer, the flush barrier, hydration |
| `RagSaga.dfy` | document ingest and revoke over SQL rows and vectors, with cut-offs |
| `AgentRuns.dfy`, `AgentTurn.dfy`, `Prompt.dfy` | overlapping agent runs, one agent turn under its budgets, prompt assembly |
| `Saas.dfy`, `CircuitRuns.dfy` | the circuit breaker, the retry loop, and any number of requests over one breaker |
| `Broker.dfy`, `BrokerWaits.dfy` | the platform broker, and waiters that poll, give up and abandon while others use it |
| `Registry.dfy`, `Chunker.dfy` | the handle registry, the chunker |

## How to read the model

Code that updates fields in place is a class whose methods are proved against
functions on a value (`View()`); code that runs concurrently is, in addition, a
state machine whose steps are the critical sections and atomic operations of
the source. Theorems about concurrency quantify over runs: sequences of states
from an initial one, each related to the next by a step. Fields marked as
history are read by no step; they only let a theorem speak about the past.

Conventions and assumptions:

- Counters of 64 bits are unbounded. The 31-bit handle generation, 32-bit slots
  and 32-bit token counts wrap or saturate as the code says.
- Clocks, backends, tokenizers, tools, retrievers, cancellation and deadlines
  are arbitrary: parameters of the methods, choices of the steps.
- Freshly minted ids (UUIDs, chunk ids) have not been used before.
- The shift and bitwise-or that encode a handle, on disjoint bits, are written as a multiplication and a sum.
- A poisoned lock is entered as the code does, so poisoning is not modelled.
- The standard library's UTF-8 validator is modelled by its documented result,
  the well-formedness table of section 4 of RFC 3629.
- Hydration is finished before commands are accepted, as the runtime starts up;
  runs of the projections start after it.
- A save, an SQL transaction or a send that reports an error has had no effect.

Where the model is more precise than the wording of the code's comments:

- *Delivered* means taken from the queue by a drain. A drain that took an event
  before a purge may hand it to its caller afterwards.
- Sequence numbers rise on every stream, including `application:events`, as
  long as nobody but the drain's own gap report uses that stream; nobody does.
- The tag detector agrees with a scan of the whole text on all chunkings into
  pieces of at most `n` bytes exactly if `n <= 57`; `BoundIsExact` contains the
  58-byte chunk that breaks it.
- The bus's queue counter is exact until a drain counts an event before its
  emitter does; from then on it is one too high for good, so an idle, empty bus
  reports that there is more (`MoreIsExactUntilSaturated`, `SaturationWitness`).
- Callers may give two Temporary Chats the same operation id; ending one then
  removes events of the other with that id (`SharedOperationWitness`).
- A cut-off ingest or revoke can leave vectors without rows for good; `CutOffCases` and
  `DetachedCases` say exactly when, `CutOffWitness` is the smallest such run.
- A SaaS request dropped between its admission and its report reports nothing.
  If it was the probe of a half-open circuit and no older request is out, the
  breaker never admits again (`AdmitsAgainUnlessStuck`, `DroppedProbeWitness`).
- Two requests admitted while the circuit is not closed can be out at once
  exactly if an older one is still out with the first (`OverlapExactlyWithStraggler`).

## Model

| member | source | states |
|---|---|---|
| `EventBuses.EventBus.Emit` | rust/crates/mukei-core/src/application_runtime/foundation_types.rs:247-286 | a suppressed event changes nothing; otherwise its stream advances by one, from one on, and the event with that number is queued, or counted as dropped when the queue is full |
| `EventBuses.EventBus.PurgeTemporaryChat` | rust/crates/mukei-core/src/application_runtime/foundation_types.rs:291-366 | the session's events are gone, all others are queued in their order, re-enqueueing drops none, and the count of removed events is right |
| `EventBuses.PurgeSilences` | rust/crates/mukei-core/src/application_runtime/foundation_types.rs:291-366 | besides the queue, a purge suppresses exactly the session's streams and operation ids and forgets the numbering of exactly those streams |
| `EventBuses.EventBus.Drain` | rust/crates/mukei-core/src/application_runtime/foundation_types.rs:376-427 | a drop report comes first, then the oldest events up to the clamped limit; the more-flag says whether the counter is above zero, hence whether events are left or the counter was too high before |
| `EventBuses.KeepAbsorbs` | rust/crates/mukei-core/src/application_runtime/foundation_types.rs:291-366 | filtering with more tombstones after a purge gives what one filter with all of them gives |
| `BusRuns.EmitIsItsSteps` | rust/crates/mukei-core/src/application_runtime/foundation_types.rs:247-286 | run without interruption, the fine-grained steps of an emit amount to the emit |
| `BusRuns.PurgeIsItsSteps` | rust/crates/mukei-core/src/application_runtime/foundation_types.rs:291-366 | run without interruption, the steps of a purge amount to the purge |
| `BusRuns.AccountingHolds` | rust/crates/mukei-core/src/application_runtime/foundation_types.rs:213-286 | in every reachable state built = delivered + queued + purged + dropped + in an emitter's hand, and every drop is in one gap report, held by one drain, in the counter or about to be |
| `BusRuns.ExcessNext` | rust/crates/mukei-core/src/application_runtime/foundation_types.rs:247-286 | the excess of the counter over the queue stays between 0 and 1, never falls, and rises exactly when a receive is counted at zero, with its own send still uncounted and the queue empty |
| `BusRuns.CounterIsExactUntilSaturated` | rust/crates/mukei-core/src/application_runtime/foundation_types.rs:368-427 | in every reachable state the counter exceeds the queue by one if and only if a decrement was lost before, else it is exact |
| `BusRuns.MoreIsExactUntilSaturated` | rust/crates/mukei-core/src/application_runtime/foundation_types.rs:376-427 | between actions and their counts the more-flag is set if and only if events are queued, drops are to be reported or a decrement was lost before; in the last case it stays set for good |
| `BusRuns.SaturationWitness` | rust/crates/mukei-core/src/application_runtime/foundation_types.rs:368-374 | a run whose last state is an idle, empty bus that reports more |
| `BusRuns.DeliveredRise` | rust/crates/mukei-core/src/application_runtime/foundation_types.rs:213-245 | in every run the sequence numbers delivered on one stream strictly increase and never restart after a purge |
| `BusRuns.SweptStaysSilent` | rust/crates/mukei-core/src/application_runtime/foundation_types.rs:247-366 | after a purge no run delivers an event on its streams or with its operation ids |
| `BusRuns.UnrelatedSurvive` | rust/crates/mukei-core/src/application_runtime/foundation_types.rs:291-366 | in every run the events no tombstone covers stay in the queue or are delivered, in their order |
| `EphemeralChats.EphemeralChatState.Begin` | rust/crates/mukei-core/src/application_runtime/ephemeral_chat.rs:29-56 | only an absent key begins, and a retired one never does |
| `EphemeralChats.EphemeralChatState.AppendMessage` | rust/crates/mukei-core/src/application_runtime/ephemeral_chat.rs:91-109 | a message is put at the end of the session's history exactly when the session is active |
| `EphemeralChats.EphemeralChatState.CreateOperation` | rust/crates/mukei-core/src/application_runtime/ephemeral_chat.rs:172-215 | an active session registers and remembers the operation; any other refuses |
| `EphemeralChats.EphemeralChatState.End` | rust/crates/mukei-core/src/application_runtime/ephemeral_chat.rs:240-286 | the key retires, every operation id it ever created comes back, and the operations and tokens that go are exactly those of the session |
| `EphemeralChats.EndedValid` | rust/crates/mukei-core/src/application_runtime/ephemeral_chat.rs:240-286 | ending keeps the tables consistent, and every live operation is among the remembered ids |
| `TemporaryChats.EndTemporaryChat` | rust/crates/mukei-core/src/application_runtime/temporary_chat_runtime.rs:35-61 | afterwards the session is retired and no queued event belongs to it; the others' events are as they were, followed at most by the lifecycle signal with the number of removed events |
| `TemporaryChats.SessionsOnlyAge` | rust/crates/mukei-core/src/application_runtime/ephemeral_chat.rs:29-81 | in every run a session does not come back, and an ended one creates no further operation |
| `TemporaryChats.RetiredThroughActive` | rust/crates/mukei-core/src/application_runtime/ephemeral_chat.rs:29-81 | a session absent before and retired after was active in between |
| `TemporaryChats.Erasure` | rust/crates/mukei-core/src/application_runtime/temporary_chat_runtime.rs:35-61 | in every interleaving with emitters, drains and operation creation: once the purge has run, nothing on the conversation's stream, or on the stream or with the id of any operation ever created in the session, is delivered again |
| `TemporaryChats.OnlyEndedHolds` | rust/crates/mukei-core/src/application_runtime/temporary_chat_runtime.rs:35-61 | in every reachable state the bus suppresses nothing but streams and operation ids of sessions that have ended |
| `TemporaryChats.OthersSurvive` | rust/crates/mukei-core/src/application_runtime/temporary_chat_runtime.rs:35-61 | an event that no ended session covers, by stream or operation id, stays queued or has been delivered, and such events keep their order |
| `TemporaryChats.SharedOperationWitness` | rust/crates/mukei-core/src/application_runtime/ephemeral_chat.rs:172-215 | when callers give two sessions the same operation id, ending one removes a queued event of the other, still active one |
| `ChatIsolation.Isolation` | rust/crates/mukei-core/src/application_runtime/temporary_chat_runtime.rs:118-134 | in every run a key never moves back, and once it has been active no message for it is in the durable map |
| `ChatIsolation.RetiredThroughActive` | rust/crates/mukei-core/src/application_runtime/ephemeral_chat.rs:58-81 | a key absent before and retired after was active in between |
| `ChatIsolation.SeparateNext` | rust/crates/mukei-core/src/application_runtime/temporary_chat_runtime.rs:173-220 | no step makes a command that will write durably concern a key that was ever temporary |
| `Activations.ModelActivationService.MarkVerified` | rust/crates/mukei-core/src/engine/activation.rs:455-478 | a verification result counts only for the current generation and the selected model |
| `Activations.ModelActivationService.StartActivation` | rust/crates/mukei-core/src/engine/activation.rs:483-511 | an activation starts only from a verified descriptor and takes a new generation |
| `Activations.ModelActivationService.CommitActivation` | rust/crates/mukei-core/src/engine/activation.rs:576-619 | a usable backend is committed if and only if the activation is current, its model selected and its artifact verified, and then replaces whatever was active; a failure is recorded if current; nothing else changes |
| `Activations.ModelActivationService.CommitFailure` | rust/crates/mukei-core/src/engine/activation.rs:621-648 | a failure is recorded only for the current activation and leaves the active backend alone |
| `Activations.ModelActivationService.Deactivate` | rust/crates/mukei-core/src/engine/activation.rs:653-703 | nothing is active afterwards and the state falls back to what was verified |
| `ActivationRuns.ReadyCommitsIncrease` | rust/crates/mukei-core/src/engine/activation.rs:483-619 | in every run Ready commits happen in strictly increasing operation-id order |
| `ActivationRuns.SupersededNeverInstalls` | rust/crates/mukei-core/src/engine/activation.rs:363-619 | an activation pending at a later verification, activation, missing mark or deactivation never becomes Ready |
| `ActivationRuns.UndisturbedActivationInstalls` | rust/crates/mukei-core/src/engine/activation.rs:483-619 | an activation that nothing disturbs between its start and its commit of a usable backend becomes Ready and is active, whatever was active before |
| `ActivationRuns.ActiveChangesOnlyThere` | rust/crates/mukei-core/src/engine/activation.rs:576-703 | the active backend changes only at a Ready commit, which installs the built one, or at a deactivation, which removes it |
| `ActivationRuns.ReadyIsTruthful` | rust/crates/mukei-core/src/engine/activation.rs:576-619 | in every reachable state Ready names exactly the active model, revision and artifact, and an active backend comes from a descriptor verification accepted |
| `ActivationRuns.DeactivationHolds` | rust/crates/mukei-core/src/engine/activation.rs:653-703 | whatever is active after a deactivation was installed by an activation with a later id |
| `ActivationRuns.ReadinessIsExact` | rust/crates/mukei-core/src/engine/activation.rs:705-744 | the readiness snapshot is ready exactly when a backend is active, and product-ready never with a mock |
| `Utf8Streams.TextIsLongest` | rust/crates/mukei-android-jni/src/native_inference.rs:326-354 | the drained text is the longest well-formed prefix |
| `Utf8Streams.MalformedIsFinal` | rust/crates/mukei-android-jni/src/native_inference.rs:326-354 | once bytes are malformed, no continuation changes text, rest or verdict |
| `Utf8Streams.CallbackState.DrainCompleteUtf8` | rust/crates/mukei-android-jni/src/native_inference.rs:326-354 | the loop drains exactly the complete characters and stops at an incomplete or malformed one, or when the receiver is closed |
| `Utf8Streams.CallbackState.TokenCallback` | rust/crates/mukei-android-jni/src/native_inference.rs:357-367 | one callback feeds its piece to the decoder; an empty piece changes nothing |
| `Utf8Streams.NothingIsLost` | rust/crates/mukei-android-jni/src/native_inference.rs:316-367 | for any pieces and any closing of the receiver, text followed by pending is what arrived, and the text is well formed |
| `Utf8Streams.ErrorStopsDecoding` | rust/crates/mukei-android-jni/src/native_inference.rs:316-367 | a closed receiver stops the stream at the first text it would get, which is kept; after an error bytes only accumulate |
| `Utf8Streams.StreamingIsBatch` | rust/crates/mukei-android-jni/src/native_inference.rs:326-367 | with an open receiver the state after any pieces is that of decoding their concatenation at once |
| `Utf8Streams.SplitInvariance` | rust/crates/mukei-android-jni/src/native_inference.rs:188-193 | text is the longest well-formed prefix, at most three bytes are pending without error, and the verdict says exactly whether the stream is well formed, can still become so, or cannot |
| `TagDetectors.StreamTagDetector.Push` | rust/crates/mukei-core/src/boundary.rs:116-155 | a push trims the window and scans it, reporting the set of transitions |
| `TagDetectors.PushReports` | rust/crates/mukei-core/src/boundary.rs:116-155 | a push that reports nothing leaves the tag as it was; opening alone means it was closed and is open, closing alone the reverse; the first transition is always among those reported |
| `TagDetectors.ScanMeans` | rust/crates/mukei-core/src/boundary.rs:116-155 | the scan's transitions are opened, closed, opened and so on, one for each tag of the leftmost alternating parse, and a tag is open exactly after an odd number of them |
| `TagDetectors.ScanIsParse` | rust/crates/mukei-core/src/boundary.rs:116-155 | the scan is that parse: each tag is the leftmost of its kind after the one before, and none follows the last |
| `TagDetectors.PushRefines` | rust/crates/mukei-core/src/boundary.rs:116-155 | a push of at most 57 bytes extends the scan of the whole text by exactly its events |
| `TagDetectors.DetectorRefinesScan` | rust/crates/mukei-core/src/boundary.rs:116-155 | for every chunking into pieces of at most 57 bytes, open state and events after each push are those of a leftmost alternating scan of the text so far |
| `TagDetectors.BoundIsExact` | rust/crates/mukei-core/src/boundary.rs:116-155 | agreement on all chunkings with pieces of at most `bound` bytes holds if and only if `bound <= 57` |
| `Graphs.AncestorsOf` | rust/scripts/verify_openssl_provenance.py:171-180 | terminates with exactly the nodes from which the target is reachable backwards |
| `Graphs.Shortcut` | rust/scripts/verify_openssl_provenance.py:183-207 | every walk contains a simple path with the same ends |
| `Graphs.AllPathsAreSimple` | rust/scripts/verify_openssl_provenance.py:183-207 | the paths the search visits at the target are exactly the simple paths to it, each once |
| `Graphs.PathsToTarget` | rust/scripts/verify_openssl_provenance.py:183-207 | terminates with all those paths, or refuses exactly when there are more than 256 |
| `Provenance.NonDevGraph` | rust/scripts/verify_openssl_provenance.py:129-156 | fails exactly on a node without id; otherwise both maps hold the production edges and mirror each other, and features are those of the last node |
| `Provenance.OutMeans` | rust/scripts/verify_openssl_provenance.py:139-154 | an edge is a dependency of some node of the package that has no kinds or one that is not dev |
| `Provenance.NameMeans` | rust/scripts/verify_openssl_provenance.py:106-116 | a package's name is that of the last entry with its id |
| `Provenance.CheckMembers` | rust/scripts/verify_openssl_provenance.py:287-323 | approves exactly when every member passes and one path starts at the core; a rejection names a fault that is there, also that no path starts at the core; the reviewed paths are all simple paths |
| `Provenance.SimplePathsSuffice` | rust/scripts/verify_openssl_provenance.py:210-225 | given the exact parents, checking simple paths is equivalent to checking all walks |
| `Provenance.MemberPolicy` | rust/scripts/verify_openssl_provenance.py:287-318 | a member passes the path checks exactly when all its walks are confined and its simple paths are few and known |
| `Provenance.PolicyGuarantees` | rust/scripts/verify_openssl_provenance.py:228-323 | with each name resolved once and the members' walks confined by name, every walk from a workspace member to openssl-sys goes through the package mukei-core and ends rusqlite, libsqlite3-sys, openssl-sys |
| `Provenance.ValidateTargetGraph` | rust/scripts/verify_openssl_provenance.py:228-323 | approves exactly the readable graphs with the approved shape and conforming walks, both said about package entries and edges alone; a rejection gives a reason that is true |
| `Provenance.ShapeMeans` | rust/scripts/verify_openssl_provenance.py:228-284 | the checks of shape pass if and only if no forbidden package has an entry, each of the five has exactly one, four of them come from crates.io, both features are active, the three parent sets are the singletons and the vendored source is a dependency |
| `Provenance.ShapeReasonHolds` | rust/scripts/verify_openssl_provenance.py:228-284 | the reason of a rejection for shape is a fact about the entries and the edges |
| `Provenance.PathReasonHolds` | rust/scripts/verify_openssl_provenance.py:296-310 | the reason given for a path is true of it |
| `ProjectionRuns.EachStepIsAMove` | rust/crates/mukei-core/src/application_runtime/foundation_state.rs:201-289 | seen from one projection, every step of the system is one move of a single-projection pipeline |
| `ProjectionRuns.MutatorIsItsSteps` | rust/crates/mukei-core/src/application_runtime/foundation_state.rs:217-231 | run without interruption, a mutator's steps change one projection and queue exactly its new content |
| `ProjectionRuns.SavesAreInOrder` | rust/crates/mukei-core/src/application_runtime/foundation_state.rs:98-115 | in every run the saves of one projection come in version order, and each saves a content it really had |
| `ProjectionRuns.StoreConverges` | rust/crates/mukei-core/src/application_runtime/foundation_state.rs:201-289 | once every change is persisted, nothing is on its way and the last save succeeded, the store equals memory |
| `ProjectionRuns.StoreOnlyAdvances` | rust/crates/mukei-core/src/application_runtime/foundation_state.rs:98-115 | in every run what is stored is never overwritten by anything older |
| `ProjectionRuns.FlushIsFinal` | rust/crates/mukei-core/src/application_runtime/persistence_flush.rs:2-86 | a completed flush leaves nothing queued, has stored every projection nobody touched meanwhile as it is, and is never undone by an older snapshot |
| `FeatureStates.RoundTrip` | rust/crates/mukei-core/src/application_runtime/foundation_state.rs:217-289 | listing a map's records in any order and collecting them restores it |
| `FeatureStates.RestartRestores` | rust/crates/mukei-core/src/application_runtime/foundation_state.rs:136-199 | hydrating from stored snapshots restores memory; every operation is known again, those Accepted or Running are Failed as interrupted, the others unchanged |
| `FeatureStates.CollectRecovers` | rust/crates/mukei-core/src/application_runtime/foundation_state.rs:145-167 | hydrated operations are those stored, the last record of each id, recovered |
| `FeatureStates.FeatureState.UpdateOperation` | rust/crates/mukei-core/src/application_runtime/foundation_state.rs:323-353 | an existing record is updated, a terminal status removes the token, and a snapshot of the result is queued |
| `FeatureStates.FeatureState.CancelOperation` | rust/crates/mukei-core/src/application_runtime/foundation_state.rs:355-375 | work with a token is cancelled and recorded so; anything else is left alone and nothing is written |
| `FeatureStates.FeatureState.RemoveLastAssistant` | rust/crates/mukei-core/src/application_runtime/foundation_state.rs:435-455 | the last assistant message of a thread disappears, or nothing changes and nothing is written |
| `FeatureStates.FeatureState.DrainWriter` | rust/crates/mukei-core/src/application_runtime/foundation_state.rs:98-115 | the writer applies the queue in order, dropping failed saves |
| `FeatureStates.ReplayedLast` | rust/crates/mukei-core/src/application_runtime/foundation_state.rs:98-115 | of each projection the store holds the last write it accepted |
| `FeatureStates.ReplayedNone` | rust/crates/mukei-core/src/application_runtime/foundation_state.rs:98-115 | a projection of which it accepted none is as before |
| `FeatureStates.FeatureState.Flush` | rust/crates/mukei-core/src/application_runtime/persistence_flush.rs:2-86 | a flush that succeeds leaves the store equal to memory |
| `FeatureStates.FeatureState.Hydrate` | rust/crates/mukei-core/src/application_runtime/foundation_state.rs:136-199 | succeeds if and only if every stored projection can be read; then each holds the last stored record of each id, no operation is Accepted or Running, and the operations are queued |
| `FeatureStates.FlushAndRestart` | rust/crates/mukei-core/src/application_runtime/foundation_state.rs:136-199 | succeeds exactly if the four final saves do; the new process then has the old memory, with work under way failed as interrupted |
| `RagServices.RagService.IngestDocument` | rust/crates/mukei-android-jni/src/native_rag.rs:146-259 | every outcome by its cause; a failure before the commit changes nothing; afterwards the document has exactly its new chunks, in order, and other rows are untouched; rows = vectors is kept |
| `RagServices.RagService.RevokeDocument` | rust/crates/mukei-android-jni/src/native_rag.rs:275-301 | the document's rows and their vectors go, nothing else; rows = vectors is kept |
| `RagRuns.RowsHaveVectors` | rust/crates/mukei-android-jni/src/native_rag.rs:146-301 | under any cut-off and any late commit every chunk row has its vector |
| `RagRuns.IngestIsItsSteps` | rust/crates/mukei-android-jni/src/native_rag.rs:146-259 | run without interruption, the steps of an ingest leave the rows and vectors of `IngestDocument` |
| `RagRuns.RevokeIsItsSteps` | rust/crates/mukei-android-jni/src/native_rag.rs:275-301 | run without interruption, the steps of a revoke leave the rows and vectors of `RevokeDocument` |
| `RagRuns.AgreeExactlyIfNothingStranded` | rust/crates/mukei-android-jni/src/native_rag.rs:146-301 | in every reachable state with nothing under way, the vectors without a row are exactly the stranded ones; rows = vectors if and only if there are none |
| `RagRuns.HealedExactlyIfStale` | rust/crates/mukei-android-jni/src/native_rag.rs:254-301 | a stranded vector is shredded by the operation under way if and only if that has read its id |
| `RagRuns.StrandingIsFinal` | rust/crates/mukei-android-jni/src/native_rag.rs:146-301 | what a step strands and the operation under way will not shred has no row and stays a vector in every continuation, so rows and vectors never agree again |
| `RagRuns.CutOffCases` | rust/crates/mukei-android-jni/src/native_rag.rs:146-301 | a cut-off while staging keeps agreement if and only if nothing was staged, after the commit if and only if nothing was to be shredded; in between it strands nothing yet and leaves its transaction detached |
| `RagRuns.DetachedCases` | rust/crates/mukei-android-jni/src/native_rag.rs:146-301 | whenever a detached transaction ends, it strands exactly what it staged or the rows it deletes; what of it is not shredded by the operation under way keeps rows and vectors apart for good |
| `RagRuns.CutOffWhileSubmitted` | rust/crates/mukei-android-jni/src/native_rag.rs:214-259 | with the end of the transaction at any later step at which nothing else is left over, agreement holds if and only if it staged nothing (on failure) or deletes nothing (on commit) |
| `RagRuns.CutOffWitness` | rust/crates/mukei-android-jni/src/native_rag.rs:194-212 | an ingest cut off after its first embedding leaves a vector without a row |
| `RagRuns.UncutKeepsExact` | rust/crates/mukei-android-jni/src/native_rag.rs:146-301 | operations that run to their end from rows = vectors end with rows = vectors, on success and on every handled failure |
| `AgentRuns.Generations.RunSeeded` | rust/crates/mukei-core/src/agent/loop_.rs:603-659 | a run nothing overlaps returns its own result and leaves nothing registered |
| `AgentRuns.RunIsItsSteps` | rust/crates/mukei-core/src/agent/loop_.rs:603-659 | run without interruption, the steps of a run change the counters as `RunSeeded` does and return its own result |
| `AgentRuns.AcceptedInOrder` | rust/crates/mukei-core/src/agent/loop_.rs:603-659 | in every run own results are returned in strictly increasing generation order |
| `AgentRuns.AcceptedExactlyIfNewest` | rust/crates/mukei-core/src/agent/loop_.rs:649-659 | at its second check a run returns its result if and only if no later run has registered |
| `AgentRuns.OvertakenNeverAccepted` | rust/crates/mukei-core/src/agent/loop_.rs:603-659 | a run overtaken before its checks never returns its own result |
| `AgentRuns.ActiveIsLive` | rust/crates/mukei-core/src/agent/loop_.rs:178-187 | a non-zero active generation names a live run; with no run left it is zero |
| `AgentTurns.Watchdog.Check` | rust/crates/mukei-core/src/agent/watchdog.rs:49-62 | passes exactly while all three budgets are left, and names the first exhausted one |
| `AgentTurns.Transcript.Append` | rust/crates/mukei-core/src/agent/loop_.rs:189-197 | a message is persisted before it is appended, chained to its predecessor; a failed persist appends nothing |
| `AgentTurns.ToolRound` | rust/crates/mukei-core/src/agent/loop_.rs:744-957 | a round's messages are its assistant turn, rejections, outcomes with notices and directive, in that order; a failure leaves a beginning of them |
| `AgentTurns.ScriptMeans` | rust/crates/mukei-core/src/agent/loop_.rs:744-814 | a round's messages begin with the assistant's, then the envelope of an unparsable answer or those of its calls |
| `AgentTurns.CallsMean` | rust/crates/mukei-core/src/agent/loop_.rs:818-957 | an envelope for each rejected call, then the outcomes, then the directive |
| `AgentTurns.OutcomeAt` | rust/crates/mukei-core/src/agent/loop_.rs:874-925 | each outcome's output is directly followed by its notice |
| `AgentTurns.RunTurn` | rust/crates/mukei-core/src/agent/loop_.rs:661-969 | at most `max_iterations` calls and `max_tokens` tokens; every round but the last went on and the last ends the turn for exactly the stated reason; messages are those of the rounds, chained on the branch; with a sink exactly these are persisted, at every exit |
| `AgentTurns.Infer` | rust/crates/mukei-core/src/agent/loop_.rs:697-738 | calls the backend if and only if all budgets are left at both clock readings, nobody cancelled and the context was built; otherwise ends for the first reason that applies |
| `AgentTurns.EndingIsDetermined` | rust/crates/mukei-core/src/agent/loop_.rs:359-543 | the rounds determine where and how a turn ends, unless the sink refuses a message |
| `AgentTurns.ChainedMeans` | rust/crates/mukei-core/src/agent/loop_.rs:744-957 | each appended message has the turn's branch and its predecessor's id as parent |
| `Prompts.AdmitPassages` | rust/crates/mukei-core/src/agent/context.rs:331-352 | passages are admitted in order within the limit, and none left out would fit beside the admitted ones |
| `Prompts.TrimHistory` | rust/crates/mukei-core/src/agent/context.rs:369-392 | the fewest oldest messages are dropped that make the rest fit |
| `Prompts.BuildPrompt` | rust/crates/mukei-core/src/agent/context.rs:311-426 | the prompt fits, retrieval stays within its share, and the kept history is the longest suffix that fits beside it |
| `Prompts.JoinMeans` | rust/crates/mukei-core/src/agent/context.rs:394-404 | the texts are joined in their order with nothing in between |
| `Brokers.PlatformRequestBroker.Enqueue` | rust/crates/mukei-core/src/platform.rs:178-200 | refuses exactly at capacity, else appends |
| `Brokers.PlatformRequestBroker.Drain` | rust/crates/mukei-core/src/platform.rs:204-240 | hands out the oldest requests up to the clamped limit and puts them in flight |
| `Brokers.PlatformRequestBroker.Abandon` | rust/crates/mukei-core/src/platform.rs:295-306 | removes the request wherever it is and reports whether it was there |
| `Brokers.PlatformRequestBroker.FinishWait` | rust/crates/mukei-core/src/platform.rs:258-292 | a last poll and abandon that nothing comes between: whatever they return, nothing of the request is left and no other request is affected |
| `BrokerRuns.DrainedInOrder` | rust/crates/mukei-core/src/platform.rs:178-240 | in every history requests are drained at most once, in arrival order, passing over only abandoned ones, with at most `capacity` outstanding |
| `BrokerRuns.AnsweredOnce` | rust/crates/mukei-core/src/platform.rs:243-315 | a request is answered at most once and taken at most once, in that order, after it was drained |
| `BrokerRuns.GoneForever` | rust/crates/mukei-core/src/platform.rs:295-315 | a request taken or abandoned never reappears |
| `BrokerWaits.NoResidue` | rust/crates/mukei-core/src/platform.rs:258-292 | in every run with waiters: once a wait has returned, nothing of its request is ever in the broker again |
| `BrokerWaits.ReturnsWhatItPolled` | rust/crates/mukei-core/src/platform.rs:264-292 | a wait returns the response one of its polls found, and gives up if and only if none did |
| `BrokerWaits.LateResponseWitness` | rust/crates/mukei-core/src/platform.rs:283-292 | a response that arrives between giving up and abandoning is accepted and then dropped |
| `Circuits.ClosedExactly` | rust/crates/mukei-core/src/network/saas.rs:1667-1749 | after any history of calls the breaker is closed if and only if fewer than the threshold of transient failures came since the last success |
| `Circuits.OneProbeAtATime` | rust/crates/mukei-core/src/network/saas.rs:1667-1749 | while it is not closed, at most one request is admitted between two recorded or released ones |
| `Circuits.AdmissionMeans` | rust/crates/mukei-core/src/network/saas.rs:1677-1749 | a closed breaker always admits; after a failure that leaves it open it admits exactly from `open_duration` on; a released probe frees it at once |
| `Retries.NextDelay` | rust/crates/mukei-core/src/network.rs:261-291 | the jittered delay stays below the capped exponential ceiling |
| `Retries.EveryDelayPossible` | rust/crates/mukei-core/src/network.rs:261-291 | exactly the delays up to the ceiling can be drawn |
| `Retries.CeilingMeans` | rust/crates/mukei-core/src/network.rs:261-276 | the ceiling starts at the base delay, doubles while there is room, never falls and stops growing after 21 retries |
| `Retries.ClassesOfErrors` | rust/crates/mukei-core/src/network/saas.rs:795-850 | how transient errors, those that count against the server and those that prove it reachable relate |
| `Retries.SignalMeans` | rust/crates/mukei-core/src/network/saas.rs:1151-1162 | which results the breaker takes as failure, as success and as a release |
| `Retries.DelayAfter` | rust/crates/mukei-core/src/network/saas.rs:1130-1135 | the delay honours the server's hint (section 10.2.3 of RFC 9110) up to the cap, else the backoff; never more than a minute |
| `Retries.Attempts` | rust/crates/mukei-core/src/network/saas.rs:1091-1149 | at most one try more than the allowed retries, one for classes never retried, and it stops earlier only on an answer, a final error or in its sleep; every resend follows a transient failure and its delay; the result is that of the last try |
| `Retries.Send` | rust/crates/mukei-core/src/network/saas.rs:1067-1164 | a denied request is not sent; an admitted one that nothing overlaps and nobody drops reports to the breaker exactly once, by its result |
| `CircuitRuns.SendIsItsSteps` | rust/crates/mukei-core/src/network/saas.rs:1067-1164 | run without interruption, the steps of a request tell the breaker what `Send` tells it |
| `CircuitRuns.EveryAdmissionIsAccountedFor` | rust/crates/mukei-core/src/network/saas.rs:1087-1164 | in every run of overlapping requests admissions = reports + in flight + dropped, and a request no longer in flight has reported exactly once if it was not dropped and not at all if it was |
| `CircuitRuns.NoAdmissionWithoutReport` | rust/crates/mukei-core/src/network/saas.rs:1677-1704 | while a probe is out and nobody reports, nobody is admitted |
| `CircuitRuns.AdmitsAgainUnlessStuck` | rust/crates/mukei-core/src/network/saas.rs:1667-1749 | some continuation admits a request if and only if it is not the case that a probe is out and no request is in flight; then that probe was dropped |
| `CircuitRuns.DroppedProbeWitness` | rust/crates/mukei-core/src/network/saas.rs:1087-1164 | every client has a run into that state, from which nothing is ever admitted |
| `CircuitRuns.TwoProbesMeanStraggler` | rust/crates/mukei-core/src/network/saas.rs:1667-1749 | two requests admitted while not closed are out at once only after a request older than the first has reported meanwhile |
| `CircuitRuns.OverlapExactlyWithStraggler` | rust/crates/mukei-core/src/network/saas.rs:1667-1749 | with a probe out, some continuation has it and a later one out at once if and only if an older request is out too |
| `Registry.DecodeInverts` | rust/crates/mukei-android-jni/src/runtime_registry.rs:25-43 | decoding an encoded handle gives it back |
| `Registry.EncodeInverts` | rust/crates/mukei-android-jni/src/runtime_registry.rs:25-43 | encoding a decoded number gives it back |
| `Registry.RuntimeRegistry.Insert` | rust/crates/mukei-android-jni/src/runtime_registry.rs:60-88 | fails exactly when full; no live entry is overwritten; the new handle is valid |
| `Registry.RuntimeRegistry.Remove` | rust/crates/mukei-android-jni/src/runtime_registry.rs:99-108 | only a resolving handle removes its entry and frees the slot |
| `Registry.InsertKeepsValid` | rust/crates/mukei-android-jni/src/runtime_registry.rs:60-88 | free slots stay distinct and apart from live ones |
| `Registry.LiveHandlesDiffer` | rust/crates/mukei-android-jni/src/runtime_registry.rs:33-88 | live entries have valid handles, and their encodings are equal only for the same entry |
| `Registry.StaleHandlesStayStale` | rust/crates/mukei-android-jni/src/runtime_registry.rs:60-108 | a handle that stopped resolving resolves again only after its slot was allocated a positive multiple of 2^31-1 times |
| `Chunkers.Split` | rust/crates/mukei-core/src/rag/chunker.rs:33-59 | terminates with the windows one stride apart, numbered from zero |
| `Chunkers.SplitRoundTrip` | rust/crates/mukei-core/src/rag/chunker.rs:33-59 | the first chunk and what each later one adds after the overlap rebuild the words |
| `Chunkers.ChunksOverlap` | rust/crates/mukei-core/src/rag/chunker.rs:33-59 | all but the last are full, neighbours share exactly the overlap, and the later one adds something |

## Left out

- Shutdown (`cancel_all_and_clear`), which cancels every operation and empties the session tables; the replay table and its purge, which remember answers by request id; the clear and remove-last commands of a Temporary Chat, which route by session state as appends do.
- The eight attempts of `begin_temporary_chat` to mint an unused key and its start event: one successful attempt is a `Begin` step.
- The blocking wait of a drain and of the broker's waiters: only safety is stated, no wake-up.
- JNI entry points, JSON, key storage, SQLCipher, logging, observability and the inference terminal events: plumbing around the modelled code.
- The early generation check before the lock in model activation: a call that returns there is a step that changes nothing.
- The rendering and escaping of passages and messages, their byte cap, scope validation and diagnostics of the prompt: `BuildPrompt` takes the rendered texts.
- `FeatureState`'s document mutators, which repeat those of models, and its timestamps and progress values.
- Replacing an attached projection store by another one.
- `ProjectionRuns.StoreConverges`: speaks of projections whose latest snapshot was not skipped for want of a store, because nothing is written without one.
- The file of the vector store: rows and vectors are compared in memory, not across a restart that finds an older file.
- `RunTurn`: the contents of tool envelopes, the tools' own abuse limits and the context builder are parameters.
- The web client's own retry loop (`send_request_with_retry_inner`), which has the same shape as `Attempts`.
- Parsing of the resolved metadata and of manifests in the provenance checker: package ids are numbers in sort order, and the printed path names are not modelled.
- Wall-clock behaviour, liveness and fairness.
