/**
 The runtime's in-memory projections: mutators that persist after every
 change, the writer, flushing and hydration, called one after another.
 Their interleavings are the subject of `ProjectionRuns`.
 */
module FeatureStates {
  import opened Prelude
  import opened ProjectionRuns

  type Id = string

  datatype Status = Accepted | Running | Completed | Failed | Cancelled
  datatype Operation = Operation(id: Id, command: string, status: Status, detail: Option<string>, result: string)
  datatype Role = User | Assistant | System | Tool
  datatype Message = Message(role: Role, text: string)
  datatype Model = Model(id: Id, status: string)
  datatype Document = Document(id: Id, status: string)
  datatype Conversation = Conversation(id: Id, branch: Id, messages: seq<Message>)

  type Threads = map<(Id, Id), seq<Message>>

  datatype Memory = Memory(
    operations: map<Id, Operation>, models: map<Id, Model>, documents: map<Id, Document>, conversations: Threads)

  /** A serialised projection: its records, in no particular order. */
  datatype Value =
    | OperationList(operations: seq<Operation>)
    | ModelList(models: seq<Model>)
    | DocumentList(documents: seq<Document>)
    | ConversationList(conversations: seq<Conversation>)

  datatype Write = Write(key: Key, value: Value)

  // ---- records and maps ---------------------------------------------------------------

  /** `s` lists the values of `m`, each entry once, in some order. */
  ghost predicate Lists<K(!new), R>(m: map<K, R>, s: seq<R>) {
    exists order: seq<K> :: InOrder(m, s, order)
  }

  ghost predicate InOrder<K, R>(m: map<K, R>, s: seq<R>, order: seq<K>) {
    && |order| == |s|
    && Distinct(order)
    && (forall i :: 0 <= i < |order| ==> order[i] in m && m[order[i]] == s[i])
    && (forall k <- m :: k in order)
  }

  /** Reads records back into a map; a later record replaces an earlier one with the same id. */
  function Collect<K, R>(s: seq<R>, id: R -> K): map<K, R> {
    if s == [] then map[] else Collect(s[..|s| - 1], id)[id(s[|s| - 1]) := s[|s| - 1]]
  }

  lemma {:induction false} CollectPrefix<K, R>(m: map<K, R>, s: seq<R>, order: seq<K>, id: R -> K, n: nat)
    requires InOrder(m, s, order) && n <= |s| && forall k <- m :: id(m[k]) == k
    ensures forall k :: k in Collect(s[..n], id) <==> k in order[..n]
    ensures forall k <- Collect(s[..n], id) :: k in m && Collect(s[..n], id)[k] == m[k]
  {
    if n > 0 {
      CollectPrefix(m, s, order, id, n - 1);
      assert s[..n][..n - 1] == s[..n - 1];
      assert order[..n] == order[..n - 1] + [order[n - 1]];
      assert order[n - 1] in m && id(s[n - 1]) == order[n - 1];
    }
  }

  /** No later record has the same id. */
  ghost predicate LastOfItsId<K, R>(s: seq<R>, id: R -> K, i: nat)
    requires i < |s|
  {
    forall j :: i < j < |s| ==> id(s[j]) != id(s[i])
  }

  /** `m` holds the ids of the records, and under each id the last record that has it. */
  ghost predicate FiledFrom<K(!new), R>(s: seq<R>, id: R -> K, m: map<K, R>) {
    && (forall k :: k in m <==> exists i :: 0 <= i < |s| && id(s[i]) == k)
    && (forall i :: 0 <= i < |s| && LastOfItsId(s, id, i) ==> id(s[i]) in m && m[id(s[i])] == s[i])
  }

  lemma {:induction false} CollectKeys<K(!new), R>(s: seq<R>, id: R -> K, k: K)
    ensures k in Collect(s, id) <==> exists i :: 0 <= i < |s| && id(s[i]) == k
  {
    if s != [] {
      var n := |s| - 1;
      CollectKeys(s[..n], id, k);
      if i :| 0 <= i < n && id(s[..n][i]) == k { assert id(s[i]) == k; }
      if i :| 0 <= i < |s| && id(s[i]) == k { assert i < n ==> id(s[..n][i]) == k; }
    }
  }

  lemma {:induction false} CollectLast<K(!new), R>(s: seq<R>, id: R -> K, i: nat)
    requires i < |s| && LastOfItsId(s, id, i)
    ensures id(s[i]) in Collect(s, id) && Collect(s, id)[id(s[i])] == s[i]
  {
    var n := |s| - 1;
    if i < n {
      assert id(s[n]) != id(s[i]);
      assert LastOfItsId(s[..n], id, i);
      CollectLast(s[..n], id, i);
    }
  }

  lemma CollectFiles<K(!new), R>(s: seq<R>, id: R -> K)
    ensures FiledFrom(s, id, Collect(s, id))
  {
    forall k ensures k in Collect(s, id) <==> exists i :: 0 <= i < |s| && id(s[i]) == k { CollectKeys(s, id, k); }
    forall i | 0 <= i < |s| && LastOfItsId(s, id, i) ensures id(s[i]) in Collect(s, id) && Collect(s, id)[id(s[i])] == s[i] {
      CollectLast(s, id, i);
    }
  }

  /** Listing and collecting restores the map, whatever the order. */
  lemma RoundTrip<K(!new), R>(m: map<K, R>, s: seq<R>, id: R -> K)
    requires Lists(m, s) && forall k <- m :: id(m[k]) == k
    ensures Collect(s, id) == m
  {
    var order :| InOrder(m, s, order);
    CollectPrefix(m, s, order, id, |s|);
    assert s[..|s|] == s && order[..|s|] == order;
  }

  /** Lists the values of a map, in an order of the map's own choosing. */
  method ListValues<K(!new, ==), R>(m: map<K, R>) returns (s: seq<R>)
    ensures Lists(m, s)
  {
    s := [];
    ghost var order: seq<K> := [];
    var rest := m.Keys;
    while rest != {}
      invariant rest <= m.Keys
      invariant |order| == |s|
      invariant Distinct(order)
      invariant forall i :: 0 <= i < |order| ==> order[i] in m && m[order[i]] == s[i] && order[i] !in rest
      invariant forall k <- m :: k in order || k in rest
      decreases |rest|
    {
      var k :| k in rest;
      s, order, rest := s + [m[k]], order + [k], rest - {k};
    }
    assert InOrder(m, s, order);
  }

  // ---- snapshots ------------------------------------------------------------------------

  function Threaded(threads: Threads): map<(Id, Id), Conversation> {
    map k <- threads :: Conversation(k.0, k.1, threads[k])
  }

  function Unthreaded(records: map<(Id, Id), Conversation>): Threads {
    map k <- records :: records[k].messages
  }

  ghost predicate IsSnapshot(m: Memory, k: Key, v: Value) {
    match k
    case Operations => v.OperationList? && Lists(m.operations, v.operations)
    case Models => v.ModelList? && Lists(m.models, v.models)
    case Documents => v.DocumentList? && Lists(m.documents, v.documents)
    case Conversations => v.ConversationList? && Lists(Threaded(m.conversations), v.conversations)
  }

  /** Every record is filed under its own id. */
  ghost predicate Filed(m: Memory) {
    && (forall k <- m.operations :: m.operations[k].id == k)
    && (forall k <- m.models :: m.models[k].id == k)
    && (forall k <- m.documents :: m.documents[k].id == k)
  }

  // ---- hydration --------------------------------------------------------------------------

  const INTERRUPTED := "interrupted_by_process_death"

  /** Work that was under way when the process died has failed. */
  function Interrupted(o: Operation): Operation {
    if o.status.Accepted? || o.status.Running? then o.(status := Failed, detail := Some(INTERRUPTED)) else o
  }

  function AllInterrupted(operations: map<Id, Operation>): map<Id, Operation> {
    map k <- operations :: Interrupted(operations[k])
  }

  function InterruptedList(s: seq<Operation>): seq<Operation> {
    seq(|s|, i requires 0 <= i < |s| => Interrupted(s[i]))
  }

  /** What a record looks like after a restart: work under way has failed, everything else is as it was. */
  ghost predicate Survives(o: Operation, o': Operation) {
    if o.status == Accepted || o.status == Running
    then o' == Operation(o.id, o.command, Failed, Some("interrupted_by_process_death"), o.result)
    else o' == o
  }

  /** After a restart the same operations are known, none of them is under way, and each survives. */
  ghost predicate Recovered(before: map<Id, Operation>, after: map<Id, Operation>) {
    && after.Keys == before.Keys
    && (forall id <- after :: after[id].status != Accepted && after[id].status != Running && Survives(before[id], after[id]))
  }

  lemma InterruptedRecovers(operations: map<Id, Operation>)
    ensures Recovered(operations, AllInterrupted(operations))
  {
  }

  /** What hydration makes of stored operations: their ids, and under each the last record with it, survived. */
  ghost predicate RecoveredFrom(records: seq<Operation>, after: map<Id, Operation>) {
    && (forall id :: id in after <==> exists i :: 0 <= i < |records| && records[i].id == id)
    && (forall i :: 0 <= i < |records| && (forall j :: i < j < |records| ==> records[j].id != records[i].id) ==>
          records[i].id in after && Survives(records[i], after[records[i].id]))
    && (forall id <- after :: after[id].status != Accepted && after[id].status != Running)
  }

  lemma {:induction false} LastRecord(records: seq<Operation>, id: Id, i: nat) returns (j: nat)
    requires i < |records| && records[i].id == id
    ensures i <= j < |records| && records[j].id == id && forall n :: j < n < |records| ==> records[n].id != id
    decreases |records| - i
  {
    if n :| i < n < |records| && records[n].id == id { j := LastRecord(records, id, n); } else { j := i; }
  }

  lemma RecoveredKeys(records: seq<Operation>, id: Id)
    ensures id in Collect(InterruptedList(records), OperationId) <==> exists i :: 0 <= i < |records| && records[i].id == id
  {
    var list := InterruptedList(records);
    CollectKeys(list, OperationId, id);
    if i :| 0 <= i < |records| && records[i].id == id { assert OperationId(list[i]) == id; }
    if i :| 0 <= i < |list| && OperationId(list[i]) == id { assert records[i].id == id; }
  }

  lemma RecoveredLast(records: seq<Operation>, i: nat)
    requires i < |records| && forall j :: i < j < |records| ==> records[j].id != records[i].id
    ensures var after := Collect(InterruptedList(records), OperationId);
            records[i].id in after && Survives(records[i], after[records[i].id])
  {
    var list := InterruptedList(records);
    assert forall j :: 0 <= j < |records| ==> OperationId(list[j]) == records[j].id;
    CollectLast(list, OperationId, i);
  }

  lemma CollectRecovers(records: seq<Operation>)
    ensures RecoveredFrom(records, Collect(InterruptedList(records), OperationId))
  {
    var after := Collect(InterruptedList(records), OperationId);
    forall id ensures id in after <==> exists i :: 0 <= i < |records| && records[i].id == id { RecoveredKeys(records, id); }
    forall i | 0 <= i < |records| && (forall j :: i < j < |records| ==> records[j].id != records[i].id)
      ensures records[i].id in after && Survives(records[i], after[records[i].id])
    {
      RecoveredLast(records, i);
    }
    forall id <- after ensures after[id].status != Accepted && after[id].status != Running {
      RecoveredKeys(records, id);
      var i :| 0 <= i < |records| && records[i].id == id;
      var j := LastRecord(records, id, i);
      RecoveredLast(records, j);
    }
  }

  function OperationId(o: Operation): Id { o.id }
  function ModelId(m: Model): Id { m.id }
  function DocumentId(d: Document): Id { d.id }
  function ThreadKey(c: Conversation): (Id, Id) { (c.id, c.branch) }

  predicate Fits(k: Key, v: Value) {
    match k
    case Operations => v.OperationList?
    case Models => v.ModelList?
    case Documents => v.DocumentList?
    case Conversations => v.ConversationList?
  }

  /** Replaces the projection that `v` describes. */
  function Loaded(m: Memory, v: Value): Memory {
    match v
    case OperationList(records) => m.(operations := Collect(InterruptedList(records), OperationId))
    case ModelList(records) => m.(models := Collect(records, ModelId))
    case DocumentList(records) => m.(documents := Collect(records, DocumentId))
    case ConversationList(records) => m.(conversations := Unthreaded(Collect(records, ThreadKey)))
  }

  /** Memory after `hydrate_from_store`, from the given projection on; it stops at the first one it cannot read. */
  function Hydrated(m: Memory, saved: map<Key, Value>, from: nat): (Memory, bool)
    decreases 4 - from
  {
    if from >= 4 then (m, true)
    else if Ranked(from) !in saved then Hydrated(m, saved, from + 1)
    else if !Fits(Ranked(from), saved[Ranked(from)]) then (m, false)
    else Hydrated(Loaded(m, saved[Ranked(from)]), saved, from + 1)
  }

  /** What one stored projection, or its absence, makes of memory. */
  ghost predicate Reads(before: Memory, after: Memory, saved: map<Key, Value>, k: Key) {
    match k
    case Operations =>
      if k in saved then saved[k].OperationList? && RecoveredFrom(saved[k].operations, after.operations)
      else after.operations == before.operations
    case Models =>
      if k in saved then saved[k].ModelList? && FiledFrom(saved[k].models, ModelId, after.models)
      else after.models == before.models
    case Documents =>
      if k in saved then saved[k].DocumentList? && FiledFrom(saved[k].documents, DocumentId, after.documents)
      else after.documents == before.documents
    case Conversations =>
      if k in saved then saved[k].ConversationList? && ThreadsFrom(saved[k].conversations, after.conversations)
      else after.conversations == before.conversations
  }

  /** Each thread holds the messages of the last record with its conversation and branch. */
  ghost predicate ThreadsFrom(records: seq<Conversation>, threads: Threads) {
    FiledFrom(records, ThreadKey, Threaded(threads))
  }

  lemma LoadReads(before: Memory, m: Memory, saved: map<Key, Value>, k: Key)
    requires k in saved && Fits(k, saved[k])
    ensures Reads(before, Loaded(m, saved[k]), saved, k)
  {
    match k {
      case Operations => CollectRecovers(saved[k].operations);
      case Models => CollectFiles(saved[k].models, ModelId);
      case Documents => CollectFiles(saved[k].documents, DocumentId);
      case Conversations =>
        var records := saved[k].conversations;
        CollectFiles(records, ThreadKey);
        KeyedThreads(records);
        assert Threaded(Unthreaded(Collect(records, ThreadKey))) == Collect(records, ThreadKey);
    }
  }

  lemma LoadKeepsOthers(m: Memory, saved: map<Key, Value>, k: Key, other: Key)
    requires k in saved && Fits(k, saved[k]) && other != k
    ensures Kept(m, Loaded(m, saved[k]), other)
  {
  }

  lemma KeptReads(before: Memory, m: Memory, m': Memory, saved: map<Key, Value>, k: Key)
    requires Kept(m, m', k) && Reads(before, m, saved, k)
    ensures Reads(before, m', saved, k)
  {
  }

  lemma {:induction false} KeyedThreads(records: seq<Conversation>)
    ensures forall k <- Collect(records, ThreadKey) :: ThreadKey(Collect(records, ThreadKey)[k]) == k
  {
    if records != [] { KeyedThreads(records[..|records| - 1]); }
  }

  /** Hydration succeeds if and only if every stored projection can be read, and then memory holds what they say. */
  lemma {:induction false} HydratedReads(before: Memory, m: Memory, saved: map<Key, Value>, from: nat)
    requires from <= 4
    requires forall k: Key :: Rank(k) < from ==> Reads(before, m, saved, k)
    requires forall k: Key :: Rank(k) >= from ==> Kept(before, m, k)
    ensures var r := Hydrated(m, saved, from);
            && (r.1 <==> forall k: Key :: Rank(k) >= from && k in saved ==> Fits(k, saved[k]))
            && (r.1 ==> forall k: Key :: Reads(before, r.0, saved, k))
    decreases 4 - from
  {
    if from < 4 {
      var k := Ranked(from);
      assert forall other: Key :: Rank(other) == from ==> other == k;
      if k !in saved {
        HydratedReads(before, m, saved, from + 1);
      } else if Fits(k, saved[k]) {
        LoadReads(before, m, saved, k);
        forall other: Key | other != k
          ensures Kept(m, Loaded(m, saved[k]), other)
          ensures Reads(before, m, saved, other) ==> Reads(before, Loaded(m, saved[k]), saved, other)
        {
          LoadKeepsOthers(m, saved, k, other);
          if Reads(before, m, saved, other) { KeptReads(before, m, Loaded(m, saved[k]), saved, other); }
        }
        HydratedReads(before, Loaded(m, saved[k]), saved, from + 1);
      }
    }
  }

  /** The projection is as it was. */
  ghost predicate Kept(before: Memory, after: Memory, k: Key) {
    match k
    case Operations => after.operations == before.operations
    case Models => after.models == before.models
    case Documents => after.documents == before.documents
    case Conversations => after.conversations == before.conversations
  }

  lemma InterruptedLists(m: map<Id, Operation>, s: seq<Operation>)
    requires Lists(m, s)
    ensures Lists(AllInterrupted(m), InterruptedList(s))
  {
    var order :| InOrder(m, s, order);
    var m', s' := AllInterrupted(m), InterruptedList(s);
    forall i | 0 <= i < |order| ensures order[i] in m' && m'[order[i]] == s'[i] {
      assert order[i] in m && m[order[i]] == s[i];
    }
    assert InOrder(m', s', order);
  }

  ghost predicate Stored(m: Memory, saved: map<Key, Value>) {
    forall k: Key :: k in saved && IsSnapshot(m, k, saved[k])
  }

  /** What reading one projection back restores. */
  function Restored(m: Memory, from: Memory, k: Key): Memory {
    match k
    case Operations => m.(operations := AllInterrupted(from.operations))
    case Models => m.(models := from.models)
    case Documents => m.(documents := from.documents)
    case Conversations => m.(conversations := from.conversations)
  }

  lemma LoadRestores(m: Memory, from: Memory, k: Key, v: Value)
    requires Filed(from) && IsSnapshot(from, k, v)
    ensures Fits(k, v) && Loaded(m, v) == Restored(m, from, k)
  {
    match k {
      case Operations =>
        InterruptedLists(from.operations, v.operations);
        RoundTrip(AllInterrupted(from.operations), InterruptedList(v.operations), OperationId);
      case Models => RoundTrip(from.models, v.models, ModelId);
      case Documents => RoundTrip(from.documents, v.documents, DocumentId);
      case Conversations =>
        RoundTrip(Threaded(from.conversations), v.conversations, ThreadKey);
        assert Unthreaded(Threaded(from.conversations)) == from.conversations;
    }
  }

  /** A restart restores everything that was stored; only work under way turns into a failure. */
  lemma RestartRestores(m: Memory, saved: map<Key, Value>, blank: Memory)
    requires Filed(m) && Stored(m, saved)
    ensures Hydrated(blank, saved, 0) == (m.(operations := AllInterrupted(m.operations)), true)
    ensures Recovered(m.operations, Hydrated(blank, saved, 0).0.operations)
  {
    InterruptedRecovers(m.operations);
    var m1 := Restored(blank, m, Operations);
    var m2 := Restored(m1, m, Models);
    var m3 := Restored(m2, m, Documents);
    assert IsSnapshot(m, Operations, saved[Operations]) && IsSnapshot(m, Models, saved[Models]);
    assert IsSnapshot(m, Documents, saved[Documents]) && IsSnapshot(m, Conversations, saved[Conversations]);
    LoadRestores(blank, m, Operations, saved[Operations]);
    LoadRestores(m1, m, Models, saved[Models]);
    LoadRestores(m2, m, Documents, saved[Documents]);
    LoadRestores(m3, m, Conversations, saved[Conversations]);
    assert Hydrated(blank, saved, 0) == Hydrated(m1, saved, 1);
    assert Hydrated(m1, saved, 1) == Hydrated(m2, saved, 2);
    assert Hydrated(m2, saved, 2) == Hydrated(m3, saved, 3);
  }

  // ---- the store ----------------------------------------------------------------------------

  /** A store whose n-th save succeeds when `accepts(n)`. */
  class ProjectionStore {
    const accepts: nat -> bool
    var attempts: nat
    var saved: map<Key, Value>

    constructor (accepts: nat -> bool, saved: map<Key, Value>)
      ensures this.accepts == accepts && attempts == 0 && this.saved == saved
    {
      this.accepts := accepts;
      attempts := 0;
      this.saved := saved;
    }

    method Save(key: Key, value: Value) returns (ok: bool)
      modifies this
      ensures ok == accepts(old(attempts)) && attempts == old(attempts) + 1
      ensures saved == if ok then old(saved)[key := value] else old(saved)
    {
      ok := accepts(attempts);
      attempts := attempts + 1;
      if ok { saved := saved[key := value]; }
    }
  }

  // ---- specifications of the mutators ------------------------------------------------------

  predicate Terminal(s: Status) { s.Completed? || s.Failed? || s.Cancelled? }

  function Updated(operations: map<Id, Operation>, id: Id, status: Status, detail: Option<string>, result: string): map<Id, Operation> {
    if id in operations then operations[id := operations[id].(status := status, detail := detail, result := result)]
    else operations
  }

  /** The position of the last message with this role, or -1. */
  function LastOf(messages: seq<Message>, role: Role): (i: int)
    ensures -1 <= i < |messages|
    ensures i >= 0 ==> messages[i].role == role
    ensures forall j :: i < j < |messages| ==> messages[j].role != role
  {
    if messages == [] then -1
    else if messages[|messages| - 1].role == role then |messages| - 1
    else LastOf(messages[..|messages| - 1], role)
  }

  function Thread(threads: Threads, key: (Id, Id)): seq<Message> {
    if key in threads then threads[key] else []
  }

  /** A snapshot of projection `k`, taken from `m`, has been queued, if there is a store to write to. */
  ghost predicate Enqueued(before: seq<Write>, after: seq<Write>, attached: bool, m: Memory, k: Key) {
    if attached then exists v :: after == before + [Write(k, v)] && IsSnapshot(m, k, v)
    else after == before
  }

  /** The store after the writer has worked off a queue; `n` saves were tried before. */
  function Replayed(saved: map<Key, Value>, queue: seq<Write>, accepts: nat -> bool, n: nat): map<Key, Value> {
    if queue == [] then saved
    else
      var i := |queue| - 1;
      var before := Replayed(saved, queue[..i], accepts, n);
      if accepts(n + i) then before[queue[i].key := queue[i].value] else before
  }

  method FindLast(messages: seq<Message>, role: Role) returns (i: int)
    ensures i == LastOf(messages, role)
  {
    i := |messages| - 1;
    while i >= 0 && messages[i].role != role
      invariant -1 <= i < |messages|
      invariant forall j :: i < j < |messages| ==> messages[j].role != role
    {
      i := i - 1;
    }
  }

  /** The i-th write of a queue is the last one for its projection that the store accepts. */
  ghost predicate LastAccepted(queue: seq<Write>, accepts: nat -> bool, n: nat, i: nat)
    requires i < |queue|
  {
    accepts(n + i) && forall j :: i < j < |queue| && queue[j].key == queue[i].key ==> !accepts(n + j)
  }

  /** Of each projection the store holds the last write it accepted. */
  lemma {:induction false} ReplayedLast(saved: map<Key, Value>, queue: seq<Write>, accepts: nat -> bool, n: nat, i: nat)
    requires i < |queue| && LastAccepted(queue, accepts, n, i)
    ensures var r := Replayed(saved, queue, accepts, n); queue[i].key in r && r[queue[i].key] == queue[i].value
  {
    var m := |queue| - 1;
    if i < m {
      assert LastAccepted(queue[..m], accepts, n, i);
      ReplayedLast(saved, queue[..m], accepts, n, i);
    }
  }

  /** If it accepted none, it holds what it held before. */
  lemma {:induction false} ReplayedNone(saved: map<Key, Value>, queue: seq<Write>, accepts: nat -> bool, n: nat, k: Key)
    requires forall i :: 0 <= i < |queue| && queue[i].key == k ==> !accepts(n + i)
    ensures var r := Replayed(saved, queue, accepts, n); (k in r <==> k in saved) && (k in saved ==> r[k] == saved[k])
  {
    if queue != [] {
      var front := queue[..|queue| - 1];
      assert forall i :: 0 <= i < |front| ==> front[i] == queue[i];
      ReplayedNone(saved, front, accepts, n, k);
    }
  }

  class FeatureState {
    var operations: map<Id, Operation>
    var tokens: set<Id>
    var cancelled: set<Id>
    var models: map<Id, Model>
    var documents: map<Id, Document>
    var conversations: Threads
    var attached: bool
    var queue: seq<Write>

    function View(): Memory
      reads this
    {
      Memory(operations, models, documents, conversations)
    }

    constructor ()
      ensures View() == Memory(map[], map[], map[], map[]) && Filed(View())
      ensures tokens == {} && cancelled == {} && !attached && queue == []
    {
      operations, models, documents, conversations := map[], map[], map[], map[];
      tokens, cancelled, attached, queue := {}, {}, false, [];
    }

    /** Serialises one projection. */
    method Snapshot(k: Key) returns (v: Value)
      ensures IsSnapshot(View(), k, v)
    {
      match k {
        case Operations => var s := ListValues(operations); v := OperationList(s);
        case Models => var s := ListValues(models); v := ModelList(s);
        case Documents => var s := ListValues(documents); v := DocumentList(s);
        case Conversations => var s := ListValues(Threaded(conversations)); v := ConversationList(s);
      }
    }

    method Persist(k: Key)
      modifies `queue
      ensures Enqueued(old(queue), queue, attached, View(), k)
    {
      var v := Snapshot(k);
      if !attached { return; }
      queue := queue + [Write(k, v)];
    }

    method CreateOperation(id: Id, command: string)
      requires Filed(View())
      modifies `operations, `tokens, `cancelled, `queue
      ensures Filed(View()) && operations == old(operations)[id := Operation(id, command, Accepted, None, "")]
      ensures tokens == old(tokens) + {id} && cancelled == old(cancelled) - {id}
      ensures Enqueued(old(queue), queue, attached, View(), Operations)
    {
      operations := operations[id := Operation(id, command, Accepted, None, "")];
      tokens, cancelled := tokens + {id}, cancelled - {id};
      Persist(Operations);
    }

    method UpdateOperation(id: Id, status: Status, detail: Option<string>, result: string)
      requires Filed(View())
      modifies `operations, `tokens, `queue
      ensures Filed(View()) && operations == Updated(old(operations), id, status, detail, result)
      ensures operations.Keys == old(operations).Keys && forall other <- operations :: other != id ==> operations[other] == old(operations)[other]
      ensures id in operations ==> operations[id] == Operation(id, old(operations)[id].command, status, detail, result)
      ensures tokens == if status == Completed || status == Failed || status == Cancelled then old(tokens) - {id} else old(tokens)
      ensures Enqueued(old(queue), queue, attached, View(), Operations)
    {
      if id in operations {
        operations := operations[id := operations[id].(status := status, detail := detail, result := result)];
      }
      if status.Completed? || status.Failed? || status.Cancelled? { tokens := tokens - {id}; }
      Persist(Operations);
    }

    /** Cancels work that still has its token, and nothing else. */
    method CancelOperation(id: Id) returns (found: bool)
      requires Filed(View())
      modifies `operations, `tokens, `cancelled, `queue
      ensures Filed(View()) && found == (id in old(tokens))
      ensures cancelled == (if found then old(cancelled) + {id} else old(cancelled)) && tokens == old(tokens) - {id}
      ensures operations == if found then Updated(old(operations), id, Cancelled, Some("cancel_requested"), "") else old(operations)
      ensures found && id in operations ==>
                operations[id] == Operation(id, old(operations)[id].command, Cancelled, Some("cancel_requested"), "")
      ensures if found then Enqueued(old(queue), queue, attached, View(), Operations) else queue == old(queue)
    {
      if id !in tokens { return false; }
      cancelled := cancelled + {id};
      UpdateOperation(id, Cancelled, Some("cancel_requested"), "");
      return true;
    }

    method AppendMessage(key: (Id, Id), message: Message)
      modifies `conversations, `queue
      ensures conversations == old(conversations)[key := (if key in old(conversations) then old(conversations)[key] else []) + [message]]
      ensures Enqueued(old(queue), queue, attached, View(), Conversations)
    {
      var thread := if key in conversations then conversations[key] else [];
      conversations := conversations[key := thread + [message]];
      Persist(Conversations);
    }

    method ClearConversation(key: (Id, Id)) returns (removed: nat)
      modifies `conversations, `queue
      ensures removed == |Thread(old(conversations), key)| && conversations == old(conversations) - {key}
      ensures Enqueued(old(queue), queue, attached, View(), Conversations)
    {
      removed := if key in conversations then |conversations[key]| else 0;
      conversations := conversations - {key};
      Persist(Conversations);
    }

    /** Removes the last assistant message of a thread; without one, nothing changes and nothing is written. */
    method RemoveLastAssistant(key: (Id, Id)) returns (removed: bool)
      modifies `conversations, `queue
      ensures var before := Thread(old(conversations), key);
              var i := LastOf(before, Assistant);
              && removed == (i >= 0)
              && (removed ==> conversations == old(conversations)[key := before[..i] + before[i + 1..]])
              && (!removed ==> conversations == old(conversations))
      ensures if removed then Enqueued(old(queue), queue, attached, View(), Conversations) else queue == old(queue)
    {
      if key !in conversations { return false; }
      var messages := conversations[key];
      var i := FindLast(messages, Assistant);
      if i < 0 { return false; }
      conversations := conversations[key := messages[..i] + messages[i + 1..]];
      Persist(Conversations);
      return true;
    }

    method InsertModel(model: Model)
      requires Filed(View())
      modifies `models, `queue
      ensures Filed(View()) && models == old(models)[model.id := model]
      ensures Enqueued(old(queue), queue, attached, View(), Models)
    {
      models := models[model.id := model];
      Persist(Models);
    }

    method UpdateModel(id: Id, update: Model -> Model) returns (found: bool)
      requires Filed(View()) && forall m :: update(m).id == m.id
      modifies `models, `queue
      ensures Filed(View()) && found == (id in old(models))
      ensures models == if found then old(models)[id := update(old(models)[id])] else old(models)
      ensures if found then Enqueued(old(queue), queue, attached, View(), Models) else queue == old(queue)
    {
      if id !in models { return false; }
      models := models[id := update(models[id])];
      Persist(Models);
      return true;
    }

    method RemoveModel(id: Id) returns (removed: Option<Model>)
      requires Filed(View())
      modifies `models, `queue
      ensures Filed(View()) && models == old(models) - {id}
      ensures removed == if id in old(models) then Some(old(models)[id]) else None
      ensures Enqueued(old(queue), queue, attached, View(), Models)
    {
      removed := if id in models then Some(models[id]) else None;
      models := models - {id};
      Persist(Models);
    }

    /** The writer works off the queue, oldest first; a failed save is dropped. */
    method DrainWriter(store: ProjectionStore)
      modifies `queue, store
      ensures queue == [] && store.attempts == old(store.attempts) + |old(queue)|
      ensures store.saved == Replayed(old(store.saved), old(queue), store.accepts, old(store.attempts))
    {
      ghost var all, n := queue, 0;
      while queue != []
        modifies `queue, store
        invariant 0 <= n <= |all| && queue == all[n..]
        invariant store.attempts == old(store.attempts) + n
        invariant store.saved == Replayed(old(store.saved), all[..n], store.accepts, old(store.attempts))
        decreases |queue|
      {
        assert all[..n + 1][..n] == all[..n];
        var write := queue[0];
        queue := queue[1..];
        n := n + 1;
        var _ := store.Save(write.key, write.value);
      }
      assert all[..n] == all;
    }

    /** The four direct saves of a flush; the first failure ends it. */
    method SaveAll(store: ProjectionStore) returns (ok: bool)
      modifies store
      ensures ok ==> Stored(View(), store.saved)
      ensures ok <==> forall i :: old(store.attempts) <= i < old(store.attempts) + 4 ==> store.accepts(i)
    {
      var o := Snapshot(Operations);
      var m := Snapshot(Models);
      var d := Snapshot(Documents);
      var c := Snapshot(Conversations);
      ok := store.Save(Operations, o);
      if !ok { return; }
      ok := store.Save(Models, m);
      if !ok { return; }
      ok := store.Save(Documents, d);
      if !ok { return; }
      ok := store.Save(Conversations, c);
      if ok {
        assert store.saved == old(store.saved)[Operations := o][Models := m][Documents := d][Conversations := c];
        forall k: Key ensures k in store.saved && IsSnapshot(View(), k, store.saved[k]) {
          match k { case Operations => case Models => case Documents => case Conversations => }
        }
      }
    }

    /** With a store attached, a flush that succeeds leaves the store equal to memory, whatever happened before. */
    method Flush(store: ProjectionStore) returns (ok: bool)
      modifies `queue, store
      ensures queue == []
      ensures ok && attached ==> Stored(View(), store.saved)
      ensures var n := old(store.attempts) + |old(queue)|;
              attached ==> (ok <==> forall i :: n <= i < n + 4 ==> store.accepts(i))
      ensures !attached ==> ok
    {
      DrainWriter(store);
      if !attached { return true; }
      ok := SaveAll(store);
    }

    method Hydrate(store: ProjectionStore) returns (ok: bool)
      modifies this
      ensures tokens == old(tokens) && cancelled == old(cancelled) && attached == old(attached)
      ensures !attached ==> ok && View() == old(View()) && queue == old(queue)
      ensures attached ==> (View(), ok) == Hydrated(old(View()), store.saved, 0)
      ensures attached ==> (ok <==> forall k: Key :: k in store.saved ==> Fits(k, store.saved[k]))
      ensures attached && ok ==> forall k: Key :: Reads(old(View()), View(), store.saved, k)
      ensures attached && !ok ==> queue == old(queue)
      ensures attached && ok ==> Enqueued(old(queue), queue, attached, View(), Operations)
    {
      if !attached { return true; }
      HydratedReads(View(), View(), store.saved, 0);
      var from := 0;
      while from < 4
        modifies `operations, `models, `documents, `conversations
        invariant 0 <= from <= 4
        invariant Hydrated(View(), store.saved, from) == Hydrated(old(View()), store.saved, 0)
      {
        var k := Ranked(from);
        if k in store.saved {
          if !Fits(k, store.saved[k]) { return false; }
          var m := Loaded(View(), store.saved[k]);
          operations, models, documents, conversations := m.operations, m.models, m.documents, m.conversations;
        }
        from := from + 1;
      }
      Persist(Operations);
      return true;
    }
  }

  /** Flush, die, start again: the new process has the old one's memory, with unfinished work marked as failed. */
  method FlushAndRestart(before: FeatureState, store: ProjectionStore) returns (ok: bool, next: FeatureState)
    requires before.attached && Filed(before.View())
    modifies before`queue, store
    ensures ok ==> next.View() == before.View().(operations := AllInterrupted(before.operations))
    ensures ok ==> Recovered(before.operations, next.operations) && next.models == before.models
    ensures ok ==> next.documents == before.documents && next.conversations == before.conversations
    ensures var n := old(store.attempts) + |old(before.queue)|; ok <==> forall i :: n <= i < n + 4 ==> store.accepts(i)
  {
    InterruptedRecovers(before.operations);
    next := new FeatureState();
    ok := before.Flush(store);
    if !ok { return; }
    next.attached := true;
    RestartRestores(before.View(), store.saved, next.View());
    ok := next.Hydrate(store);
  }
}
