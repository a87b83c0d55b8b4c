/**
 Document ingestion and revocation: SQL chunk rows and their vectors are
 changed in several steps, and a caller may give up between any two of them.
 */
module RagServices {
  import opened Prelude

  type Doc = string
  type ChunkId = string

  /** A row of the chunk table. */
  datatype Row = Row(doc: Doc, ordinal: nat, text: string)

  function RowsOf(rows: map<ChunkId, Row>, doc: Doc): set<ChunkId> {
    set id | id in rows && rows[id].doc == doc
  }

  /** Staged chunk ids as rows: the i-th is chunk i of the document. */
  function Inserted(doc: Doc, chunks: seq<string>, ids: seq<ChunkId>): map<ChunkId, Row>
    requires |ids| <= |chunks|
  {
    if ids == [] then map[]
    else
      var i := |ids| - 1;
      Inserted(doc, chunks, ids[..i])[ids[i] := Row(doc, i, chunks[i])]
  }

  /** The ingest transaction: the document's rows are replaced. */
  function Replaced(rows: map<ChunkId, Row>, doc: Doc, added: map<ChunkId, Row>): map<ChunkId, Row> {
    (rows - RowsOf(rows, doc)) + added
  }

  function Ids(ids: seq<ChunkId>): set<ChunkId> { set id | id in ids }

  lemma {:induction false} InsertedKeys(doc: Doc, chunks: seq<string>, ids: seq<ChunkId>)
    requires |ids| <= |chunks|
    ensures Inserted(doc, chunks, ids).Keys == Ids(ids)
  {
    if ids != [] {
      var i := |ids| - 1;
      assert ids == ids[..i] + [ids[i]];
      InsertedKeys(doc, chunks, ids[..i]);
    }
  }

  function Minted(mint: nat -> ChunkId, n: nat): seq<ChunkId> {
    if n == 0 then [] else Minted(mint, n - 1) + [mint(n - 1)]
  }

  lemma {:induction false} MintedAre(mint: nat -> ChunkId, n: nat)
    ensures |Minted(mint, n)| == n && forall i :: 0 <= i < n ==> Minted(mint, n)[i] == mint(i)
  {
    if n > 0 { MintedAre(mint, n - 1); }
  }

  /** Chunk `i` is filed under its own id. */
  lemma {:induction false} InsertedAt(doc: Doc, chunks: seq<string>, ids: seq<ChunkId>, i: nat)
    requires |ids| <= |chunks| && i < |ids| && forall j, k :: 0 <= j < k < |ids| ==> ids[j] != ids[k]
    ensures ids[i] in Inserted(doc, chunks, ids) && Inserted(doc, chunks, ids)[ids[i]] == Row(doc, i, chunks[i])
  {
    var n := |ids| - 1;
    if i < n {
      assert ids[i] != ids[n];
      InsertedAt(doc, chunks, ids[..n], i);
    }
  }

  /** The document's rows are its new chunks, in order, under the given ids; the rows of other documents are as they were. */
  ghost predicate Reingested(before: map<ChunkId, Row>, after: map<ChunkId, Row>, doc: Doc, chunks: seq<string>, ids: seq<ChunkId>) {
    && |ids| == |chunks|
    && (forall i :: 0 <= i < |ids| ==> ids[i] in after && after[ids[i]] == Row(doc, i, chunks[i]))
    && (forall id <- after :: after[id].doc == doc ==> id in ids)
    && (forall id <- before :: before[id].doc != doc ==> id in after && after[id] == before[id])
    && (forall id <- after :: after[id].doc != doc ==> id in before)
  }

  lemma ReplacedIsReingested(rows: map<ChunkId, Row>, doc: Doc, chunks: seq<string>, ids: seq<ChunkId>)
    requires |ids| == |chunks| && (forall id <- ids :: id !in rows)
    requires forall j, k :: 0 <= j < k < |ids| ==> ids[j] != ids[k]
    ensures Reingested(rows, Replaced(rows, doc, Inserted(doc, chunks, ids)), doc, chunks, ids)
  {
    InsertedKeys(doc, chunks, ids);
    var added := Inserted(doc, chunks, ids);
    forall i | 0 <= i < |ids| ensures ids[i] in added && added[ids[i]] == Row(doc, i, chunks[i]) {
      InsertedAt(doc, chunks, ids, i);
    }
    forall id <- added ensures added[id].doc == doc {
      var i :| 0 <= i < |ids| && ids[i] == id;
    }
  }

  datatype Outcome = Done(count: nat) | Refused | EmbeddingFailed | DatabaseFailed | SaveFailed(count: nat)

  class RagService {
    var rows: map<ChunkId, Row>
    var vectors: set<ChunkId>

    constructor ()
      ensures rows == map[] && vectors == {}
    {
      rows, vectors := map[], {};
    }

    /** Embeds and adds the vectors, chunk by chunk; at the first failure all of them are taken back. */
    method Stage(chunks: seq<string>, mint: nat -> ChunkId, embeds: nat -> bool) returns (staged: Option<seq<ChunkId>>)
      requires forall i :: 0 <= i < |chunks| ==> mint(i) !in vectors
      modifies `vectors
      ensures staged.Some? <==> forall i :: 0 <= i < |chunks| ==> embeds(i)
      ensures staged.None? ==> vectors == old(vectors)
      ensures staged.Some? ==> vectors == old(vectors) + Ids(staged.value)
      ensures staged.Some? ==> staged.value == Minted(mint, |chunks|)
    {
      var ids: seq<ChunkId> := [];
      while |ids| < |chunks|
        invariant |ids| <= |chunks| && ids == Minted(mint, |ids|)
        invariant forall i :: 0 <= i < |ids| ==> embeds(i)
        invariant vectors == old(vectors) + Ids(ids)
      {
        if !embeds(|ids|) {
          vectors := vectors - Ids(ids);
          MintedAre(mint, |ids|);
          assert vectors == old(vectors);
          return None;
        }
        var id := mint(|ids|);
        vectors := vectors + {id};
        assert Ids(ids + [id]) == Ids(ids) + {id};
        ids := ids + [id];
      }
      return Some(ids);
    }

    /** The transaction commits, and the vectors of the replaced rows are shredded. */
    method Install(doc: Doc, chunks: seq<string>, ids: seq<ChunkId>, oldIds: set<ChunkId>)
      requires |ids| == |chunks| && oldIds == RowsOf(rows, doc) && forall id <- ids :: id !in rows
      requires forall j, k :: 0 <= j < k < |ids| ==> ids[j] != ids[k]
      modifies this
      ensures rows == Replaced(old(rows), doc, Inserted(doc, chunks, ids))
      ensures Reingested(old(rows), rows, doc, chunks, ids)
      ensures vectors == old(vectors) - oldIds && rows.Keys == old(rows).Keys - oldIds + Ids(ids)
    {
      InsertedKeys(doc, chunks, ids);
      ReplacedIsReingested(rows, doc, chunks, ids);
      rows := Replaced(rows, doc, Inserted(doc, chunks, ids));
      vectors := vectors - oldIds;
    }

    /**
     An ingest that runs to its end.  Every failure before the commit leaves
     rows and vectors as they were; afterwards the document has exactly its
     new chunks, and no other document's rows or vectors are touched.
     */
    method IngestDocument(
      doc: Doc, readable: bool, chunks: seq<string>, mint: nat -> ChunkId, embeds: nat -> bool, commits: bool, saves: bool)
      returns (outcome: Outcome)
      requires forall i :: 0 <= i < |chunks| ==> mint(i) !in vectors && mint(i) !in rows
      requires forall i, j :: 0 <= i < j < |chunks| ==> mint(i) != mint(j)
      modifies this
      ensures outcome.Done? || outcome.SaveFailed? ==>
                && outcome.count == |chunks| > 0 && |Minted(mint, |chunks|)| == |chunks|
                && rows == Replaced(old(rows), doc, Inserted(doc, chunks, Minted(mint, |chunks|)))
                && vectors == old(vectors) + Ids(Minted(mint, |chunks|)) - RowsOf(old(rows), doc)
      ensures !(outcome.Done? || outcome.SaveFailed?) ==> rows == old(rows) && vectors == old(vectors)
      ensures outcome.Done? || outcome.SaveFailed? ==>
                Reingested(old(rows), rows, doc, chunks, Minted(mint, |chunks|))
      ensures outcome.Refused? <==> !readable || chunks == []
      ensures !outcome.Refused? ==> (outcome.EmbeddingFailed? <==> exists i :: 0 <= i < |chunks| && !embeds(i))
      ensures !outcome.Refused? && !outcome.EmbeddingFailed? ==>
                && (outcome.DatabaseFailed? <==> !commits)
                && (commits ==> (outcome.Done? <==> saves))
      ensures old(rows.Keys == vectors) ==> rows.Keys == vectors
    {
      if !readable || chunks == [] { return Refused; }
      MintedAre(mint, |chunks|);
      var oldIds := RowsOf(rows, doc);
      var staged := Stage(chunks, mint, embeds);
      if staged.None? { return EmbeddingFailed; }
      if !commits {
        vectors := vectors - Ids(staged.value);
        assert vectors == old(vectors);
        return DatabaseFailed;
      }
      Install(doc, chunks, staged.value, oldIds);
      return if saves then Done(|staged.value|) else SaveFailed(|staged.value|);
    }

    method RevokeDocument(doc: Doc, commits: bool, saves: bool) returns (outcome: Outcome)
      modifies this
      ensures outcome.DatabaseFailed? <==> !commits
      ensures outcome.DatabaseFailed? ==> rows == old(rows) && vectors == old(vectors)
      ensures !outcome.DatabaseFailed? ==>
                && rows == old(rows) - RowsOf(old(rows), doc) && RowsOf(rows, doc) == {}
                && vectors == old(vectors) - RowsOf(old(rows), doc)
                && outcome == (if saves then Done(|RowsOf(old(rows), doc) * old(vectors)|)
                               else SaveFailed(|RowsOf(old(rows), doc) * old(vectors)|))
      ensures !outcome.DatabaseFailed? ==>
                && (forall id :: id in rows <==> id in old(rows) && old(rows)[id].doc != doc)
                && (forall id :: id in vectors <==> id in old(vectors) && !(id in old(rows) && old(rows)[id].doc == doc))
      ensures old(rows.Keys == vectors) ==> rows.Keys == vectors
    {
      if !commits { return DatabaseFailed; }
      var ids := RowsOf(rows, doc);
      rows := rows - ids;
      var removed := |ids * vectors|;
      vectors := vectors - ids;
      return if saves then Done(removed) else SaveFailed(removed);
    }
  }
}

/** Ingests and revokes that may be cut off at any await point, with their transactions left to commit later. */
module RagRuns {
  import opened RagServices

  type Rows = map<ChunkId, Row>

  /** A transaction replaces the rows of a document; a revoke replaces them by none and reads what it deletes. */
  datatype Tx = Replace(doc: Doc, staged: Rows) | Delete(doc: Doc)

  /** The operation that holds the write lock. */
  datatype Active =
    | Idle
    | Staging(doc: Doc, stale: set<ChunkId>, staged: Rows)
    | Submitted(tx: Tx, stale: set<ChunkId>)
    /** The transaction has committed; the vectors of the rows it deleted are still there. */
    | Committed(stale: set<ChunkId>)

  datatype State = State(
    rows: Rows,
    vectors: set<ChunkId>,
    active: Active,
    /** Transactions whose caller is gone. */
    detached: seq<Tx>,
    // History, read by no step.
    used: set<ChunkId>,
    /** Vectors that lost their row, or never got one, without anybody meaning to shred them. */
    stranded: set<ChunkId>)

  datatype Step =
    | BeginIngest(doc: Doc)
    | Embed(id: ChunkId, row: Row)
    | EmbedFails
    | SubmitIngest
    | BeginRevoke(doc: Doc)
    | Commit
    | CommitFails
    | Shred
    | CutOff
    | DetachedCommits(i: nat)
    | DetachedFails(i: nat)

  function Added(tx: Tx): Rows { if tx.Replace? then tx.staged else map[] }

  function Staged(tx: Tx): set<ChunkId> { Added(tx).Keys }

  function AfterTx(rows: Rows, tx: Tx): Rows { Replaced(rows, tx.doc, Added(tx)) }

  ghost predicate Init(s: State) {
    s.rows.Keys == s.vectors == s.used && s.active.Idle? && s.detached == [] && s.stranded == {}
  }

  predicate Enabled(s: State, step: Step) {
    match step
    case BeginIngest(_) => s.active.Idle?
    case Embed(id, row) => s.active.Staging? && id !in s.used && row.doc == s.active.doc
    case EmbedFails => s.active.Staging?
    case SubmitIngest => s.active.Staging?
    case BeginRevoke(_) => s.active.Idle?
    case Commit => s.active.Submitted?
    case CommitFails => s.active.Submitted?
    case Shred => s.active.Committed?
    case CutOff => !s.active.Idle?
    case DetachedCommits(i) => i < |s.detached|
    case DetachedFails(i) => i < |s.detached|
  }

  /** What the active operation shreds once its transaction has committed; a revoke learns it from its transaction. */
  function StaleAfter(s: State): set<ChunkId>
    requires s.active.Submitted?
  {
    if s.active.tx.Delete? then RowsOf(s.rows, s.active.tx.doc) else s.active.stale
  }

  /** The vectors that a step strands. */
  function Strands(s: State, step: Step): set<ChunkId>
    requires Enabled(s, step)
  {
    match step
    case CutOff =>
      (match s.active
       case Staging(_, _, staged) => staged.Keys
       // The transaction goes on without its caller: see below.
       case Submitted(_, _) => {}
       case Committed(stale) => stale
       case Idle => {})
    case DetachedFails(i) => Staged(s.detached[i])
    case DetachedCommits(i) => RowsOf(s.rows, s.detached[i].doc)
    // Rows that a detached transaction inserted since the ids to shred were read.
    case Commit => RowsOf(s.rows, s.active.tx.doc) - StaleAfter(s)
    case _ => {}
  }

  /** A shred also takes vectors whose rows a detached transaction had deleted meanwhile. */
  function Heals(s: State, step: Step): set<ChunkId>
    requires Enabled(s, step)
  {
    if step.Shred? then s.active.stale else {}
  }

  function Acted(s: State, step: Step): State
    requires Enabled(s, step)
  {
    match step
    case BeginIngest(doc) => s.(active := Staging(doc, RowsOf(s.rows, doc), map[]))
    case Embed(id, row) =>
      s.(vectors := s.vectors + {id}, used := s.used + {id}, active := s.active.(staged := s.active.staged[id := row]))
    case EmbedFails => s.(vectors := s.vectors - s.active.staged.Keys, active := Idle)
    case SubmitIngest => s.(active := Submitted(Replace(s.active.doc, s.active.staged), s.active.stale))
    case BeginRevoke(doc) => s.(active := Submitted(Delete(doc), {}))
    case Commit => s.(rows := AfterTx(s.rows, s.active.tx), active := Committed(StaleAfter(s)))
    case CommitFails => s.(vectors := s.vectors - Staged(s.active.tx), active := Idle)
    case Shred => s.(vectors := s.vectors - s.active.stale, active := Idle)
    case CutOff =>
      s.(active := Idle, detached := if s.active.Submitted? then s.detached + [s.active.tx] else s.detached)
    case DetachedCommits(i) =>
      s.(rows := AfterTx(s.rows, s.detached[i]), detached := s.detached[..i] + s.detached[i + 1..])
    case DetachedFails(i) => s.(detached := s.detached[..i] + s.detached[i + 1..])
  }

  function Apply(s: State, step: Step): State
    requires Enabled(s, step)
  {
    Acted(s, step).(stranded := s.stranded + Strands(s, step) - Heals(s, step))
  }

  ghost predicate IsRun(run: seq<State>, steps: seq<Step>) {
    && |run| == |steps| + 1
    && Init(run[0])
    && forall i :: 0 <= i < |steps| ==> Enabled(run[i], steps[i]) && run[i + 1] == Apply(run[i], steps[i])
  }

  // ---- one call is the composition of its steps ------------------------------------------------

  /** The states of an ingest that embeds `ids`, after it has begun in `s`. */
  ghost predicate EmbedsAll(s: State, doc: Doc, chunks: seq<string>, ids: seq<ChunkId>, s': State)
    requires |ids| <= |chunks|
  {
    if ids == [] then s' == s
    else
      var i := |ids| - 1;
      exists before :: EmbedsAll(s, doc, chunks, ids[..i], before) && EmbedsOne(before, ids[i], Row(doc, i, chunks[i]), s')
  }

  ghost predicate EmbedsOne(s: State, id: ChunkId, row: Row, s': State) {
    Enabled(s, Embed(id, row)) && s' == Apply(s, Embed(id, row))
  }

  lemma {:induction false} EmbedsAllStages(s: State, doc: Doc, chunks: seq<string>, ids: seq<ChunkId>, s': State)
    requires |ids| <= |chunks| && EmbedsAll(s, doc, chunks, ids, s')
    requires s.active.Staging? && s.active.staged == map[]
    ensures s' == s.(vectors := s.vectors + Ids(ids), used := s.used + Ids(ids),
                     active := s.active.(staged := Inserted(doc, chunks, ids)))
  {
    if ids == [] {
      assert s.vectors + Ids(ids) == s.vectors && s.used + Ids(ids) == s.used;
    } else {
      var i := |ids| - 1;
      var before :| EmbedsAll(s, doc, chunks, ids[..i], before) && EmbedsOne(before, ids[i], Row(doc, i, chunks[i]), s');
      EmbedsAllStages(s, doc, chunks, ids[..i], before);
      assert ids == ids[..i] + [ids[i]];
      OneMoreId(ids, s.vectors);
      OneMoreId(ids, s.used);
    }
  }

  lemma OneMoreId(ids: seq<ChunkId>, before: set<ChunkId>)
    requires ids != []
    ensures before + Ids(ids[..|ids| - 1]) + {ids[|ids| - 1]} == before + Ids(ids)
  {
    var i := |ids| - 1;
    assert ids == ids[..i] + [ids[i]];
    assert Ids(ids) == Ids(ids[..i]) + {ids[i]};
  }

  /** Left alone, the steps of an ingest leave the rows and vectors that `IngestDocument` leaves, on success and on failure. */
  lemma IngestIsItsSteps(s: State, doc: Doc, chunks: seq<string>, ids: seq<ChunkId>, s1: State)
    requires s.active.Idle? && |ids| == |chunks| && EmbedsAll(Apply(s, BeginIngest(doc)), doc, chunks, ids, s1)
    ensures s1.active.Staging? && s1.vectors == s.vectors + Ids(ids)
    ensures var s2 := Apply(s1, SubmitIngest);
            var done, failed := Apply(Apply(s2, Commit), Shred), Apply(s2, CommitFails);
            && done.active.Idle? && failed.active.Idle?
            && done.rows == Replaced(s.rows, doc, Inserted(doc, chunks, ids))
            && done.vectors == s.vectors + Ids(ids) - RowsOf(s.rows, doc)
            && failed.rows == s.rows && failed.vectors == s.vectors + Ids(ids) - Ids(ids)
  {
    EmbedsAllStages(Apply(s, BeginIngest(doc)), doc, chunks, ids, s1);
    InsertedKeys(doc, chunks, ids);
  }

  /** Left alone, the steps of a revoke leave the rows and vectors that `RevokeDocument` leaves. */
  lemma RevokeIsItsSteps(s: State, doc: Doc)
    requires s.active.Idle?
    ensures var done := Apply(Apply(Apply(s, BeginRevoke(doc)), Commit), Shred);
            && done.active.Idle? && done.rows == s.rows - RowsOf(s.rows, doc)
            && done.vectors == s.vectors - RowsOf(s.rows, doc)
  {
  }

  // ---- invariant ------------------------------------------------------------------------

  /** Ids that a transaction may still insert: not in the table, but with their vectors. */
  ghost predicate Ready(s: State, ids: set<ChunkId>) { ids <= s.vectors && ids !! s.rows.Keys }

  /** The ids the active operation is staging. */
  function Fresh(a: Active): set<ChunkId> {
    match a
    case Staging(_, _, staged) => staged.Keys
    case Submitted(tx, _) => Staged(tx)
    case _ => {}
  }

  /** The ids whose vectors the active operation will shred. */
  function Stale(a: Active): set<ChunkId> { if a.Idle? then {} else a.stale }

  ghost predicate Apart(s: State) {
    && Ready(s, Fresh(s.active))
    && (forall i :: 0 <= i < |s.detached| ==> Ready(s, Staged(s.detached[i])) && Staged(s.detached[i]) !! Fresh(s.active))
    && (forall i, j :: 0 <= i < j < |s.detached| ==> Staged(s.detached[i]) !! Staged(s.detached[j]))
  }

  /** What will be shredded is not, and will not be, a row of another document or a row again. */
  ghost predicate Doomed(s: State) {
    && Stale(s.active) <= s.vectors
    && Stale(s.active) !! Fresh(s.active)
    && (forall i :: 0 <= i < |s.detached| ==> Stale(s.active) !! Staged(s.detached[i]))
    && (s.active.Staging? ==> forall id <- s.active.stale :: id in s.rows ==> s.rows[id].doc == s.active.doc)
    && (s.active.Submitted? ==> forall id <- s.active.stale :: id in s.rows ==> s.rows[id].doc == s.active.tx.doc)
    && (s.active.Submitted? && s.active.tx.Delete? ==> s.active.stale == {})
    && (s.active.Committed? ==> s.active.stale !! s.rows.Keys)
  }

  ghost predicate Backed(s: State) { s.rows.Keys <= s.vectors <= s.used }

  ghost predicate IsDetached(s: State, id: ChunkId) {
    exists i :: 0 <= i < |s.detached| && id in Staged(s.detached[i])
  }

  /** Somebody accounts for this vector: a row, the active operation, or a detached transaction. */
  ghost predicate Minded(s: State, id: ChunkId) {
    || id in s.rows || id in Fresh(s.active) || IsDetached(s, id)
    || (s.active.Committed? && id in s.active.stale)
  }

  /** The vectors are those somebody accounts for and the stranded ones; a stranded one has no row and gets none. */
  ghost predicate Balanced(s: State) {
    && (forall id :: id in s.vectors ==> Minded(s, id) || id in s.stranded)
    && (forall id <- s.stranded :: id in s.vectors && id !in s.rows && id !in Fresh(s.active) && !IsDetached(s, id))
  }

  ghost predicate Inv(s: State) { Backed(s) && Apart(s) && Doomed(s) && Balanced(s) }

  lemma BackedNext(s: State, step: Step)
    requires Inv(s) && Enabled(s, step)
    ensures Backed(Apply(s, step))
  {
  }

  lemma ApartNext(s: State, step: Step)
    requires Inv(s) && Enabled(s, step)
    ensures Apart(Apply(s, step))
  {
  }

  lemma DoomedNext(s: State, step: Step)
    requires Inv(s) && Enabled(s, step)
    ensures Doomed(Apply(s, step))
  {
  }

  /** Taking one transaction out of the detached ones. */
  lemma WithoutOne(s: State, i: nat, s': State, id: ChunkId)
    requires i < |s.detached| && s'.detached == s.detached[..i] + s.detached[i + 1..]
    ensures IsDetached(s', id) ==> IsDetached(s, id)
    ensures IsDetached(s, id) ==> IsDetached(s', id) || id in Staged(s.detached[i])
    ensures Apart(s) && IsDetached(s', id) ==> id !in Staged(s.detached[i])
  {
    if IsDetached(s', id) {
      var j :| 0 <= j < |s'.detached| && id in Staged(s'.detached[j]);
      var k := if j < i then j else j + 1;
      assert s.detached[k] == s'.detached[j];
    }
    if IsDetached(s, id) {
      var j :| 0 <= j < |s.detached| && id in Staged(s.detached[j]);
      if j != i { assert s'.detached[if j < i then j else j - 1] == s.detached[j]; }
    }
  }

  lemma BalancedDetached(s: State, step: Step)
    requires Inv(s) && Enabled(s, step) && (step.DetachedCommits? || step.DetachedFails?)
    ensures Balanced(Apply(s, step))
  {
    var s' := Apply(s, step);
    forall id ensures id in s'.vectors ==> Minded(s', id) || id in s'.stranded { WithoutOne(s, step.i, s', id); }
    forall id <- s'.stranded
      ensures id in s'.vectors && id !in s'.rows && id !in Fresh(s'.active) && !IsDetached(s', id)
    {
      WithoutOne(s, step.i, s', id);
    }
  }

  lemma BalancedCutOff(s: State)
    requires Inv(s) && !s.active.Idle?
    ensures Balanced(Apply(s, CutOff))
  {
    var s' := Apply(s, CutOff);
    forall id ensures IsDetached(s', id) <==> IsDetached(s, id) || (s.active.Submitted? && id in Staged(s.active.tx)) {
      if IsDetached(s, id) {
        var j :| 0 <= j < |s.detached| && id in Staged(s.detached[j]);
        assert s'.detached[j] == s.detached[j];
      }
      if s.active.Submitted? { assert s'.detached[|s.detached|] == s.active.tx; }
    }
  }

  lemma BalancedOwn(s: State, step: Step)
    requires Inv(s) && Enabled(s, step) && !step.CutOff? && !step.DetachedCommits? && !step.DetachedFails?
    ensures Balanced(Apply(s, step))
  {
    var s' := Apply(s, step);
    assert forall id :: IsDetached(s', id) == IsDetached(s, id);
  }

  lemma BalancedNext(s: State, step: Step)
    requires Inv(s) && Enabled(s, step)
    ensures Balanced(Apply(s, step))
  {
    if step.CutOff? {
      BalancedCutOff(s);
    } else if step.DetachedCommits? || step.DetachedFails? {
      BalancedDetached(s, step);
    } else {
      BalancedOwn(s, step);
    }
  }

  lemma {:induction false} InvHolds(run: seq<State>, steps: seq<Step>, i: nat)
    requires IsRun(run, steps) && i < |run|
    ensures Inv(run[i])
  {
    if i > 0 {
      InvHolds(run, steps, i - 1);
      assert run[i - 1 + 1] == Apply(run[i - 1], steps[i - 1]);
      BackedNext(run[i - 1], steps[i - 1]);
      ApartNext(run[i - 1], steps[i - 1]);
      DoomedNext(run[i - 1], steps[i - 1]);
      BalancedNext(run[i - 1], steps[i - 1]);
    }
  }

  /** Whatever is cut off and whatever commits late, every chunk row has its vector. */
  lemma RowsHaveVectors(run: seq<State>, steps: seq<Step>, i: nat)
    requires IsRun(run, steps) && i < |run|
    ensures run[i].rows.Keys <= run[i].vectors
  {
    InvHolds(run, steps, i);
  }

  // ---- when rows and vectors agree ----------------------------------------------------------

  /**
   With nothing under way, the vectors without a row are exactly the stranded
   ones; so rows and vectors agree if and only if nothing is stranded.
   */
  lemma AgreeExactlyIfNothingStranded(run: seq<State>, steps: seq<Step>, i: nat)
    requires IsRun(run, steps) && i < |run| && run[i].active.Idle? && run[i].detached == []
    ensures run[i].vectors - run[i].rows.Keys == run[i].stranded
    ensures run[i].rows.Keys == run[i].vectors <==> run[i].stranded == {}
  {
    InvHolds(run, steps, i);
    var s := run[i];
    assert forall id :: !IsDetached(s, id);
    assert forall id <- s.vectors :: Minded(s, id) || id in s.stranded;
  }

  /** A vector stranded for good: nobody who will shred it has read its id. */
  ghost predicate Lost(s: State, id: ChunkId) { id in s.stranded && id !in Stale(s.active) }

  lemma LostNext(s: State, step: Step, id: ChunkId)
    requires Inv(s) && Lost(s, id) && Enabled(s, step)
    ensures Lost(Apply(s, step), id)
  {
  }

  lemma LostAlong(run: seq<State>, steps: seq<Step>, i: nat, id: ChunkId)
    requires IsRun(run, steps) && i < |steps| && Lost(run[i], id)
    ensures Lost(run[i + 1], id)
  {
    InvHolds(run, steps, i);
    LostNext(run[i], steps[i], id);
  }

  lemma {:induction false} StaysLost(run: seq<State>, steps: seq<Step>, i: nat, j: nat, id: ChunkId)
    requires IsRun(run, steps) && i <= j < |run| && Lost(run[i], id)
    ensures Lost(run[j], id)
  {
    if i < j {
      StaysLost(run, steps, i, j - 1, id);
      LostAlong(run, steps, j - 1, id);
    }
  }

  /** It stays a vector without a row in every continuation. */
  lemma LostForGood(run: seq<State>, steps: seq<Step>, i: nat, j: nat, id: ChunkId)
    requires IsRun(run, steps) && i <= j < |run| && Lost(run[i], id)
    ensures id in run[j].vectors && id !in run[j].rows
  {
    StaysLost(run, steps, i, j, id);
    InvHolds(run, steps, j);
  }

  /** The operation under way runs to a successful end. */
  function Finished(s: State): State
    requires !s.active.Idle?
  {
    match s.active
    case Staging(_, _, _) => Apply(Apply(Apply(s, SubmitIngest), Commit), Shred)
    case Submitted(_, _) => Apply(Apply(s, Commit), Shred)
    case Committed(_) => Apply(s, Shred)
  }

  /** A stranded vector is healed by the operation under way exactly if that has read its id. */
  lemma HealedExactlyIfStale(s: State, id: ChunkId)
    requires Inv(s) && !s.active.Idle? && id in s.stranded
    ensures id !in Finished(s).vectors <==> id in Stale(s.active)
    ensures id !in Finished(s).stranded <==> id in Stale(s.active)
  {
  }

  /** What a step strands for good: all it strands, but for ids that the operation under way still means to shred. */
  function StrandsForGood(s: State, step: Step): set<ChunkId>
    requires Enabled(s, step)
  {
    Strands(s, step) - Stale(Acted(s, step).active)
  }

  /** From such a step on rows and vectors never agree again. */
  lemma StrandingIsFinal(run: seq<State>, steps: seq<Step>, i: nat, j: nat)
    requires IsRun(run, steps) && i < j < |run| && StrandsForGood(run[i], steps[i]) != {}
    ensures StrandsForGood(run[i], steps[i]) <= run[j].vectors - run[j].rows.Keys
    ensures run[j].rows.Keys != run[j].vectors
  {
    var s, step := run[i], steps[i];
    assert run[i + 1] == Apply(s, step);
    forall id <- StrandsForGood(s, step) ensures id in run[j].vectors && id !in run[j].rows {
      assert id !in Heals(s, step);
      LostForGood(run, steps, i + 1, j, id);
    }
    var id :| id in StrandsForGood(s, step);
  }

  /** A detached transaction comes to its end. */
  predicate Resolves(step: Step) { step.DetachedFails? || step.DetachedCommits? }

  /** What the end of a detached transaction leaves without a row: what it staged, or the rows it deletes. */
  function Leaves(s: State, step: Step): set<ChunkId>
    requires Resolves(step) && Enabled(s, step)
  {
    var tx := s.detached[step.i];
    if step.DetachedFails? then Staged(tx) else RowsOf(s.rows, tx.doc)
  }

  /**
   Whenever a detached transaction comes to its end, it strands exactly what
   it leaves without a row.  What of it the operation under way will not shred
   keeps rows and vectors apart for good; and if it was the last one and
   nothing is under way, they agree if and only if it leaves nothing and
   nothing was stranded before.
   */
  lemma DetachedCases(run: seq<State>, steps: seq<Step>, k: nat, j: nat)
    requires IsRun(run, steps) && k < j < |run| && Resolves(steps[k])
    ensures var s, s', left := run[k], run[k + 1], Leaves(run[k], steps[k]);
            && s'.stranded == s.stranded + left
            && (left - Stale(s.active) != {} ==> run[j].rows.Keys != run[j].vectors)
            && (s.active.Idle? && |s.detached| == 1 ==>
                  (s'.rows.Keys == s'.vectors <==> left == {} && s.stranded == {}))
  {
    var s, step := run[k], steps[k];
    assert run[k + 1] == Apply(s, step);
    assert Strands(s, step) == Leaves(s, step);
    if Leaves(s, step) - Stale(s.active) != {} { StrandingIsFinal(run, steps, k, j); }
    if s.active.Idle? && |s.detached| == 1 { AgreeExactlyIfNothingStranded(run, steps, k + 1); }
  }

  /**
   What a cut-off does, from a state in which nothing is stranded or detached.
   Before the transaction is submitted it leaves agreement exactly if nothing
   was staged; after the commit, exactly if nothing was to be shredded; in
   between nothing is stranded yet, and the transaction alone is detached.
   */
  lemma CutOffCases(run: seq<State>, steps: seq<Step>, i: nat)
    requires IsRun(run, steps) && i < |steps| && steps[i].CutOff?
    requires run[i].stranded == {} && run[i].detached == []
    ensures var a, cut := run[i].active, run[i + 1];
            && (a.Staging? ==> (cut.rows.Keys == cut.vectors <==> a.staged == map[]))
            && (a.Committed? ==> (cut.rows.Keys == cut.vectors <==> a.stale == {}))
            && (a.Submitted? ==> cut.stranded == {} && cut.detached == [a.tx] && cut.active.Idle?)
  {
    var a := run[i].active;
    assert run[i + 1] == Apply(run[i], steps[i]);
    assert a.Staging? ==> (a.staged == map[] <==> a.staged.Keys == {});
    if !a.Submitted? { AgreeExactlyIfNothingStranded(run, steps, i + 1); }
  }

  /**
   An operation cut off while its transaction was submitted, with the end of
   that transaction at any later step at which nothing else is left over:
   agreement depends on what it staged if it fails, on the rows it deletes
   then if it commits.
   */
  lemma CutOffWhileSubmitted(run: seq<State>, steps: seq<Step>, i: nat, k: nat)
    requires IsRun(run, steps) && i < k < |steps| && steps[i].CutOff? && run[i].active.Submitted?
    requires Resolves(steps[k]) && run[k].detached == [run[i].active.tx] && run[k].active.Idle? && run[k].stranded == {}
    ensures var tx, s' := run[i].active.tx, run[k + 1];
            && (steps[k].DetachedFails? ==> (s'.rows.Keys == s'.vectors <==> Staged(tx) == {}))
            && (steps[k].DetachedCommits? ==> (s'.rows.Keys == s'.vectors <==> RowsOf(run[k].rows, tx.doc) == {}))
  {
    assert Enabled(run[k], steps[k]);
    DetachedCases(run, steps, k, k + 1);
  }

  /** An ingest into an empty store that is cut off after its first embedding leaves a vector without a row. */
  lemma CutOffWitness(id: ChunkId, row: Row) returns (run: seq<State>, steps: seq<Step>)
    ensures IsRun(run, steps) && steps == [BeginIngest(row.doc), Embed(id, row), CutOff]
    ensures run[3].active.Idle? && run[3].detached == [] && run[3].rows == map[] && run[3].vectors == {id}
  {
    var s0 := State(map[], {}, Idle, [], {}, {});
    var s1 := Apply(s0, BeginIngest(row.doc));
    var s2 := Apply(s1, Embed(id, row));
    run, steps := [s0, s1, s2, Apply(s2, CutOff)], [BeginIngest(row.doc), Embed(id, row), CutOff];
  }

  // ---- operations that run to their end ---------------------------------------------------

  /** No transaction is left over, nothing is stranded, and an ingest means to shred what its document has. */
  ghost predicate Tidy(s: State) {
    && s.detached == [] && s.stranded == {}
    && (s.active.Staging? ==> s.active.stale == RowsOf(s.rows, s.active.doc))
    && (s.active.Submitted? && s.active.tx.Replace? ==> s.active.stale == RowsOf(s.rows, s.active.tx.doc))
  }

  lemma TidyNext(s: State, step: Step)
    requires Inv(s) && Tidy(s) && Enabled(s, step) && !step.CutOff?
    ensures Tidy(Apply(s, step))
  {
  }

  lemma TidyAlong(run: seq<State>, steps: seq<Step>, i: nat)
    requires IsRun(run, steps) && i < |steps| && Tidy(run[i]) && !steps[i].CutOff?
    ensures Tidy(run[i + 1])
  {
    InvHolds(run, steps, i);
    TidyNext(run[i], steps[i]);
  }

  /**
   Operations that are not cut off, started where rows and vectors agree and
   no transaction is left over, end where rows and vectors agree, whether they
   succeed or fail.
   */
  lemma {:induction false} UncutKeepsExact(run: seq<State>, steps: seq<Step>, i: nat, j: nat)
    requires IsRun(run, steps) && i <= j < |run|
    requires run[i].active.Idle? && run[i].detached == [] && run[i].rows.Keys == run[i].vectors
    requires forall k :: i <= k < j ==> !steps[k].CutOff?
    ensures Tidy(run[j])
    ensures run[j].active.Idle? ==> run[j].rows.Keys == run[j].vectors
  {
    if i == j {
      AgreeExactlyIfNothingStranded(run, steps, i);
    } else {
      UncutKeepsExact(run, steps, i, j - 1);
      TidyAlong(run, steps, j - 1);
      if run[j].active.Idle? { AgreeExactlyIfNothingStranded(run, steps, j); }
    }
  }
}
