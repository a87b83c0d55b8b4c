/**
 Every interleaving of mutators, their persists, the projection writer and
 flushes, at the granularity of lock acquisitions, snapshots, sends and saves.

 `V` is the content of one projection.  Each projection remembers all the
 contents it ever had; the position of a content is its version.
 */
module ProjectionRuns {
  import opened Prelude

  datatype Key = Operations | Models | Documents | Conversations

  type PerKey<T> = Key -> T

  function Put<T>(f: PerKey<T>, k: Key, x: T): PerKey<T> { (j: Key) => if j == k then x else f(j) }

  /** The order in which a flush takes and saves its snapshots. */
  function Rank(k: Key): (r: nat)
    ensures r < 4
  {
    match k case Operations => 0 case Models => 1 case Documents => 2 case Conversations => 3
  }

  function Ranked(r: nat): (k: Key)
    ensures r < 4 ==> Rank(k) == r
  {
    if r == 0 then Operations else if r == 1 then Models else if r == 2 then Documents else Conversations
  }

  datatype Snap<V> = Snap(at: nat, value: V)
  datatype Command<V> = Save(key: Key, snap: Snap<V>) | Barrier(flush: nat)

  datatype Phase<V> =
    | Waiting
    /** Past the barrier: snapshots taken so far and how many of them are saved. */
    | Working(taken: seq<Snap<V>>, saved: nat)

  /** Who holds the enqueue lock. */
  datatype Lock<V> =
    | Free
    | Persisting(key: Key, taken: Option<Snap<V>>)
    | Flushing(flush: nat, phase: Phase<V>)

  datatype Attempt<V> = Attempt(key: Key, snap: Snap<V>, ok: bool)

  datatype State<V> = State(
    past: PerKey<seq<V>>,
    /** Mutators that changed the projection and have not taken their snapshot yet. */
    waiting: PerKey<nat>,
    attached: bool,
    queue: seq<Command<V>>,
    inHand: Option<(Key, Snap<V>)>,
    lock: Lock<V>,
    flushes: nat,
    stored: PerKey<Option<Snap<V>>>,
    // History, read by no step.
    /** Projections whose last snapshot was skipped because no store was attached. */
    missed: set<Key>,
    log: seq<Attempt<V>>)
  {
    function Version(k: Key): int { |past(k)| - 1 }

    function Current(k: Key): Snap<V>
      requires past(k) != []
    {
      Snap(Version(k), past(k)[Version(k)])
    }
  }

  datatype Step<V> =
    | Mutate(k: Key, v: V)
    | PersistLock(k: Key)
    | PersistSnapshot
    | PersistSend
    | Attach
    | WriterTake
    | WriterSave(ok: bool)
    | FlushLock
    | FlushSnapshot
    | FlushSave(ok: bool)
    /** Done, nothing attached, or given up. */
    | FlushEnd

  const KEYS := {Operations, Models, Documents, Conversations}

  /**
   Just started, or just hydrated: memory holds what the store holds, except
   for projections that hydration changed and has yet to persist.
   */
  ghost predicate Init<V>(s: State<V>) {
    && s.queue == [] && s.inHand.None? && s.lock.Free? && s.log == []
    && s.missed == (if s.attached then {} else KEYS)
    && forall k :: InitOf(s, k)
  }

  ghost predicate InitOf<V>(s: State<V>, k: Key) {
    && |s.past(k)| == 1
    && (s.stored(k).Some? ==> s.stored(k).value.at == 0)
    && (s.waiting(k) == 0 && s.attached ==> Untouched(Only(s, k)))
  }

  predicate Enabled<V>(s: State<V>, step: Step<V>) {
    match step
    case Mutate(_, _) => true
    case PersistLock(k) => s.lock.Free? && s.waiting(k) > 0
    case PersistSnapshot =>
      && s.lock.Persisting? && s.lock.taken.None?
      && s.waiting(s.lock.key) > 0 && s.past(s.lock.key) != []
    case PersistSend => s.lock.Persisting? && s.lock.taken.Some?
    case Attach => true
    case WriterTake => s.inHand.None? && s.queue != []
    case WriterSave(_) => s.inHand.Some?
    case FlushLock => s.lock.Free?
    case FlushSnapshot =>
      && s.lock.Flushing? && s.lock.phase.Working? && s.attached
      && |s.lock.phase.taken| < 4 && s.past(Ranked(|s.lock.phase.taken|)) != []
    case FlushSave(_) =>
      s.lock.Flushing? && s.lock.phase.Working? && |s.lock.phase.taken| == 4 && s.lock.phase.saved < 4
    case FlushEnd => s.lock.Flushing?
  }

  /** One save reaches the store, or fails without effect. */
  function Saved<V>(s: State<V>, k: Key, snap: Snap<V>, ok: bool): State<V> {
    s.(stored := if ok then Put(s.stored, k, Some(snap)) else s.stored, log := s.log + [Attempt(k, snap, ok)])
  }

  /** The lock holder's snapshot goes to the writer, unless there is no store. */
  function Sent<V>(s: State<V>): State<V>
    requires s.lock.Persisting? && s.lock.taken.Some?
  {
    var k := s.lock.key;
    if s.attached then s.(lock := Free, queue := s.queue + [Save(k, s.lock.taken.value)], missed := s.missed - {k})
    else s.(lock := Free, missed := s.missed + {k})
  }

  /** A barrier releases the flush that waits for it; nobody else is waiting. */
  function Acknowledged<V>(lock: Lock<V>, flush: nat): Lock<V> {
    if lock.Flushing? && lock.flush == flush && lock.phase.Waiting? then Flushing(flush, Working([], 0)) else lock
  }

  /** The writer takes the next command. */
  function Taken<V>(s: State<V>): State<V>
    requires s.queue != []
  {
    match s.queue[0]
    case Save(k, snap) => s.(queue := s.queue[1..], inHand := Some((k, snap)))
    case Barrier(flush) => s.(queue := s.queue[1..], lock := Acknowledged(s.lock, flush))
  }

  /** The lock after a flush's save: the flush goes on, or gives up at the first failure. */
  function Advanced<V>(lock: Lock<V>, ok: bool): Lock<V>
    requires lock.Flushing? && lock.phase.Working?
  {
    if ok then Flushing(lock.flush, Working(lock.phase.taken, lock.phase.saved + 1)) else Free
  }

  /** A flush saves its next snapshot. */
  function FlushedOne<V>(s: State<V>, ok: bool): State<V>
    requires s.lock.Flushing? && s.lock.phase.Working? && s.lock.phase.saved < |s.lock.phase.taken|
  {
    var k := Ranked(s.lock.phase.saved);
    Saved(s, k, s.lock.phase.taken[s.lock.phase.saved], ok).(missed := s.missed - {k}, lock := Advanced(s.lock, ok))
  }

  function Apply<V>(s: State<V>, step: Step<V>): State<V>
    requires Enabled(s, step)
  {
    match step
    case Mutate(k, v) =>
      s.(past := Put(s.past, k, s.past(k) + [v]), waiting := Put<nat>(s.waiting, k, s.waiting(k) + 1))
    case PersistLock(k) => s.(lock := Persisting(k, None))
    case PersistSnapshot =>
      var k := s.lock.key;
      s.(lock := Persisting(k, Some(s.Current(k))), waiting := Put<nat>(s.waiting, k, s.waiting(k) - 1))
    case PersistSend => Sent(s)
    case Attach => s.(attached := true)
    case WriterTake => Taken(s)
    case WriterSave(ok) => Saved(s, s.inHand.value.0, s.inHand.value.1, ok).(inHand := None)
    case FlushLock =>
      s.(lock := Flushing(s.flushes, Waiting), queue := s.queue + [Barrier(s.flushes)], flushes := s.flushes + 1)
    case FlushSnapshot =>
      var Flushing(flush, Working(taken, saved)) := s.lock;
      s.(lock := Flushing(flush, Working(taken + [s.Current(Ranked(|taken|))], saved)))
    case FlushSave(ok) => FlushedOne(s, ok)
    case FlushEnd => s.(lock := Free)
  }

  ghost predicate Next<V(!new)>(s: State<V>, s': State<V>) {
    exists step :: Enabled(s, step) && s' == Apply(s, step)
  }

  ghost predicate IsRun<V(!new)>(run: seq<State<V>>) {
    && |run| > 0
    && Init(run[0])
    && forall i :: 0 <= i < |run| - 1 ==> Next(run[i], run[i + 1])
  }

  /** A mutator and its persist, with nothing in between: a change, and a snapshot of it queued if there is a store. */
  lemma MutatorIsItsSteps<V>(s: State<V>, k: Key, v: V)
    requires s.lock.Free?
    ensures var s1 := Apply(s, Mutate(k, v));
            && Enabled(s1, PersistLock(k)) && var s2 := Apply(s1, PersistLock(k));
            && Enabled(s2, PersistSnapshot) && var s3 := Apply(s2, PersistSnapshot);
            && Enabled(s3, PersistSend) && var s4 := Apply(s3, PersistSend);
            && s4.lock.Free? && s4.past(k) == s.past(k) + [v] && s4.waiting(k) == s.waiting(k)
            && (forall other :: other != k ==> s4.past(other) == s.past(other) && s4.waiting(other) == s.waiting(other))
            && s4.queue == (if s.attached then s.queue + [Save(k, Snap(|s.past(k)|, v))] else s.queue)
            && s4.stored == s.stored && s4.log == s.log && s4.inHand == s.inHand
  {
  }

  // ---- one projection on its own -------------------------------------------------------

  /** Where the snapshots of one projection are, oldest first: tried, in hand, queued, then with the lock holder. */
  datatype One<V> = One(
    past: seq<V>,
    waiting: nat,
    tried: seq<Snap<V>>,
    hand: seq<Snap<V>>,
    queue: seq<Snap<V>>,
    held: seq<Snap<V>>,
    flushing: seq<Snap<V>>,
    stored: Option<Snap<V>>,
    missed: bool,
    lastOk: bool)
  {
    function Version(): int { |past| - 1 }

    function Current(): Snap<V>
      requires past != []
    {
      Snap(|past| - 1, past[|past| - 1])
    }
  }

  function Tries<V>(log: seq<Attempt<V>>, k: Key): seq<Snap<V>> {
    if log == [] then []
    else
      var last := log[|log| - 1];
      Tries(log[..|log| - 1], k) + if last.key == k then [last.snap] else []
  }

  /** Whether the last save of the projection, if there was one, succeeded. */
  predicate LastOk<V>(log: seq<Attempt<V>>, k: Key) {
    log == [] ||
    if log[|log| - 1].key == k then log[|log| - 1].ok else LastOk(log[..|log| - 1], k)
  }

  function Queued<V>(queue: seq<Command<V>>, k: Key): seq<Snap<V>> {
    if queue == [] then []
    else (if queue[0].Save? && queue[0].key == k then [queue[0].snap] else []) + Queued(queue[1..], k)
  }

  function InHand<V>(hand: Option<(Key, Snap<V>)>, k: Key): seq<Snap<V>> {
    if hand.Some? && hand.value.0 == k then [hand.value.1] else []
  }

  function Held<V>(lock: Lock<V>, k: Key): seq<Snap<V>> {
    if lock.Persisting? && lock.key == k && lock.taken.Some? then [lock.taken.value] else []
  }

  /** What a flush has taken and not saved. */
  function Flushed<V>(lock: Lock<V>, k: Key): seq<Snap<V>> {
    if lock.Flushing? && lock.phase.Working? && lock.phase.saved <= Rank(k) < |lock.phase.taken|
    then [lock.phase.taken[Rank(k)]] else []
  }

  function Only<V>(s: State<V>, k: Key): One<V> {
    One(s.past(k), s.waiting(k), Tries(s.log, k), InHand(s.inHand, k), Queued(s.queue, k),
        Held(s.lock, k), Flushed(s.lock, k), s.stored(k), k in s.missed, LastOk(s.log, k))
  }

  /** What a step of the whole system can do to one projection. */
  datatype Move<V> = Stay | Change(v: V) | Take | Send | Skip | Pop | SaveOne(ok: bool) | FlushTake | FlushSaveOne(ok: bool) | Drop

  predicate Possible<V>(o: One<V>, m: Move<V>) {
    match m
    case Take => o.past != [] && o.waiting > 0 && o.held == [] && o.flushing == []
    case Send => |o.held| == 1
    case Skip => |o.held| == 1
    case Pop => o.hand == [] && o.queue != []
    case SaveOne(_) => |o.hand| == 1
    case FlushTake => o.past != [] && o.hand == [] && o.queue == [] && o.held == [] && o.flushing == []
    case FlushSaveOne(_) => o.hand == [] && o.queue == [] && o.held == [] && |o.flushing| == 1
    case _ => true
  }

  function Moved<V>(o: One<V>, m: Move<V>): One<V>
    requires Possible(o, m)
  {
    match m
    case Stay => o
    case Change(v) => o.(past := o.past + [v], waiting := o.waiting + 1)
    case Take => o.(held := [o.Current()], waiting := o.waiting - 1)
    case Send => o.(queue := o.queue + o.held, held := [], missed := false)
    case Skip => o.(held := [], missed := true)
    case Pop => o.(hand := [o.queue[0]], queue := o.queue[1..])
    case SaveOne(ok) =>
      o.(tried := o.tried + o.hand, hand := [], lastOk := ok, stored := if ok then Some(o.hand[0]) else o.stored)
    case FlushTake => o.(flushing := [o.Current()])
    case FlushSaveOne(ok) =>
      o.(tried := o.tried + o.flushing, flushing := [], missed := false, lastOk := ok,
         stored := if ok then Some(o.flushing[0]) else o.stored)
    case Drop => o.(flushing := [])
  }

  // ---- every step is one move of each projection ------------------------------------------

  /** Past its barrier, a flush is alone: nothing is queued or in the writer's hand. */
  ghost predicate Alone<V>(s: State<V>) {
    && (forall i :: 0 <= i < |s.queue| && s.queue[i].Barrier? ==> s.queue[i].flush < s.flushes)
    && (s.lock.Flushing? ==> s.lock.flush < s.flushes)
    && (s.lock.Flushing? && s.lock.phase.Waiting? ==>
          && s.queue != [] && s.queue[|s.queue| - 1] == Barrier(s.lock.flush)
          && forall i :: 0 <= i < |s.queue| - 1 ==> s.queue[i] != Barrier(s.lock.flush))
    && (s.lock.Flushing? && s.lock.phase.Working? ==>
          && s.queue == [] && s.inHand.None?
          && s.lock.phase.saved <= |s.lock.phase.taken| <= 4
          && (s.lock.phase.saved > 0 ==> |s.lock.phase.taken| == 4))
  }

  lemma AloneTaken<V>(s: State<V>)
    requires Alone(s) && s.inHand.None? && s.queue != []
    ensures Alone(Taken(s))
  {
    var s' := Taken(s);
    assert forall i :: 0 <= i < |s'.queue| ==> s'.queue[i] == s.queue[i + 1];
  }

  lemma AloneNext<V>(s: State<V>, step: Step<V>)
    requires Alone(s) && Enabled(s, step)
    ensures Alone(Apply(s, step))
  {
    if step.WriterTake? { AloneTaken(s); }
  }

  lemma {:induction false} QueuedAppend<V>(queue: seq<Command<V>>, c: Command<V>, k: Key)
    ensures Queued(queue + [c], k) == Queued(queue, k) + if c.Save? && c.key == k then [c.snap] else []
  {
    if queue != [] {
      assert (queue + [c])[1..] == queue[1..] + [c];
      QueuedAppend(queue[1..], c, k);
    }
  }

  lemma LogAppend<V>(log: seq<Attempt<V>>, a: Attempt<V>, k: Key)
    ensures Tries(log + [a], k) == Tries(log, k) + if a.key == k then [a.snap] else []
    ensures LastOk(log + [a], k) == if a.key == k then a.ok else LastOk(log, k)
  {
    assert (log + [a])[..|log|] == log;
  }

  lemma SendProjects<V>(s: State<V>, k: Key)
    requires s.lock.Persisting? && s.lock.taken.Some?
    ensures var o := Only(s, k);
            Only(Sent(s), k) == if s.lock.key != k then o else Moved(o, if s.attached then Send else Skip)
  {
    QueuedAppend(s.queue, Save(s.lock.key, s.lock.taken.value), k);
  }

  lemma TakeProjects<V>(s: State<V>, k: Key)
    requires s.inHand.None? && s.queue != []
    ensures var o, mine := Only(s, k), s.queue[0].Save? && s.queue[0].key == k;
            (mine ==> Possible(o, Pop)) && Only(Taken(s), k) == if mine then Moved(o, Pop) else o
  {
    if s.queue[0].Barrier? { AcknowledgedKeeps(s.lock, s.queue[0].flush, k); }
    QueuedTail(s.queue, k);
  }

  lemma AcknowledgedKeeps<V>(lock: Lock<V>, flush: nat, k: Key)
    ensures Held(Acknowledged(lock, flush), k) == Held(lock, k)
    ensures Flushed(Acknowledged(lock, flush), k) == Flushed(lock, k)
  {
  }

  lemma QueuedTail<V>(queue: seq<Command<V>>, k: Key)
    requires queue != []
    ensures var mine, tail := queue[0].Save? && queue[0].key == k, Queued(queue[1..], k);
            if mine then Queued(queue, k) == [queue[0].snap] + tail && Queued(queue, k)[1..] == tail else Queued(queue, k) == tail
  {
  }

  lemma SaveProjects<V>(s: State<V>, k: Key, ok: bool)
    requires s.inHand.Some?
    ensures var o := Only(s, k);
            Only(Saved(s, s.inHand.value.0, s.inHand.value.1, ok).(inHand := None), k)
            == if s.inHand.value.0 == k then Moved(o, SaveOne(ok)) else o
  {
    LogAppend(s.log, Attempt(s.inHand.value.0, s.inHand.value.1, ok), k);
  }

  lemma RankedIs(r: nat, k: Key)
    requires r < 4
    ensures Ranked(r) == k <==> Rank(k) == r
  {
  }

  lemma FlushedAdvance<V>(lock: Lock<V>, k: Key, ok: bool)
    requires lock.Flushing? && lock.phase.Working? && lock.phase.saved < |lock.phase.taken| == 4
    ensures Flushed(Advanced(lock, ok), k) == if Rank(k) == lock.phase.saved || !ok then [] else Flushed(lock, k)
    ensures Held(Advanced(lock, ok), k) == []
    ensures Rank(k) == lock.phase.saved ==> Flushed(lock, k) == [lock.phase.taken[lock.phase.saved]]
  {
  }

  lemma FlushSaveProjects<V>(s: State<V>, k: Key, ok: bool)
    requires s.lock.Flushing? && s.lock.phase.Working? && s.lock.phase.saved < |s.lock.phase.taken| == 4
    requires s.queue == [] && s.inHand.None?
    ensures var o, mine := Only(s, k), Rank(k) == s.lock.phase.saved;
            && (mine ==> Possible(o, FlushSaveOne(ok)))
            && Only(FlushedOne(s, ok), k) == if mine then Moved(o, FlushSaveOne(ok)) else if ok then o else Moved(o, Drop)
  {
    var key, snap := Ranked(s.lock.phase.saved), s.lock.phase.taken[s.lock.phase.saved];
    RankedIs(s.lock.phase.saved, k);
    FlushedAdvance(s.lock, k, ok);
    SavedProjects(s, key, snap, k, ok);
    var o, o', saved := Only(s, k), Only(FlushedOne(s, ok), k), Only(Saved(s, key, snap, ok), k);
    assert o.hand == [] && o.queue == [] && o.held == [];
    assert o' == saved.(held := [], flushing := o'.flushing, missed := o.missed && key != k);
  }

  lemma SavedProjects<V>(s: State<V>, key: Key, snap: Snap<V>, k: Key, ok: bool)
    ensures var o := Only(s, k);
            Only(Saved(s, key, snap, ok), k) ==
            if key != k then o
            else o.(tried := o.tried + [snap], lastOk := ok, stored := if ok then Some(snap) else o.stored)
  {
    LogAppend(s.log, Attempt(key, snap, ok), k);
  }

  lemma FlushLockProjects<V>(s: State<V>, k: Key)
    requires s.lock.Free?
    ensures Only(Apply(s, FlushLock), k) == Only(s, k)
  {
    QueuedAppend(s.queue, Barrier(s.flushes), k);
  }

  lemma FlushSnapshotProjects<V>(s: State<V>, k: Key)
    requires Alone(s) && Enabled(s, FlushSnapshot)
    ensures var o, mine := Only(s, k), Rank(k) == |s.lock.phase.taken|;
            && (mine ==> Possible(o, FlushTake))
            && Only(Apply(s, FlushSnapshot), k) == if mine then Moved(o, FlushTake) else o
  {
    RankedIs(|s.lock.phase.taken|, k);
  }

  /** Seen from one projection, every step of the system is one of its moves. */
  lemma EachStepIsAMove<V>(s: State<V>, step: Step<V>, k: Key) returns (m: Move<V>)
    requires Alone(s) && Enabled(s, step)
    ensures Possible(Only(s, k), m) && Only(Apply(s, step), k) == Moved(Only(s, k), m)
  {
    m := Stay;
    match step {
      case Mutate(key, v) => if key == k { m := Change(v); }
      case PersistSnapshot => m := EachQueueStepIsAMove(s, step, k);
      case PersistSend => m := EachQueueStepIsAMove(s, step, k);
      case WriterTake => m := EachQueueStepIsAMove(s, step, k);
      case WriterSave(ok) => m := EachQueueStepIsAMove(s, step, k);
      case FlushLock => m := EachFlushStepIsAMove(s, step, k);
      case FlushSnapshot => m := EachFlushStepIsAMove(s, step, k);
      case FlushSave(ok) => m := EachFlushStepIsAMove(s, step, k);
      case FlushEnd => m := EachFlushStepIsAMove(s, step, k);
      case _ =>
    }
  }

  lemma EachQueueStepIsAMove<V>(s: State<V>, step: Step<V>, k: Key) returns (m: Move<V>)
    requires Enabled(s, step) && (step.PersistSnapshot? || step.PersistSend? || step.WriterTake? || step.WriterSave?)
    ensures Possible(Only(s, k), m) && Only(Apply(s, step), k) == Moved(Only(s, k), m)
  {
    m := Stay;
    match step {
      case PersistSnapshot => if s.lock.key == k { m := Move.Take; }
      case PersistSend =>
        SendProjects(s, k);
        if s.lock.key == k { m := if s.attached then Send else Skip; }
      case WriterTake =>
        TakeProjects(s, k);
        if s.queue[0].Save? && s.queue[0].key == k { m := Pop; }
      case WriterSave(ok) =>
        SaveProjects(s, k, ok);
        if s.inHand.value.0 == k { m := SaveOne(ok); }
    }
  }

  lemma EachFlushStepIsAMove<V>(s: State<V>, step: Step<V>, k: Key) returns (m: Move<V>)
    requires Alone(s) && Enabled(s, step) && (step.FlushLock? || step.FlushSnapshot? || step.FlushSave? || step.FlushEnd?)
    ensures Possible(Only(s, k), m) && Only(Apply(s, step), k) == Moved(Only(s, k), m)
  {
    m := Stay;
    match step {
      case FlushLock => FlushLockProjects(s, k);
      case FlushSnapshot =>
        FlushSnapshotProjects(s, k);
        if Rank(k) == |s.lock.phase.taken| { m := FlushTake; }
      case FlushSave(ok) =>
        FlushSaveProjects(s, k, ok);
        if Rank(k) == s.lock.phase.saved { m := FlushSaveOne(ok); } else if !ok { m := Drop; }
      case FlushEnd => m := Drop;
    }
  }

  // ---- invariants of one projection -----------------------------------------------------------

  function Chain<V>(o: One<V>): seq<Snap<V>> { o.tried + o.hand + o.queue + o.held + o.flushing }

  ghost predicate Rising<V>(chain: seq<Snap<V>>) {
    forall i, j :: 0 <= i < j < |chain| ==> chain[i].at <= chain[j].at
  }

  /** Every snapshot is a content the projection really had. */
  ghost predicate Genuine<V>(chain: seq<Snap<V>>, past: seq<V>) {
    forall i :: 0 <= i < |chain| ==> chain[i].at < |past| && chain[i].value == past[chain[i].at]
  }

  ghost predicate Ordered<V>(o: One<V>) {
    && o.past != []
    && (o.held == [] || o.flushing == [])
    && Rising(Chain(o))
    && Genuine(Chain(o), o.past)
  }

  /** Nothing has been persisted or changed since hydration. */
  ghost predicate Untouched<V>(o: One<V>) {
    |o.past| == 1 && (o.stored.None? || o.stored == Some(o.Current()))
  }

  /** The newest snapshot that will still reach the store, if no flush intervenes. */
  function Line<V>(o: One<V>): seq<Snap<V>> { o.tried + o.hand + o.queue + o.held }

  /** Unless a mutator has yet to take its snapshot, the newest snapshot is the current content. */
  ghost predicate Covered<V>(o: One<V>) {
    o.waiting == 0 ==>
      && (!o.missed ==> if Line(o) == [] then Untouched(o) else Line(o)[|Line(o)| - 1].at == o.Version())
      && (forall i :: 0 <= i < |o.held| ==> o.held[i].at == o.Version())
      && (forall i :: 0 <= i < |o.flushing| ==> o.flushing[i].at == o.Version())
  }

  /** The store holds the last snapshot tried if that save succeeded, and never something newer. */
  ghost predicate Kept<V>(o: One<V>) {
    && (o.tried != [] && o.lastOk ==> o.stored == Some(o.tried[|o.tried| - 1]))
    && (o.stored.Some? ==> o.stored.value.at == 0 || (o.tried != [] && o.stored.value.at <= o.tried[|o.tried| - 1].at))
  }

  lemma StaysOrdered<V>(chain: seq<Snap<V>>, past: seq<V>, chain': seq<Snap<V>>, past': seq<V>)
    requires past != [] && Rising(chain) && Genuine(chain, past) && past <= past'
    requires chain' <= chain || chain' == chain + [Snap(|past| - 1, past[|past| - 1])]
    ensures Rising(chain') && Genuine(chain', past')
  {
  }

  /** A move drops the newest snapshot, adds the current content, or only passes snapshots along. */
  lemma ChainMoves<V>(o: One<V>, m: Move<V>)
    requires o.past != [] && Possible(o, m)
    requires o.held == [] || o.flushing == []
    ensures Chain(Moved(o, m)) <= Chain(o) || Chain(Moved(o, m)) == Chain(o) + [o.Current()]
  {
    match m {
      case Pop =>
        assert o.queue == [o.queue[0]] + o.queue[1..];
        ShiftPop(o.tried, o.queue[0], o.queue[1..], o.held, o.flushing);
      case Send => ShiftSend(o.tried, o.hand, o.queue, o.held, o.flushing);
      case SaveOne(_) => ShiftSave(o.tried, o.hand, o.queue, o.held, o.flushing);
      case FlushSaveOne(_) => ShiftFlush(o.tried, o.flushing);
      case _ =>
    }
  }

  lemma ShiftPop<T>(a: seq<T>, x: T, c: seq<T>, d: seq<T>, e: seq<T>)
    ensures a + [] + ([x] + c) + d + e == a + [x] + c + d + e
  {
    assert a + [] + ([x] + c) == a + [x] + c;
  }

  lemma ShiftSend<T>(a: seq<T>, b: seq<T>, c: seq<T>, d: seq<T>, e: seq<T>)
    ensures a + b + c + d + e == a + b + (c + d) + [] + e
  {
    assert a + b + c + d == a + b + (c + d) + [];
  }

  lemma ShiftSave<T>(a: seq<T>, b: seq<T>, c: seq<T>, d: seq<T>, e: seq<T>)
    ensures a + b + c + d + e == (a + b) + [] + c + d + e
  {
    assert a + b + [] == a + b;
  }

  lemma ShiftFlush<T>(a: seq<T>, e: seq<T>)
    ensures a + [] + [] + [] + e == (a + e) + [] + [] + [] + []
  {
  }

  lemma OrderedMove<V>(o: One<V>, m: Move<V>)
    requires Ordered(o) && Possible(o, m)
    ensures Ordered(Moved(o, m))
  {
    ChainMoves(o, m);
    StaysOrdered(Chain(o), o.past, Chain(Moved(o, m)), Moved(o, m).past);
  }

  lemma CoveredMove<V>(o: One<V>, m: Move<V>)
    requires Ordered(o) && Covered(o) && Possible(o, m)
    ensures Covered(Moved(o, m))
  {
  }

  lemma KeptMove<V>(o: One<V>, m: Move<V>)
    requires Ordered(o) && Kept(o) && Possible(o, m)
    ensures Kept(Moved(o, m))
  {
    var n := |o.tried|;
    if n > 0 && m.SaveOne? { assert Chain(o)[n - 1] == o.tried[n - 1] && Chain(o)[n] == o.hand[0]; }
    if n > 0 && m.FlushSaveOne? { assert Chain(o)[n - 1] == o.tried[n - 1] && Chain(o)[n] == o.flushing[0]; }
  }

  // ---- whole runs --------------------------------------------------------------------------

  ghost predicate Inv<V>(s: State<V>, k: Key) {
    Alone(s) && Ordered(Only(s, k)) && Covered(Only(s, k)) && Kept(Only(s, k))
  }

  lemma InvNext<V>(s: State<V>, step: Step<V>, k: Key)
    requires Inv(s, k) && Enabled(s, step)
    ensures Inv(Apply(s, step), k)
  {
    AloneNext(s, step);
    var m := EachStepIsAMove(s, step, k);
    OrderedMove(Only(s, k), m);
    CoveredMove(Only(s, k), m);
    KeptMove(Only(s, k), m);
  }

  lemma InvInit<V>(s: State<V>, k: Key)
    requires Init(s)
    ensures Inv(s, k)
  {
    assert InitOf(s, k);
    assert k in KEYS;
  }

  lemma {:induction false} InvHolds<V(!new)>(run: seq<State<V>>, i: nat, k: Key)
    requires IsRun(run) && i < |run|
    ensures Inv(run[i], k)
  {
    if i == 0 {
      InvInit(run[0], k);
    } else {
      InvHolds(run, i - 1, k);
      assert Next(run[i - 1], run[i - 1 + 1]);
      var step :| Enabled(run[i - 1], step) && run[i] == Apply(run[i - 1], step);
      InvNext(run[i - 1], step, k);
    }
  }

  /** The saves of one projection come in the order of their versions, and each saves a content it really had. */
  lemma SavesAreInOrder<V(!new)>(run: seq<State<V>>, i: nat, k: Key, m: nat, n: nat)
    requires IsRun(run) && i < |run| && m < n < |Tries(run[i].log, k)|
    ensures var tries, past := Tries(run[i].log, k), run[i].past(k);
            && tries[m].at <= tries[n].at < |past|
            && tries[m].value == past[tries[m].at] && tries[n].value == past[tries[n].at]
  {
    InvHolds(run, i, k);
    var o := Only(run[i], k);
    assert Chain(o)[m] == o.tried[m] && Chain(o)[n] == o.tried[n];
  }

  /** Every change has been persisted, and no snapshot is on its way. */
  predicate Settled<V>(s: State<V>, k: Key) {
    && s.waiting(k) == 0 && k !in s.missed
    && Queued(s.queue, k) == [] && InHand(s.inHand, k) == [] && Held(s.lock, k) == []
  }

  /**
   Convergence: once things have settled and the last save succeeded, the
   store holds what memory holds (or nothing was ever changed or stored).
   */
  lemma StoreConverges<V(!new)>(run: seq<State<V>>, i: nat, k: Key)
    requires IsRun(run) && i < |run| && Settled(run[i], k) && LastOk(run[i].log, k)
    ensures run[i].past(k) != []
    ensures run[i].stored(k) == Some(run[i].Current(k)) || (run[i].stored(k).None? && run[i].Version(k) == 0)
  {
    InvHolds(run, i, k);
    var o := Only(run[i], k);
    assert Line(o) == o.tried;
    if o.tried != [] {
      assert Chain(o)[|o.tried| - 1] == o.tried[|o.tried| - 1];
    }
  }

  lemma StoredMove<V>(o: One<V>, m: Move<V>)
    requires Ordered(o) && Kept(o) && Possible(o, m) && o.stored.Some?
    ensures Moved(o, m).stored.Some? && o.stored.value.at <= Moved(o, m).stored.value.at
  {
    if m.SaveOne? || m.FlushSaveOne? {
      assert Chain(o)[|o.tried|] == if m.SaveOne? then o.hand[0] else o.flushing[0];
      assert o.tried != [] ==> Chain(o)[|o.tried| - 1] == o.tried[|o.tried| - 1];
    }
  }

  lemma StoreAdvancesNext<V>(s: State<V>, step: Step<V>, k: Key)
    requires Inv(s, k) && Enabled(s, step) && s.stored(k).Some?
    ensures Apply(s, step).stored(k).Some? && s.stored(k).value.at <= Apply(s, step).stored(k).value.at
  {
    var m := EachStepIsAMove(s, step, k);
    StoredMove(Only(s, k), m);
    assert Only(Apply(s, step), k).stored == Moved(Only(s, k), m).stored;
  }

  /** What is stored is never overwritten by something older, whoever saved it. */
  lemma {:induction false} StoreOnlyAdvances<V(!new)>(run: seq<State<V>>, i: nat, j: nat, k: Key)
    requires IsRun(run) && i <= j < |run| && run[i].stored(k).Some?
    ensures run[j].stored(k).Some? && run[i].stored(k).value.at <= run[j].stored(k).value.at
  {
    if i < j {
      StoreOnlyAdvances(run, i, j - 1, k);
      InvHolds(run, j - 1, k);
      assert Next(run[j - 1], run[j - 1 + 1]);
      var step :| Enabled(run[j - 1], step) && run[j] == Apply(run[j - 1], step);
      StoreAdvancesNext(run[j - 1], step, k);
    }
  }

  /** A flush's snapshots are current until someone changes the projection; those it has saved are in the store. */
  ghost predicate FlushIsCurrent<V>(s: State<V>, k: Key) {
    s.lock.Flushing? && s.lock.phase.Working? && Rank(k) < |s.lock.phase.taken| ==>
      && (s.waiting(k) == 0 && s.past(k) != [] ==> s.lock.phase.taken[Rank(k)] == s.Current(k))
      && (Rank(k) < s.lock.phase.saved ==> s.stored(k) == Some(s.lock.phase.taken[Rank(k)]))
  }

  lemma FlushIsCurrentNext<V>(s: State<V>, step: Step<V>, k: Key)
    requires Alone(s) && FlushIsCurrent(s, k) && Enabled(s, step)
    ensures FlushIsCurrent(Apply(s, step), k)
  {
    if step.FlushSave? { RankedIs(s.lock.phase.saved, k); }
    if step.FlushSnapshot? { RankedIs(|s.lock.phase.taken|, k); }
  }

  lemma {:induction false} FlushStaysCurrent<V(!new)>(run: seq<State<V>>, i: nat, k: Key)
    requires IsRun(run) && i < |run|
    ensures FlushIsCurrent(run[i], k)
  {
    if i > 0 {
      FlushStaysCurrent(run, i - 1, k);
      InvHolds(run, i - 1, k);
      assert Next(run[i - 1], run[i - 1 + 1]);
      var step :| Enabled(run[i - 1], step) && run[i] == Apply(run[i - 1], step);
      FlushIsCurrentNext(run[i - 1], step, k);
    }
  }

  /** A flush past its last save. */
  predicate FlushDone<V>(s: State<V>) {
    s.lock.Flushing? && s.lock.phase.Working? && s.lock.phase.saved == 4
  }

  /**
   A flush that gets through its saves leaves nothing queued; every projection
   that no mutator has touched meanwhile is stored as it is in memory; and
   what it stored is not overwritten by anything older from then on.
   */
  lemma FlushIsFinal<V(!new)>(run: seq<State<V>>, i: nat, j: nat, k: Key)
    requires IsRun(run) && i <= j < |run| && FlushDone(run[i])
    ensures run[i].queue == [] && run[i].inHand.None? && run[i].past(k) != []
    ensures run[i].waiting(k) == 0 ==> run[i].stored(k) == Some(run[i].Current(k))
    ensures |run[i].lock.phase.taken| == 4
    ensures run[j].stored(k).Some? && run[j].stored(k).value.at >= run[i].lock.phase.taken[Rank(k)].at
  {
    InvHolds(run, i, k);
    FlushStaysCurrent(run, i, k);
    StoreOnlyAdvances(run, i, j, k);
  }
}
