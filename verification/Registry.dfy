/** The registry of native runtimes, addressed by generation-tagged handles. */
module Registry {
  import opened Prelude

  const MAX_GENERATION := 0x7fff_ffff
  const I64_MAX := 0x7fff_ffff_ffff_ffff

  datatype Handle = Handle(slot: nat, generation: nat)

  predicate IsHandle(h: Handle) { 1 <= h.slot < U32 && 1 <= h.generation <= MAX_GENERATION }

  /** The generation goes to the upper 32 bits, the slot to the lower ones. */
  function Encode(h: Handle): (raw: int)
    requires IsHandle(h)
    ensures 0 < raw <= I64_MAX
  {
    h.generation * U32 + h.slot
  }

  function Decode(raw: int): (h: Option<Handle>)
    requires raw <= I64_MAX
    ensures h.Some? ==> IsHandle(h.value)
  {
    if raw <= 0 then None
    else
      var h := Handle(raw % U32, raw / U32);
      if h.slot == 0 || h.generation == 0 then None else Some(h)
  }

  lemma DecodeInverts(h: Handle)
    requires IsHandle(h)
    ensures Decode(Encode(h)) == Some(h)
  {
    assert Encode(h) / U32 == h.generation && Encode(h) % U32 == h.slot;
  }

  lemma EncodeInverts(raw: int)
    requires raw <= I64_MAX && Decode(raw).Some?
    ensures Encode(Decode(raw).value) == raw
  {
  }

  /** Different handles have different encodings. */
  lemma EncodeIsInjective(h: Handle, k: Handle)
    requires IsHandle(h) && IsHandle(k) && Encode(h) == Encode(k)
    ensures h == k
  {
    DecodeInverts(h);
    DecodeInverts(k);
  }

  // ---- the registry ----------------------------------------------------------------------

  datatype Slots<R> = Slots(next: nat, free: seq<nat>, generations: map<nat, nat>, entries: map<nat, (nat, R)>)

  predicate Full(v: Slots) { v.free == [] && v.next == U32 - 1 }

  function SlotFor(v: Slots): nat { if v.free != [] then v.free[|v.free| - 1] else v.next + 1 }

  function GenerationFor(v: Slots): nat {
    var slot := SlotFor(v);
    if slot !in v.generations then 1
    else if v.generations[slot] >= MAX_GENERATION then 1 else v.generations[slot] + 1
  }

  function Inserted<R>(v: Slots<R>, runtime: R): Slots<R>
    requires !Full(v)
  {
    var slot, generation := SlotFor(v), GenerationFor(v);
    v.(next := if v.free != [] then v.next else v.next + 1,
       free := if v.free != [] then v.free[..|v.free| - 1] else v.free,
       generations := v.generations[slot := generation],
       entries := v.entries[slot := (generation, runtime)])
  }

  /** Whether a handle names a live entry. */
  predicate Resolves(v: Slots, h: Handle) { h.slot in v.entries && v.entries[h.slot].0 == h.generation }

  function Removed<R>(v: Slots<R>, h: Handle): Slots<R> {
    if Resolves(v, h) then v.(entries := v.entries - {h.slot}, free := v.free + [h.slot]) else v
  }

  /** The slots given out so far have a generation, the live ones the same as their entry. */
  ghost predicate Tagged(v: Slots) {
    && v.next < U32
    && (forall slot :: slot in v.generations <==> 1 <= slot <= v.next)
    && (forall slot <- v.generations :: 1 <= v.generations[slot] <= MAX_GENERATION)
    && (forall slot <- v.entries :: slot in v.generations && v.entries[slot].0 == v.generations[slot])
  }

  /** Free slots are distinct and not live; every slot given out so far is one or the other. */
  ghost predicate Split(v: Slots) {
    && Distinct(v.free)
    && (forall slot <- v.free :: slot in v.generations && slot !in v.entries)
    && (forall slot <- v.generations :: slot in v.free || slot in v.entries)
  }

  ghost predicate Valid(v: Slots) { Tagged(v) && Split(v) }

  lemma InsertKeepsTagged<R>(v: Slots<R>, runtime: R)
    requires Valid(v) && !Full(v)
    ensures Tagged(Inserted(v, runtime)) && SlotFor(v) !in v.entries
    ensures IsHandle(Handle(SlotFor(v), GenerationFor(v)))
  {
    if v.free != [] { assert SlotFor(v) in v.free; }
  }

  lemma InsertKeepsSplit<R>(v: Slots<R>, runtime: R)
    requires Valid(v) && !Full(v)
    ensures Split(Inserted(v, runtime))
  {
    var v', slot := Inserted(v, runtime), SlotFor(v);
    if v.free != [] {
      var n := |v.free| - 1;
      assert v.free == v.free[..n] + [slot];
      assert forall i :: 0 <= i < n ==> v.free[i] != slot;
    }
    assert slot !in v'.free;
    assert forall s <- v.free :: s == slot || s in v'.free;
  }

  lemma InsertKeepsValid<R>(v: Slots<R>, runtime: R)
    requires Valid(v) && !Full(v)
    ensures Valid(Inserted(v, runtime)) && SlotFor(v) !in v.entries
    ensures IsHandle(Handle(SlotFor(v), GenerationFor(v)))
  {
    InsertKeepsTagged(v, runtime);
    InsertKeepsSplit(v, runtime);
  }

  function HandleOf(v: Slots, slot: nat): Handle
    requires slot in v.entries
  {
    Handle(slot, v.entries[slot].0)
  }

  /** Live entries have valid handles, and different ones have different encodings. */
  lemma LiveHandlesDiffer<R>(v: Slots<R>, a: nat, b: nat)
    requires Valid(v) && a in v.entries && b in v.entries
    ensures IsHandle(HandleOf(v, a)) && IsHandle(HandleOf(v, b))
    ensures Encode(HandleOf(v, a)) == Encode(HandleOf(v, b)) <==> a == b
  {
    if Encode(HandleOf(v, a)) == Encode(HandleOf(v, b)) { EncodeIsInjective(HandleOf(v, a), HandleOf(v, b)); }
  }

  lemma RemoveKeepsValid<R>(v: Slots<R>, h: Handle)
    requires Valid(v)
    ensures Valid(Removed(v, h))
  {
    if Resolves(v, h) {
      var v' := Removed(v, h);
      forall s <- v'.generations ensures s in v'.free || s in v'.entries {
        if s != h.slot { assert s in v.free || s in v.entries; }
      }
    }
  }

  class RuntimeRegistry<R> {
    var next: nat
    var free: seq<nat>
    var generations: map<nat, nat>
    var entries: map<nat, (nat, R)>

    function View(): Slots<R>
      reads this
    {
      Slots(next, free, generations, entries)
    }

    constructor ()
      ensures View() == Slots(0, [], map[], map[]) && Valid(View())
    {
      next, free, generations, entries := 0, [], map[], map[];
    }

    /** A full registry is left alone; otherwise no live entry is overwritten and the new handle resolves to the runtime. */
    method Insert(runtime: R) returns (raw: Option<int>)
      requires Valid(View())
      modifies this
      ensures Valid(View())
      ensures raw.None? <==> old(free) == [] && old(next) == 0xffff_ffff
      ensures raw.None? ==> View() == old(View())
      ensures raw.Some? ==>
                && View() == Inserted(old(View()), runtime)
                && var h := Handle(SlotFor(old(View())), GenerationFor(old(View())));
                   && IsHandle(h) && raw.value == Encode(h)
                   && h.slot == (if old(free) != [] then old(free)[|old(free)| - 1] else old(next) + 1)
                   && h.slot !in old(entries) && entries == old(entries)[h.slot := (h.generation, runtime)]
    {
      if free == [] && next + 1 >= U32 { return None; }
      ghost var v := View();
      InsertKeepsValid(v, runtime);
      var slot := TakeSlot();
      var generation := 1;
      if slot in generations { generation := if generations[slot] >= MAX_GENERATION then 1 else generations[slot] + 1; }
      assert generation == GenerationFor(v);
      generations := generations[slot := generation];
      entries := entries[slot := (generation, runtime)];
      assert View() == Inserted(v, runtime);
      return Some(Encode(Handle(slot, generation)));
    }

    /** The slot freed last, or else a new one. */
    method TakeSlot() returns (slot: nat)
      modifies `free, `next
      ensures slot == SlotFor(old(View()))
      ensures free == if old(free) != [] then old(free)[..|old(free)| - 1] else []
      ensures next == if old(free) != [] then old(next) else old(next) + 1
    {
      if free != [] {
        slot := free[|free| - 1];
        free := free[..|free| - 1];
      } else {
        next := next + 1;
        slot := next;
      }
    }

    method Get(raw: int) returns (runtime: Option<R>)
      requires raw <= I64_MAX
      ensures runtime == match Decode(raw)
                         case Some(h) => if Resolves(View(), h) then Some(entries[h.slot].1) else None
                         case None => None
    {
      var handle := Decode(raw);
      if handle.None? || handle.value.slot !in entries { return None; }
      var entry := entries[handle.value.slot];
      if entry.0 != handle.value.generation { return None; }
      return Some(entry.1);
    }

    method Remove(raw: int) returns (runtime: Option<R>)
      requires Valid(View()) && raw <= I64_MAX
      modifies this
      ensures Valid(View())
      ensures match Decode(raw)
              case Some(h) =>
                && View() == Removed(old(View()), h)
                && runtime == (if Resolves(old(View()), h) then Some(old(entries)[h.slot].1) else None)
              case None => View() == old(View()) && runtime.None?
    {
      var handle := Decode(raw);
      if handle.None? || handle.value.slot !in entries { return None; }
      var slot, entry := handle.value.slot, entries[handle.value.slot];
      if entry.0 != handle.value.generation { return None; }
      RemoveKeepsValid(View(), handle.value);
      entries := entries - {slot};
      free := free + [slot];
      return Some(entry.1);
    }
  }

  // ---- histories ---------------------------------------------------------------------------

  /** A registry with the number of times each slot has been allocated. */
  datatype State<R> = State(slots: Slots<R>, counts: map<nat, nat>) {
    function Count(slot: nat): nat { if slot in counts then counts[slot] else 0 }
  }

  datatype Step<R> = Insert(runtime: R) | Remove(h: Handle)

  function Apply<R>(s: State<R>, step: Step<R>): State<R> {
    match step
    case Insert(runtime) =>
      if Full(s.slots) then s
      else
        var slot := SlotFor(s.slots);
        State(Inserted(s.slots, runtime), s.counts[slot := s.Count(slot) + 1])
    case Remove(h) => s.(slots := Removed(s.slots, h))
  }

  ghost predicate IsRun<R(!new)>(run: seq<State<R>>, steps: seq<Step<R>>) {
    && |run| == |steps| + 1
    && run[0] == State(Slots(0, [], map[], map[]), map[])
    && forall i :: 0 <= i < |steps| ==> run[i + 1] == Apply(run[i], steps[i])
  }

  /** The generation of a slot after `n` allocations. */
  function GenerationAfter(n: nat): (g: nat)
    requires n > 0
    ensures 1 <= g <= MAX_GENERATION
  {
    (n - 1) % MAX_GENERATION + 1
  }

  ghost predicate Counted(s: State) {
    && (forall slot :: slot in s.counts <==> slot in s.slots.generations)
    && (forall slot <- s.counts :: s.counts[slot] > 0 && s.slots.generations[slot] == GenerationAfter(s.counts[slot]))
  }

  lemma NextGeneration(n: nat)
    requires n > 0
    ensures GenerationAfter(n + 1) == if GenerationAfter(n) >= MAX_GENERATION then 1 else GenerationAfter(n) + 1
  {
  }

  lemma CountedNext<R>(s: State<R>, step: Step<R>)
    requires Valid(s.slots) && Counted(s)
    ensures Valid(Apply(s, step).slots) && Counted(Apply(s, step))
  {
    match step {
      case Insert(runtime) =>
        if !Full(s.slots) {
          var slot := SlotFor(s.slots);
          InsertKeepsValid(s.slots, runtime);
          if slot in s.counts { NextGeneration(s.counts[slot]); }
        }
      case Remove(h) => RemoveKeepsValid(s.slots, h);
    }
  }

  lemma {:induction false} InvHolds<R(!new)>(run: seq<State<R>>, steps: seq<Step<R>>, i: nat)
    requires IsRun(run, steps) && i < |run|
    ensures Valid(run[i].slots) && Counted(run[i])
  {
    if i > 0 {
      InvHolds(run, steps, i - 1);
      assert run[i - 1 + 1] == Apply(run[i - 1], steps[i - 1]);
      CountedNext(run[i - 1], steps[i - 1]);
    }
  }

  /** Allocation counts only grow, and a slot that is not live must be allocated before it is live again. */
  lemma {:induction false} CountsGrow<R(!new)>(run: seq<State<R>>, steps: seq<Step<R>>, i: nat, j: nat, slot: nat)
    requires IsRun(run, steps) && i <= j < |run|
    ensures run[i].Count(slot) <= run[j].Count(slot)
    ensures slot !in run[i].slots.entries && slot in run[j].slots.entries ==> run[i].Count(slot) < run[j].Count(slot)
  {
    if i < j {
      CountsGrow(run, steps, i, j - 1, slot);
      assert run[j - 1 + 1] == Apply(run[j - 1], steps[j - 1]);
    }
  }

  lemma SameGeneration(m: nat, n: nat)
    requires 0 < m <= n && GenerationAfter(m) == GenerationAfter(n)
    ensures (n - m) % MAX_GENERATION == 0
  {
    var a, b := (m - 1) / MAX_GENERATION, (n - 1) / MAX_GENERATION;
    assert n - m == (b - a) * MAX_GENERATION;
  }

  /**
   A handle that resolved, stopped resolving and resolves again does so only
   after its slot has been allocated a positive multiple of 2^31 - 1 times.
   */
  lemma StaleHandlesStayStale<R(!new)>(run: seq<State<R>>, steps: seq<Step<R>>, i: nat, k: nat, j: nat, h: Handle)
    requires IsRun(run, steps) && i <= k <= j < |run|
    requires Resolves(run[i].slots, h) && !Resolves(run[k].slots, h) && Resolves(run[j].slots, h)
    ensures var again := run[j].Count(h.slot) - run[i].Count(h.slot); again > 0 && again % MAX_GENERATION == 0
  {
    InvHolds(run, steps, i);
    InvHolds(run, steps, k);
    InvHolds(run, steps, j);
    CountsGrow(run, steps, i, k, h.slot);
    CountsGrow(run, steps, k, j, h.slot);
    if h.slot in run[k].slots.entries {
      assert run[k].Count(h.slot) != run[i].Count(h.slot);
    }
    SameGeneration(run[i].Count(h.slot), run[j].Count(h.slot));
  }
}
