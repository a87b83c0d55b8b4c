/**
 Directed graphs of package ids: reverse reachability and the enumeration of
 all simple paths to a target, as the provenance checker runs them.

 Ids are numbers; their order stands for the sort order of the package ids.
 */
module Graphs {
  import opened Prelude

  type Id = nat
  type Graph = map<Id, set<Id>>

  function Next(g: Graph, u: Id): set<Id> {
    if u in g then g[u] else {}
  }

  /** A walk follows edges and may repeat nodes. */
  ghost predicate IsWalk(g: Graph, w: seq<Id>) {
    w != [] && forall i :: 0 <= i < |w| - 1 ==> w[i + 1] in Next(g, w[i])
  }

  ghost predicate IsWalkBetween(g: Graph, w: seq<Id>, from: Id, to: Id) {
    IsWalk(g, w) && w[0] == from && w[|w| - 1] == to
  }

  ghost predicate Reaches(g: Graph, from: Id, to: Id) {
    exists w :: IsWalkBetween(g, w, from, to)
  }

  /** A simple path is a walk without repetition. */
  ghost predicate IsSimplePath(g: Graph, p: seq<Id>, from: Id, to: Id) {
    IsWalkBetween(g, p, from, to) && Distinct(p)
  }

  /** The two adjacency maps describe the same edges. */
  ghost predicate Mirror(g: Graph, reverse: Graph) {
    forall u, v :: v in Next(g, u) <==> u in Next(reverse, v)
  }

  // ---- walks -----------------------------------------------------------------------

  lemma WalkPart(g: Graph, w: seq<Id>, i: nat, j: nat)
    requires IsWalk(g, w) && i < j <= |w|
    ensures IsWalk(g, w[i..j])
  {
    forall k | 0 <= k < |w[i..j]| - 1 ensures w[i..j][k + 1] in Next(g, w[i..j][k]) {
      assert w[i + k + 1] in Next(g, w[i + k]);
    }
  }

  lemma WalkJoin(g: Graph, a: seq<Id>, b: seq<Id>)
    requires IsWalk(g, a) && IsWalk(g, b) && b[0] in Next(g, a[|a| - 1])
    ensures IsWalk(g, a + b)
  {
    var w := a + b;
    forall i | 0 <= i < |w| - 1 ensures w[i + 1] in Next(g, w[i]) {
      if i < |a| - 1 { assert a[i + 1] in Next(g, a[i]); }
      else if i >= |a| { assert b[i - |a| + 1] in Next(g, b[i - |a|]); }
    }
  }

  lemma WalkExtend(g: Graph, w: seq<Id>, v: Id)
    requires IsWalk(g, w) && v in Next(g, w[|w| - 1])
    ensures IsWalk(g, w + [v])
  {
    WalkJoin(g, w, [v]);
  }

  /** Every walk contains a simple path with the same ends. */
  lemma {:induction false} Shortcut(g: Graph, w: seq<Id>, from: Id, to: Id) returns (p: seq<Id>)
    requires IsWalkBetween(g, w, from, to)
    ensures IsSimplePath(g, p, from, to) && forall v <- p :: v in w
    decreases |w|
  {
    if Distinct(w) {
      p := w;
    } else {
      var i, j :| 0 <= i < j < |w| && w[i] == w[j];
      var a := w[..i + 1];
      assert a == w[0..i + 1];
      WalkPart(g, w, 0, i + 1);
      var shorter := a;
      if j + 1 < |w| {
        var b := w[j + 1..];
        assert b == w[j + 1..|w|];
        WalkPart(g, w, j + 1, |w|);
        assert w[j + 1] in Next(g, w[j]);
        WalkJoin(g, a, b);
        shorter := a + b;
      }
      p := Shortcut(g, shorter, from, to);
    }
  }

  ghost function Reversed(w: seq<Id>): seq<Id> {
    seq(|w|, i requires 0 <= i < |w| => w[|w| - 1 - i])
  }

  lemma WalkReversed(g: Graph, reverse: Graph, w: seq<Id>, from: Id, to: Id)
    requires Mirror(g, reverse) && IsWalkBetween(g, w, from, to)
    ensures IsWalkBetween(reverse, Reversed(w), to, from)
  {
    var r := Reversed(w);
    forall i | 0 <= i < |r| - 1 ensures r[i + 1] in Next(reverse, r[i]) {
      var k := |w| - 2 - i;
      assert w[k + 1] in Next(g, w[k]);
    }
  }

  lemma ReachesReversed(g: Graph, reverse: Graph, from: Id, to: Id)
    requires Mirror(g, reverse)
    ensures Reaches(g, from, to) <==> Reaches(reverse, to, from)
  {
    if Reaches(g, from, to) {
      var w :| IsWalkBetween(g, w, from, to);
      WalkReversed(g, reverse, w, from, to);
    }
    if Reaches(reverse, to, from) {
      var w :| IsWalkBetween(reverse, w, to, from);
      WalkReversed(reverse, g, w, to, from);
    }
  }

  // ---- reverse reachability ----------------------------------------------------------

  /** Everything an edge of `g` leads to. */
  function Targets(g: Graph): set<Id> {
    set u, v | u in g && v in g[u] :: v
  }

  /** A closed set that contains the start of a walk contains the walk. */
  lemma {:induction false} ClosedContains(g: Graph, s: set<Id>, w: seq<Id>)
    requires IsWalk(g, w) && w[0] in s && forall u <- s :: Next(g, u) <= s
    ensures w[|w| - 1] in s
    decreases |w|
  {
    if |w| > 1 {
      var shorter := w[0..|w| - 1];
      WalkPart(g, w, 0, |w| - 1);
      ClosedContains(g, s, shorter);
      assert w[|w| - 2 + 1] in Next(g, w[|w| - 2]);
    }
  }

  /** Adds the unseen parents of one node to both collections. */
  method PushParents(parents: set<Id>, ancestors0: set<Id>, stack0: seq<Id>)
    returns (ancestors: set<Id>, stack: seq<Id>)
    ensures ancestors == ancestors0 + parents
    ensures |stack0| <= |stack| && stack[..|stack0|] == stack0
    ensures forall v :: v in stack[|stack0|..] <==> v in parents - ancestors0
    ensures ancestors == ancestors0 ==> stack == stack0
  {
    ancestors, stack := ancestors0, stack0;
    var remaining := parents;
    while remaining != {}
      invariant remaining <= parents
      invariant ancestors == ancestors0 + (parents - remaining)
      invariant |stack0| <= |stack| && stack[..|stack0|] == stack0
      invariant forall v :: v in stack[|stack0|..] <==> v in parents - remaining - ancestors0
      invariant ancestors == ancestors0 ==> stack == stack0
      decreases remaining
    {
      var parent :| parent in remaining;
      remaining := remaining - {parent};
      if parent !in ancestors {
        ancestors := ancestors + {parent};
        assert (stack + [parent])[|stack0|..] == stack[|stack0|..] + [parent];
        stack := stack + [parent];
      }
    }
  }

  /** Every ancestor found is one, and all of its parents are found unless it is still on the stack. */
  ghost predicate Searching(reverse: Graph, target: Id, ancestors: set<Id>, stack: seq<Id>) {
    && target in ancestors
    && (forall v <- stack :: v in ancestors)
    && (forall v <- ancestors :: Reaches(reverse, target, v))
    && (forall v <- ancestors :: v in stack || Next(reverse, v) <= ancestors)
  }

  lemma SearchStep(reverse: Graph, target: Id, before: set<Id>, rest: seq<Id>, current: Id, newcomers: seq<Id>)
    requires Searching(reverse, target, before, rest + [current])
    requires forall v :: v in newcomers <==> v in Next(reverse, current) - before
    ensures Searching(reverse, target, before + Next(reverse, current), rest + newcomers)
  {
    assert current in rest + [current];
    forall v | v in Next(reverse, current) ensures Reaches(reverse, target, v) {
      ReachesOnward(reverse, target, current, v);
    }
    forall v | v in before && v !in rest && v != current ensures Next(reverse, v) <= before {
      assert v !in rest + [current];
    }
  }

  /** One round of the search: it finds a new ancestor or shortens the stack. */
  method SearchRound(reverse: Graph, target: Id, ancestors0: set<Id>, stack0: seq<Id>)
    returns (ancestors: set<Id>, stack: seq<Id>)
    requires stack0 != [] && Searching(reverse, target, ancestors0, stack0)
    ensures Searching(reverse, target, ancestors, stack)
    ensures ancestors0 <= ancestors <= ancestors0 + Targets(reverse)
    ensures ancestors == ancestors0 ==> |stack| < |stack0|
  {
    var current, rest := stack0[|stack0| - 1], stack0[..|stack0| - 1];
    ancestors, stack := PushParents(Next(reverse, current), ancestors0, rest);
    assert stack0 == rest + [current] && stack == rest + stack[|rest|..];
    SearchStep(reverse, target, ancestors0, rest, current, stack[|rest|..]);
    assert Next(reverse, current) <= Targets(reverse);
  }

  /** `ancestors_of` computes exactly reverse reachability. */
  method AncestorsOf(target: Id, reverse: Graph) returns (ancestors: set<Id>)
    ensures forall v :: v in ancestors <==> Reaches(reverse, target, v)
  {
    ancestors := {target};
    var stack := [target];
    assert IsWalkBetween(reverse, [target], target, target);
    ghost var universe := Targets(reverse) + {target};
    while stack != []
      invariant Searching(reverse, target, ancestors, stack) && ancestors <= universe
      decreases |universe - ancestors|, |stack|
    {
      ghost var before := ancestors;
      ancestors, stack := SearchRound(reverse, target, ancestors, stack);
      if ancestors != before { RemainderShrinks(universe, before, ancestors); }
    }
    SearchDone(reverse, target, ancestors);
  }

  lemma RemainderShrinks(universe: set<Id>, before: set<Id>, after: set<Id>)
    requires before < after <= universe
    ensures |universe - after| < |universe - before|
  {
    assert exists v :: v in after && v !in before;
    SubsetIsSmaller(universe - after, universe - before);
  }

  lemma SearchDone(reverse: Graph, target: Id, ancestors: set<Id>)
    requires Searching(reverse, target, ancestors, [])
    ensures forall v :: v in ancestors <==> Reaches(reverse, target, v)
  {
    forall v | Reaches(reverse, target, v) ensures v in ancestors {
      var w :| IsWalkBetween(reverse, w, target, v);
      ClosedContains(reverse, ancestors, w);
    }
  }

  lemma ReachesOnward(g: Graph, from: Id, mid: Id, to: Id)
    requires Reaches(g, from, mid) && to in Next(g, mid)
    ensures Reaches(g, from, to)
  {
    var w :| IsWalkBetween(g, w, from, mid);
    WalkExtend(g, w, to);
    assert IsWalkBetween(g, w + [to], from, to);
  }

  lemma SubsetIsSmaller(a: set<Id>, b: set<Id>)
    requires a < b
    ensures |a| < |b|
  {
    assert exists v :: v in b && v !in a;
    var v :| v in b && v !in a;
    assert a <= b - {v};
    SubsetSize(a, b - {v});
  }

  // ---- simple paths ------------------------------------------------------------------

  predicate IsLeast(s: set<Id>, m: Id) { m in s && forall v <- s :: m <= v }

  /** The members of a set in increasing order. */
  function Sorted(s: set<Id>): (r: seq<Id>)
    ensures forall v :: v in r <==> v in s
    ensures Distinct(r)
    decreases |s|
  {
    if s == {} then []
    else
      LeastExists(s);
      var least :| least in s && IsLeast(s, least);
      var rest := Sorted(s - {least});
      assert forall i :: 0 <= i < |rest| ==> rest[i] in rest;
      [least] + rest
  }

  lemma {:induction false} LeastExists(s: set<Id>)
    requires s != {}
    ensures exists least :: least in s && IsLeast(s, least)
    decreases |s|
  {
    var x :| x in s;
    if s == {x} {
      assert IsLeast(s, x);
    } else {
      LeastExists(s - {x});
      var least :| least in s - {x} && IsLeast(s - {x}, least);
      assert forall v <- s :: v == x || v in s - {x};
      if x < least { assert IsLeast(s, x); } else { assert IsLeast(s, least); }
    }
  }

  function Nodes(p: seq<Id>): set<Id> { set v | v in p }

  /** The children that may extend `p`: they can reach the target and are not on the path. */
  function Eligible(p: seq<Id>, children: seq<Id>, can: set<Id>): seq<Id> {
    if children == [] then []
    else
      var last := children[|children| - 1];
      Eligible(p, children[..|children| - 1], can) + if last in can && last !in p then [last] else []
  }

  lemma {:induction false} EligibleMembers(p: seq<Id>, children: seq<Id>, can: set<Id>)
    ensures forall v :: v in Eligible(p, children, can) <==> v in children && v in can && v !in p
    ensures Distinct(children) ==> Distinct(Eligible(p, children, can))
  {
    if children != [] {
      var n := |children| - 1;
      EligibleMembers(p, children[..n], can);
      assert children == children[..n] + [children[n]];
      var front := Eligible(p, children[..n], can);
      assert forall i :: 0 <= i < |front| ==> front[i] in front;
    }
  }

  /** The kids of a path, in increasing order. */
  function Kids(g: Graph, can: set<Id>, p: seq<Id>): (kids: seq<Id>)
    requires p != []
    ensures forall v :: v in kids <==> v in Next(g, p[|p| - 1]) && v in can && v !in p
    ensures Distinct(kids)
  {
    EligibleMembers(p, Sorted(Next(g, p[|p| - 1])), can);
    Eligible(p, Sorted(Next(g, p[|p| - 1])), can)
  }

  lemma KidShrinks(can: set<Id>, p: seq<Id>, v: Id)
    requires v in can && v !in p
    ensures |can - Nodes(p + [v])| < |can - Nodes(p)|
  {
    assert Nodes(p + [v]) == Nodes(p) + {v};
    assert v in can - Nodes(p) && v !in can - Nodes(p + [v]);
    SubsetIsSmaller(can - Nodes(p + [v]), can - Nodes(p));
  }

  /** Every path that the search visits from `p` on, in the order it visits them. */
  function Visits(g: Graph, can: set<Id>, target: Id, p: seq<Id>): seq<seq<Id>>
    decreases |can - Nodes(p)|, 0, 1
  {
    if p == [] || p[|p| - 1] == target then [p] else [p] + VisitsOver(g, can, target, p, Kids(g, can, p))
  }

  /** The last kid is popped first. */
  function VisitsOver(g: Graph, can: set<Id>, target: Id, p: seq<Id>, kids: seq<Id>): seq<seq<Id>>
    requires p != [] && forall v <- kids :: v in can && v !in p
    decreases |can - Nodes(p)|, 0, 0, |kids|
  {
    if kids == [] then []
    else
      var kid := kids[|kids| - 1];
      KidShrinks(can, p, kid);
      Visits(g, can, target, p + [kid]) + VisitsOver(g, can, target, p, kids[..|kids| - 1])
  }

  /** What is still to be visited: the stack, top first. */
  function Pending(g: Graph, can: set<Id>, target: Id, stack: seq<seq<Id>>): seq<seq<Id>> {
    if stack == [] then []
    else Visits(g, can, target, stack[|stack| - 1]) + Pending(g, can, target, stack[..|stack| - 1])
  }

  predicate EndsAt(p: seq<Id>, target: Id) { p != [] && p[|p| - 1] == target }

  /** The visited paths that end at the target, in order. */
  function Arrived(target: Id, visits: seq<seq<Id>>): seq<seq<Id>> {
    if visits == [] then []
    else
      var last := visits[|visits| - 1];
      Arrived(target, visits[..|visits| - 1]) + if EndsAt(last, target) then [last] else []
  }

  /** All paths the search returns, if it is not cut short. */
  function AllPaths(g: Graph, can: set<Id>, start: Id, target: Id): seq<seq<Id>> {
    Arrived(target, Visits(g, can, target, [start]))
  }

  lemma {:induction false} ArrivedConcat(target: Id, a: seq<seq<Id>>, b: seq<seq<Id>>)
    ensures Arrived(target, a + b) == Arrived(target, a) + Arrived(target, b)
  {
    if b == [] {
      assert a + b == a;
    } else {
      assert (a + b)[..|a + b| - 1] == a + b[..|b| - 1];
      ArrivedConcat(target, a, b[..|b| - 1]);
    }
  }

  lemma ArrivedOne(target: Id, p: seq<Id>)
    ensures Arrived(target, [p]) == if EndsAt(p, target) then [p] else []
  {
    var one := [p];
    assert one[..0] + one == one && |one[..0]| == 0;
  }

  lemma {:induction false} ArrivedMember(target: Id, visits: seq<seq<Id>>, p: seq<Id>)
    ensures p in Arrived(target, visits) <==> p in visits && EndsAt(p, target)
  {
    if visits != [] {
      var n := |visits| - 1;
      assert visits == visits[..n] + [visits[n]];
      ArrivedMember(target, visits[..n], p);
    }
  }

  lemma {:induction false} ArrivedDistinct(target: Id, visits: seq<seq<Id>>)
    requires Distinct(visits)
    ensures Distinct(Arrived(target, visits))
  {
    if visits != [] {
      var n := |visits| - 1;
      ArrivedDistinct(target, visits[..n]);
      var front := Arrived(target, visits[..n]);
      forall i | 0 <= i < |front| ensures front[i] != visits[n] {
        ArrivedMember(target, visits[..n], front[i]);
        assert front[i] in front;
        assert forall k :: 0 <= k < n ==> visits[k] != visits[n];
      }
    }
  }

  // ---- what the search visits --------------------------------------------------------

  /** `p` extends `q` one edge at a time, inside `can`, without repetition and not past the target. */
  ghost predicate Extends(g: Graph, can: set<Id>, target: Id, q: seq<Id>, p: seq<Id>) {
    && |q| <= |p| && p[..|q|] == q
    && forall i :: |q| <= i < |p| ==> Hop(g, can, target, p, i)
  }

  ghost predicate Hop(g: Graph, can: set<Id>, target: Id, p: seq<Id>, i: nat)
    requires i < |p|
  {
    i > 0 && p[i] in Next(g, p[i - 1]) && p[i] in can && p[i] !in p[..i] && p[i - 1] != target
  }

  lemma ExtendsByKid(g: Graph, can: set<Id>, target: Id, q: seq<Id>, p: seq<Id>)
    requires q != [] && |q| < |p| && Extends(g, can, target, q, p)
    ensures q[|q| - 1] != target && p[|q|] in Kids(g, can, q)
    ensures Extends(g, can, target, q + [p[|q|]], p)
  {
    assert Hop(g, can, target, p, |q|);
    assert p[..|q| + 1] == q + [p[|q|]];
  }

  lemma ExtendsFromKid(g: Graph, can: set<Id>, target: Id, q: seq<Id>, kid: Id, p: seq<Id>)
    requires q != [] && q[|q| - 1] != target && kid in Kids(g, can, q)
    requires Extends(g, can, target, q + [kid], p)
    ensures Extends(g, can, target, q, p) && p[|q|] == kid
  {
    assert p[|q|] == p[..|q| + 1][|q|] == kid;
    assert p[..|q|] == p[..|q| + 1][..|q|] == q;
    assert p[|q| - 1] == p[..|q|][|q| - 1];
    assert Hop(g, can, target, p, |q|);
  }

  /** The search visits exactly the extensions of its starting path. */
  lemma {:induction false} VisitsExtensions(g: Graph, can: set<Id>, target: Id, q: seq<Id>, p: seq<Id>)
    requires q != []
    ensures p in Visits(g, can, target, q) <==> Extends(g, can, target, q, p)
    decreases |can - Nodes(q)|, 0, 1
  {
    assert Extends(g, can, target, q, q);
    if |p| <= |q| {
      if Extends(g, can, target, q, p) { assert p == p[..|q|]; }
    } else if Extends(g, can, target, q, p) {
      ExtendsByKid(g, can, target, q, p);
    }
    if q[|q| - 1] != target {
      var kids := Kids(g, can, q);
      VisitsOverExtensions(g, can, target, q, kids, p);
      if p in VisitsOver(g, can, target, q, kids) { ExtendsFromKid(g, can, target, q, p[|q|], p); }
    }
  }

  lemma {:induction false} VisitsOverExtensions(
    g: Graph, can: set<Id>, target: Id, q: seq<Id>, kids: seq<Id>, p: seq<Id>)
    requires q != [] && forall v <- kids :: v in can && v !in q
    ensures p in VisitsOver(g, can, target, q, kids) <==>
              |q| < |p| && p[|q|] in kids && Extends(g, can, target, q + [p[|q|]], p)
    decreases |can - Nodes(q)|, 0, 0, |kids|
  {
    if kids != [] {
      var n := |kids| - 1;
      var kid, front := kids[n], kids[..n];
      assert kids == front + [kid];
      KidShrinks(can, q, kid);
      VisitsExtensions(g, can, target, q + [kid], p);
      VisitsOverExtensions(g, can, target, q, front, p);
      if Extends(g, can, target, q + [kid], p) { assert p[|q|] == p[..|q| + 1][|q|]; }
    }
  }

  /** It visits each of them once. */
  lemma {:induction false} VisitsDistinct(g: Graph, can: set<Id>, target: Id, q: seq<Id>)
    requires q != []
    ensures Distinct(Visits(g, can, target, q))
    decreases |can - Nodes(q)|, 0, 1
  {
    if q[|q| - 1] != target {
      var kids := Kids(g, can, q);
      VisitsOverDistinct(g, can, target, q, kids);
      var over := VisitsOver(g, can, target, q, kids);
      forall i | 0 <= i < |over| ensures over[i] != q { VisitsOverExtensions(g, can, target, q, kids, over[i]); }
    }
  }

  lemma {:induction false} VisitsOverDistinct(g: Graph, can: set<Id>, target: Id, q: seq<Id>, kids: seq<Id>)
    requires q != [] && Distinct(kids) && forall v <- kids :: v in can && v !in q
    ensures Distinct(VisitsOver(g, can, target, q, kids))
    decreases |can - Nodes(q)|, 0, 0, |kids|
  {
    if kids != [] {
      var n := |kids| - 1;
      var kid, front := kids[n], kids[..n];
      KidShrinks(can, q, kid);
      VisitsDistinct(g, can, target, q + [kid]);
      VisitsOverDistinct(g, can, target, q, front);
      var a, b := Visits(g, can, target, q + [kid]), VisitsOver(g, can, target, q, front);
      forall i, j | 0 <= i < |a| && 0 <= j < |b| ensures a[i] != b[j] {
        KidsAreApart(g, can, target, q, kid, front, a[i], b[j]);
      }
      DistinctConcat(a, b);
    }
  }

  lemma KidsAreApart(
    g: Graph, can: set<Id>, target: Id, q: seq<Id>, kid: Id, others: seq<Id>, x: seq<Id>, y: seq<Id>)
    requires q != [] && kid !in others && forall v <- others :: v in can && v !in q
    requires x in Visits(g, can, target, q + [kid]) && y in VisitsOver(g, can, target, q, others)
    ensures x != y
  {
    VisitsExtensions(g, can, target, q + [kid], x);
    VisitsOverExtensions(g, can, target, q, others, y);
    assert x[|q|] == x[..|q| + 1][|q|];
  }

  lemma DistinctConcat<T>(a: seq<T>, b: seq<T>)
    requires Distinct(a) && Distinct(b) && forall i, j :: 0 <= i < |a| && 0 <= j < |b| ==> a[i] != b[j]
    ensures Distinct(a + b)
  {
  }

  /** With `can` the nodes that reach the target, those are exactly the simple paths to it. */
  lemma AllPathsAreSimple(g: Graph, can: set<Id>, start: Id, target: Id)
    requires forall v :: v in can <==> Reaches(g, v, target)
    ensures forall p :: p in AllPaths(g, can, start, target) <==> IsSimplePath(g, p, start, target)
    ensures Distinct(AllPaths(g, can, start, target))
  {
    VisitsDistinct(g, can, target, [start]);
    ArrivedDistinct(target, Visits(g, can, target, [start]));
    forall p ensures p in AllPaths(g, can, start, target) <==> IsSimplePath(g, p, start, target) {
      ArrivedMember(target, Visits(g, can, target, [start]), p);
      VisitsExtensions(g, can, target, [start], p);
      if IsSimplePath(g, p, start, target) {
        SimplePathExtends(g, can, start, target, p);
      } else if Extends(g, can, target, [start], p) && EndsAt(p, target) {
        ExtensionIsSimple(g, can, start, target, p);
      }
    }
  }

  lemma SimplePathExtends(g: Graph, can: set<Id>, start: Id, target: Id, p: seq<Id>)
    requires IsSimplePath(g, p, start, target) && forall v :: v in can <==> Reaches(g, v, target)
    ensures Extends(g, can, target, [start], p)
  {
    forall i | 1 <= i < |p| ensures Hop(g, can, target, p, i) {
      assert p[i - 1 + 1] in Next(g, p[i - 1]);
      WalkPart(g, p, i, |p|);
      assert IsWalkBetween(g, p[i..|p|], p[i], target);
      assert forall k :: 0 <= k < i ==> p[..i][k] == p[k];
    }
  }

  lemma ExtensionIsSimple(g: Graph, can: set<Id>, start: Id, target: Id, p: seq<Id>)
    requires Extends(g, can, target, [start], p) && EndsAt(p, target)
    ensures IsSimplePath(g, p, start, target)
  {
    assert p[0] == p[..1][0];
    forall i | 0 <= i < |p| - 1 ensures p[i + 1] in Next(g, p[i]) { assert Hop(g, can, target, p, i + 1); }
    forall i, j | 0 <= i < j < |p| ensures p[i] != p[j] {
      assert Hop(g, can, target, p, j);
      assert p[..j][i] == p[i];
    }
  }

  // ---- the search --------------------------------------------------------------------

  const MAX_PATHS := 256

  function Extended(p: seq<Id>, kids: seq<Id>): seq<seq<Id>> {
    if kids == [] then [] else Extended(p, kids[..|kids| - 1]) + [p + [kids[|kids| - 1]]]
  }

  ghost predicate NonEmpty(stack: seq<seq<Id>>) {
    forall i :: 0 <= i < |stack| ==> stack[i] != []
  }

  /** One extended path per eligible child, in the order in which they are pushed. */
  method Extensions(p: seq<Id>, children: seq<Id>, can: set<Id>) returns (pushed: seq<seq<Id>>)
    ensures pushed == Extended(p, Eligible(p, children, can)) && NonEmpty(pushed)
  {
    pushed := [];
    var i := 0;
    while i < |children|
      invariant 0 <= i <= |children|
      invariant pushed == Extended(p, Eligible(p, children[..i], can)) && NonEmpty(pushed)
    {
      ExtendedStep(p, children, i, can);
      if children[i] in can && children[i] !in p {
        pushed := pushed + [p + [children[i]]];
      }
      i := i + 1;
    }
    assert children[..i] == children;
  }

  lemma ExtendedStep(p: seq<Id>, children: seq<Id>, i: nat, can: set<Id>)
    requires i < |children|
    ensures Extended(p, Eligible(p, children[..i + 1], can)) == Extended(p, Eligible(p, children[..i], can)) +
            if children[i] in can && children[i] !in p then [p + [children[i]]] else []
  {
    var child, e := children[i], Eligible(p, children[..i], can);
    assert children[..i + 1][..i] == children[..i];
    if child in can && child !in p {
      assert (e + [child])[..|e|] == e;
    } else {
      assert e + [] == e;
    }
  }

  /** What pushing the kids adds to the pending visits. */
  lemma {:induction false} PendingKids(g: Graph, can: set<Id>, target: Id, stack: seq<seq<Id>>, p: seq<Id>, kids: seq<Id>)
    requires p != [] && forall v <- kids :: v in can && v !in p
    ensures Pending(g, can, target, stack + Extended(p, kids))
         == VisitsOver(g, can, target, p, kids) + Pending(g, can, target, stack)
  {
    if kids == [] {
      assert stack + Extended(p, kids) == stack;
    } else {
      var n := |kids| - 1;
      var top := p + [kids[n]];
      var below := stack + Extended(p, kids[..n]);
      assert stack + Extended(p, kids) == below + [top];
      PendingTop(g, can, target, below, top);
      PendingKids(g, can, target, stack, p, kids[..n]);
      var a, b, c := Visits(g, can, target, top), VisitsOver(g, can, target, p, kids[..n]), Pending(g, can, target, stack);
      assert a + (b + c) == a + b + c;
    }
  }

  /** A path that has not arrived is visited, then everything its kids lead to. */
  lemma PopVisits(g: Graph, can: set<Id>, target: Id, stack: seq<seq<Id>>, p: seq<Id>)
    requires p != [] && p[|p| - 1] != target
    ensures Pending(g, can, target, stack + [p])
         == [p] + Pending(g, can, target, stack + Extended(p, Kids(g, can, p)))
  {
    var kids, c := Kids(g, can, p), Pending(g, can, target, stack);
    PendingTop(g, can, target, stack, p);
    PendingKids(g, can, target, stack, p, kids);
    Associate([p], VisitsOver(g, can, target, p, kids), c);
  }

  lemma PendingTop(g: Graph, can: set<Id>, target: Id, stack: seq<seq<Id>>, p: seq<Id>)
    ensures Pending(g, can, target, stack + [p]) == Visits(g, can, target, p) + Pending(g, can, target, stack)
  {
    assert (stack + [p])[..|stack|] == stack;
  }

  /** Pops the top path and, unless it has arrived, pushes its extensions. */
  method VisitTop(g: Graph, can: set<Id>, target: Id, stack0: seq<seq<Id>>) returns (path: seq<Id>, stack: seq<seq<Id>>)
    requires stack0 != [] && NonEmpty(stack0)
    ensures NonEmpty(stack) && path != []
    ensures Pending(g, can, target, stack0) == [path] + Pending(g, can, target, stack)
  {
    var rest := stack0[..|stack0| - 1];
    path := stack0[|stack0| - 1];
    assert stack0 == rest + [path];
    if path[|path| - 1] == target {
      PendingTop(g, can, target, rest, path);
      stack := rest;
    } else {
      PopVisits(g, can, target, rest, path);
      var pushed := Extensions(path, Sorted(Next(g, path[|path| - 1])), can);
      stack := rest + pushed;
    }
  }

  /**
   `paths_to_target`: all simple paths, unless there are more than 256 of them.
   Each stack entry is a path; its last node is the current one.
   */
  method PathsToTarget(start: Id, target: Id, g: Graph, can: set<Id>) returns (r: Option<seq<seq<Id>>>)
    ensures r == if |AllPaths(g, can, start, target)| > 256 then None else Some(AllPaths(g, can, start, target))
  {
    var paths: seq<seq<Id>> := [];
    var stack: seq<seq<Id>> := [[start]];
    ghost var all := AllPaths(g, can, start, target);
    ghost var pending := Pending(g, can, target, stack);
    PendingOne(g, can, target, [start]);
    assert all == paths + Arrived(target, pending);
    while stack != []
      invariant NonEmpty(stack) && pending == Pending(g, can, target, stack)
      invariant all == paths + Arrived(target, pending)
      invariant |paths| <= MAX_PATHS
      decreases |pending|
    {
      var path;
      path, stack := VisitTop(g, can, target, stack);
      pending := Pending(g, can, target, stack);
      ArrivedStep(target, all, paths, path, pending);
      if path[|path| - 1] == target {
        paths := paths + [path];
        if |paths| > MAX_PATHS { return None; }
      }
    }
    assert all == paths;
    return Some(paths);
  }

  lemma ArrivedStep(target: Id, all: seq<seq<Id>>, paths: seq<seq<Id>>, path: seq<Id>, pending: seq<seq<Id>>)
    requires all == paths + Arrived(target, [path] + pending)
    ensures all == (if EndsAt(path, target) then paths + [path] else paths) + Arrived(target, pending)
  {
    ArrivedConcat(target, [path], pending);
    ArrivedOne(target, path);
  }

  lemma PendingOne(g: Graph, can: set<Id>, target: Id, p: seq<Id>)
    ensures Pending(g, can, target, [p]) == Visits(g, can, target, p)
  {
    var one := [p];
    assert |one[..0]| == 0;
    assert Visits(g, can, target, p) + [] == Visits(g, can, target, p);
  }
}
