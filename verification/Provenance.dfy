/**
 The OpenSSL provenance policy: what the checker concludes from simple paths
 holds of every walk through the resolved dependency graph.
 */
module Provenance {
  import opened Prelude
  import opened Graphs

  const CORE := "mukei-core"
  const RUSQLITE := "rusqlite"
  const SQLITE_SYS := "libsqlite3-sys"
  const OPENSSL_SYS := "openssl-sys"
  const OPENSSL_SRC := "openssl-src"
  const SQLCIPHER := "sqlcipher"
  const VENDORED := "bundled-sqlcipher-vendored-openssl"

  // ---- resolved metadata -------------------------------------------------------------

  /** A dependency kind; an entry that is not an object is ignored. */
  datatype Kind = Dev | NotDev | NotAnObject

  /** `None` stands for an entry that is missing or not a string. */
  datatype Dep = Dep(package: Option<Id>, kinds: seq<Kind>)
  datatype Node = Node(id: Option<Id>, features: set<string>, deps: seq<Dep>)
  datatype Package = Package(id: Option<Id>, name: Option<string>, fromCratesIo: bool)

  datatype Metadata = Metadata(packages: seq<Package>, nodes: Option<seq<Node>>, members: seq<Id>)

  /** A production edge: no kinds listed, or at least one that is not dev. */
  predicate Counts(dep: Dep) { dep.package.Some? && (dep.kinds == [] || NotDev in dep.kinds) }

  function DepIds(deps: seq<Dep>): set<Id> {
    set i | 0 <= i < |deps| && Counts(deps[i]) :: deps[i].package.value
  }

  /** The production dependencies of package `u`, over all of its nodes. */
  function Out(nodes: seq<Node>, u: Id): set<Id> {
    if nodes == [] then {}
    else
      var last := nodes[|nodes| - 1];
      Out(nodes[..|nodes| - 1], u) + if last.id == Some(u) then DepIds(last.deps) else {}
  }

  /** An edge is a dependency of some node of the package that is not for development only. */
  ghost predicate IsEdge(nodes: seq<Node>, u: Id, v: Id, i: nat, j: nat) {
    && i < |nodes| && nodes[i].id == Some(u) && j < |nodes[i].deps| && nodes[i].deps[j].package == Some(v)
    && (nodes[i].deps[j].kinds == [] || NotDev in nodes[i].deps[j].kinds)
  }

  lemma {:induction false} OutMeans(nodes: seq<Node>, u: Id, v: Id)
    ensures v in Out(nodes, u) <==> exists i: nat, j: nat :: IsEdge(nodes, u, v, i, j)
  {
    if nodes != [] {
      var n := |nodes| - 1;
      OutMeans(nodes[..n], u, v);
      if i: nat, j: nat :| IsEdge(nodes[..n], u, v, i, j) { assert IsEdge(nodes, u, v, i, j); }
      if i: nat, j: nat :| IsEdge(nodes, u, v, i, j) {
        if i < n { assert IsEdge(nodes[..n], u, v, i, j); } else { assert Counts(nodes[n].deps[j]); }
      }
      if nodes[n].id == Some(u) && v in DepIds(nodes[n].deps) {
        var j: nat :| j < |nodes[n].deps| && Counts(nodes[n].deps[j]) && nodes[n].deps[j].package.value == v;
        assert IsEdge(nodes, u, v, n, j);
      }
    }
  }

  ghost predicate Represents(g: Graph, nodes: seq<Node>) {
    forall u :: Next(g, u) == Out(nodes, u)
  }

  predicate WellFormedPackage(p: Package) { p.id.Some? && p.name.Some? }

  /** The name under which an id is known: the last package entry wins. */
  function NameOf(packages: seq<Package>, id: Id): Option<string> {
    if packages == [] then None
    else if packages[|packages| - 1].id == Some(id) then packages[|packages| - 1].name
    else NameOf(packages[..|packages| - 1], id)
  }

  function FromCratesIo(packages: seq<Package>, id: Id): bool {
    packages != [] &&
    if packages[|packages| - 1].id == Some(id) then packages[|packages| - 1].fromCratesIo
    else FromCratesIo(packages[..|packages| - 1], id)
  }

  function IdsNamed(packages: seq<Package>, name: string): seq<Id> {
    if packages == [] then []
    else
      var last := packages[|packages| - 1];
      IdsNamed(packages[..|packages| - 1], name) +
      if last.name == Some(name) && last.id.Some? then [last.id.value] else []
  }

  lemma {:induction false} NamedIsListed(packages: seq<Package>, id: Id, name: string)
    requires NameOf(packages, id) == Some(name)
    ensures id in IdsNamed(packages, name)
  {
    if packages[|packages| - 1].id != Some(id) { NamedIsListed(packages[..|packages| - 1], id, name); }
  }

  // ---- the production graph ----------------------------------------------------------

  type Features = map<Id, set<string>>

  function Active(features: Features, id: Id): set<string> {
    if id in features then features[id] else {}
  }

  /** The features of package `u`: its last node wins. */
  function FeaturesOf(nodes: seq<Node>, u: Id): set<string> {
    if nodes == [] then {}
    else if nodes[|nodes| - 1].id == Some(u) then nodes[|nodes| - 1].features
    else FeaturesOf(nodes[..|nodes| - 1], u)
  }

  lemma {:induction false} FeaturesMeans(nodes: seq<Node>, u: Id, i: nat)
    requires i < |nodes| && nodes[i].id == Some(u) && forall j :: i < j < |nodes| ==> nodes[j].id != Some(u)
    ensures FeaturesOf(nodes, u) == nodes[i].features
  {
    var n := |nodes| - 1;
    if i < n {
      assert nodes[n].id != Some(u);
      FeaturesMeans(nodes[..n], u, i);
    }
  }

  lemma AddEdgeMirror(g: Graph, reverse: Graph, u: Id, v: Id)
    requires Mirror(g, reverse)
    ensures Mirror(g[u := Next(g, u) + {v}], reverse[v := Next(reverse, v) + {u}])
  {
    var g', reverse' := g[u := Next(g, u) + {v}], reverse[v := Next(reverse, v) + {u}];
    forall x, y ensures y in Next(g', x) <==> x in Next(reverse', y) {
      assert y in Next(g, x) <==> x in Next(reverse, y);
    }
  }

  method AddDeps(u: Id, deps: seq<Dep>, g0: Graph, reverse0: Graph) returns (g: Graph, reverse: Graph)
    requires Mirror(g0, reverse0)
    ensures Mirror(g, reverse)
    ensures forall w :: Next(g, w) == Next(g0, w) + if w == u then DepIds(deps) else {}
  {
    g, reverse := g0, reverse0;
    var i := 0;
    while i < |deps|
      invariant 0 <= i <= |deps|
      invariant Mirror(g, reverse)
      invariant forall w :: Next(g, w) == Next(g0, w) + if w == u then DepIds(deps[..i]) else {}
    {
      assert DepIds(deps[..i + 1]) == DepIds(deps[..i]) + if Counts(deps[i]) then {deps[i].package.value} else {};
      if deps[i].package.Some? && (deps[i].kinds == [] || NotDev in deps[i].kinds) {
        var v := deps[i].package.value;
        AddEdgeMirror(g, reverse, u, v);
        g := g[u := Next(g, u) + {v}];
        reverse := reverse[v := Next(reverse, v) + {u}];
      }
      i := i + 1;
    }
    assert deps[..i] == deps;
  }

  /** `non_dev_graph`: fails exactly on a node without an id; otherwise both maps hold the production edges. */
  method NonDevGraph(nodes: seq<Node>) returns (r: Option<(Graph, Graph, Features)>)
    ensures r.None? <==> exists i :: 0 <= i < |nodes| && nodes[i].id.None?
    ensures r.Some? ==> Represents(r.value.0, nodes) && Mirror(r.value.0, r.value.1)
    ensures r.Some? ==> forall u :: Active(r.value.2, u) == FeaturesOf(nodes, u)
  {
    var g: Graph, reverse: Graph, features: Features := map[], map[], map[];
    var i := 0;
    while i < |nodes|
      invariant 0 <= i <= |nodes|
      invariant Represents(g, nodes[..i]) && Mirror(g, reverse)
      invariant forall u :: Active(features, u) == FeaturesOf(nodes[..i], u)
      invariant forall j :: 0 <= j < i ==> nodes[j].id.Some?
    {
      var node := nodes[i];
      assert nodes[..i + 1][..i] == nodes[..i];
      if node.id.None? { return None; }
      features := features[node.id.value := node.features];
      g, reverse := AddDeps(node.id.value, node.deps, g, reverse);
      i := i + 1;
    }
    assert nodes[..i] == nodes;
    return Some((g, reverse, features));
  }

  // ---- the policy --------------------------------------------------------------------

  datatype Reason =
    | Malformed
    | Forbidden
    | NotSingle(name: string)
    | NotFromRegistry(name: string)
    | FeatureMissing(name: string)
    | WrongParents(name: string)
    | NoVendoredSource
    | TooManyPaths(member: Id)
    | UnknownPackage(path: seq<Id>)
    | AvoidsCore(path: seq<Id>)
    | WrongSuffix(path: seq<Id>)
    | NoCorePath

  datatype Verdict = Approved(paths: seq<seq<Id>>) | Rejected(reason: Reason)

  /** The id of a package that must be resolved exactly once. */
  function Single(packages: seq<Package>, name: string): Id {
    if |IdsNamed(packages, name)| == 1 then IdsNamed(packages, name)[0] else 0
  }

  predicate IsSingle(packages: seq<Package>, name: string) { |IdsNamed(packages, name)| == 1 }

  function SingleProblem(packages: seq<Package>): Option<Reason> {
    if IdsNamed(packages, "openssl") != [] || IdsNamed(packages, "native-tls") != [] then Some(Forbidden)
    else if !IsSingle(packages, CORE) then Some(NotSingle(CORE))
    else if !IsSingle(packages, RUSQLITE) then Some(NotSingle(RUSQLITE))
    else if !IsSingle(packages, SQLITE_SYS) then Some(NotSingle(SQLITE_SYS))
    else if !IsSingle(packages, OPENSSL_SYS) then Some(NotSingle(OPENSSL_SYS))
    else if !IsSingle(packages, OPENSSL_SRC) then Some(NotSingle(OPENSSL_SRC))
    else None
  }

  predicate Registered(packages: seq<Package>, name: string) { FromCratesIo(packages, Single(packages, name)) }

  function SourceProblem(packages: seq<Package>, features: Features): Option<Reason> {
    if !Registered(packages, RUSQLITE) then Some(NotFromRegistry(RUSQLITE))
    else if !Registered(packages, SQLITE_SYS) then Some(NotFromRegistry(SQLITE_SYS))
    else if !Registered(packages, OPENSSL_SYS) then Some(NotFromRegistry(OPENSSL_SYS))
    else if !Registered(packages, OPENSSL_SRC) then Some(NotFromRegistry(OPENSSL_SRC))
    else if SQLCIPHER !in Active(features, Single(packages, CORE)) then Some(FeatureMissing(CORE))
    else if VENDORED !in Active(features, Single(packages, RUSQLITE)) then Some(FeatureMissing(RUSQLITE))
    else None
  }

  function ParentProblem(g: Graph, reverse: Graph, rusqlite: Id, sqliteSys: Id, opensslSys: Id, opensslSrc: Id): Option<Reason> {
    if Next(reverse, opensslSys) != {sqliteSys} then Some(WrongParents(OPENSSL_SYS))
    else if Next(reverse, sqliteSys) != {rusqlite} then Some(WrongParents(SQLITE_SYS))
    else if Next(reverse, opensslSrc) != {opensslSys} then Some(WrongParents(OPENSSL_SRC))
    else if opensslSrc !in Next(g, opensslSys) then Some(NoVendoredSource)
    else None
  }

  /** The checks that come before any path is looked at, in order. */
  function ShapeProblem(packages: seq<Package>, g: Graph, reverse: Graph, features: Features): Option<Reason> {
    var single := SingleProblem(packages);
    if single.Some? then single else
    var source := SourceProblem(packages, features);
    if source.Some? then source else
    ParentProblem(g, reverse, Single(packages, RUSQLITE), Single(packages, SQLITE_SYS),
      Single(packages, OPENSSL_SYS), Single(packages, OPENSSL_SRC))
  }

  // ---- what the checks of shape mean ------------------------------------------------------

  /** Entry `i` is the only one with this name. */
  ghost predicate IsOnly(packages: seq<Package>, name: string, i: nat) {
    && i < |packages| && packages[i].name == Some(name)
    && forall j :: 0 <= j < |packages| && j != i ==> packages[j].name != Some(name)
  }

  /** Exactly one entry has this name, and its id is `id`. */
  ghost predicate OnlyEntry(packages: seq<Package>, name: string, id: Id) {
    exists i: nat :: IsOnly(packages, name, i) && packages[i].id == Some(id)
  }

  /** The entry that counts for an id: the last one with it. */
  ghost predicate LastEntry(packages: seq<Package>, id: Id, i: nat) {
    i < |packages| && packages[i].id == Some(id) && forall j :: i < j < |packages| ==> packages[j].id != Some(id)
  }

  ghost predicate Absent(packages: seq<Package>, name: string) { forall p <- packages :: p.name != Some(name) }

  ghost predicate AllWellFormed(packages: seq<Package>) {
    forall i :: 0 <= i < |packages| ==> WellFormedPackage(packages[i])
  }

  lemma {:induction false} NamedNone(packages: seq<Package>, name: string)
    requires AllWellFormed(packages)
    ensures IdsNamed(packages, name) == [] <==> Absent(packages, name)
  {
    if packages != [] {
      var n := |packages| - 1;
      assert packages == packages[..n] + [packages[n]];
      NamedNone(packages[..n], name);
    }
  }

  lemma {:induction false} OnlyIsListed(packages: seq<Package>, name: string, i: nat)
    requires AllWellFormed(packages) && IsOnly(packages, name, i)
    ensures IdsNamed(packages, name) == [packages[i].id.value]
  {
    var n := |packages| - 1;
    if i < n {
      assert packages[n].name != Some(name);
      OnlyIsListed(packages[..n], name, i);
    } else {
      NamedNone(packages[..n], name);
      assert WellFormedPackage(packages[n]);
    }
  }

  lemma {:induction false} ListedIsOnly(packages: seq<Package>, name: string) returns (i: nat)
    requires AllWellFormed(packages) && |IdsNamed(packages, name)| == 1
    ensures IsOnly(packages, name, i)
  {
    var n := |packages| - 1;
    if packages[n].name == Some(name) {
      NamedNone(packages[..n], name);
      assert WellFormedPackage(packages[n]) && IdsNamed(packages[..n], name) == [];
      assert forall j :: 0 <= j < n ==> packages[j] in packages[..n];
      i := n;
    } else {
      i := ListedIsOnly(packages[..n], name);
      assert forall j :: 0 <= j < n ==> packages[..n][j] == packages[j];
    }
  }

  /** A name is resolved once if and only if exactly one entry has it, and then its id is that entry's. */
  lemma SingleMeans(packages: seq<Package>, name: string, id: Id)
    requires AllWellFormed(packages)
    ensures IsSingle(packages, name) && Single(packages, name) == id <==> OnlyEntry(packages, name, id)
  {
    if IsSingle(packages, name) {
      var i := ListedIsOnly(packages, name);
      OnlyIsListed(packages, name, i);
      assert WellFormedPackage(packages[i]);
    }
    if OnlyEntry(packages, name, id) {
      var i: nat :| IsOnly(packages, name, i) && packages[i].id == Some(id);
      OnlyIsListed(packages, name, i);
    }
  }

  /** A package comes from crates.io if the entry that counts for its id does. */
  ghost predicate FromRegistry(packages: seq<Package>, id: Id) {
    exists i: nat :: LastEntry(packages, id, i) && packages[i].fromCratesIo
  }

  lemma RegistryMeans(packages: seq<Package>, name: string, id: Id)
    requires OnlyEntry(packages, name, id)
    ensures FromCratesIo(packages, id) <==> FromRegistry(packages, id)
  {
    var i: nat :| IsOnly(packages, name, i) && packages[i].id == Some(id);
    var j := EntryExists(packages, id, i);
    EntryCounts(packages, id, j);
    if FromRegistry(packages, id) {
      var k: nat :| LastEntry(packages, id, k) && packages[k].fromCratesIo;
      EntryCounts(packages, id, k);
    }
  }

  /** The five packages of the approved chain. */
  datatype Chain = Chain(core: Id, rusqlite: Id, sqliteSys: Id, opensslSys: Id, opensslSrc: Id)

  /** Each of them is resolved exactly once, and no forbidden package is resolved. */
  ghost predicate Resolved(packages: seq<Package>, c: Chain) {
    && Absent(packages, "openssl") && Absent(packages, "native-tls")
    && OnlyEntry(packages, "mukei-core", c.core) && OnlyEntry(packages, "rusqlite", c.rusqlite)
    && OnlyEntry(packages, "libsqlite3-sys", c.sqliteSys)
    && OnlyEntry(packages, "openssl-sys", c.opensslSys) && OnlyEntry(packages, "openssl-src", c.opensslSrc)
  }

  ghost predicate Sourced(packages: seq<Package>, features: Features, c: Chain) {
    && FromRegistry(packages, c.rusqlite) && FromRegistry(packages, c.sqliteSys)
    && FromRegistry(packages, c.opensslSys) && FromRegistry(packages, c.opensslSrc)
    && "sqlcipher" in Active(features, c.core)
    && "bundled-sqlcipher-vendored-openssl" in Active(features, c.rusqlite)
  }

  ghost predicate Linked(g: Graph, reverse: Graph, c: Chain) {
    && Next(reverse, c.opensslSys) == {c.sqliteSys}
    && Next(reverse, c.sqliteSys) == {c.rusqlite}
    && Next(reverse, c.opensslSrc) == {c.opensslSys}
    && c.opensslSrc in Next(g, c.opensslSys)
  }

  function ChainOf(packages: seq<Package>): Chain {
    Chain(Single(packages, CORE), Single(packages, RUSQLITE), Single(packages, SQLITE_SYS),
          Single(packages, OPENSSL_SYS), Single(packages, OPENSSL_SRC))
  }

  lemma ResolvedMeans(packages: seq<Package>, c: Chain)
    requires AllWellFormed(packages)
    ensures SingleProblem(packages).None? && c == ChainOf(packages) <==> Resolved(packages, c)
  {
    NamedNone(packages, "openssl");
    NamedNone(packages, "native-tls");
    SingleMeans(packages, CORE, c.core);
    SingleMeans(packages, RUSQLITE, c.rusqlite);
    SingleMeans(packages, SQLITE_SYS, c.sqliteSys);
    SingleMeans(packages, OPENSSL_SYS, c.opensslSys);
    SingleMeans(packages, OPENSSL_SRC, c.opensslSrc);
  }

  lemma SourcedMeans(packages: seq<Package>, features: Features, c: Chain)
    requires Resolved(packages, c) && c == ChainOf(packages)
    ensures SourceProblem(packages, features).None? <==> Sourced(packages, features, c)
  {
    RegistryMeans(packages, RUSQLITE, c.rusqlite);
    RegistryMeans(packages, SQLITE_SYS, c.sqliteSys);
    RegistryMeans(packages, OPENSSL_SYS, c.opensslSys);
    RegistryMeans(packages, OPENSSL_SRC, c.opensslSrc);
  }

  /** What the checks of shape demand, said about the entries and the edges. */
  ghost predicate Shaped(packages: seq<Package>, g: Graph, reverse: Graph, features: Features, c: Chain) {
    Resolved(packages, c) && Sourced(packages, features, c) && Linked(g, reverse, c)
  }

  lemma ShapeMeans(packages: seq<Package>, g: Graph, reverse: Graph, features: Features, c: Chain)
    requires AllWellFormed(packages)
    ensures ShapeProblem(packages, g, reverse, features).None? && c == ChainOf(packages)
            <==> Shaped(packages, g, reverse, features, c)
  {
    ResolvedMeans(packages, c);
    if Resolved(packages, c) { SourcedMeans(packages, features, c); }
    if c == ChainOf(packages) && SingleProblem(packages).None? { SourcedMeans(packages, features, c); }
  }

  /** The reason of a rejection for shape is a fact about the entries and the edges. */
  ghost predicate ReasonHolds(packages: seq<Package>, g: Graph, reverse: Graph, features: Features, reason: Reason) {
    match reason
    case Forbidden => !Absent(packages, "openssl") || !Absent(packages, "native-tls")
    case NotSingle(name) => !exists id :: OnlyEntry(packages, name, id)
    case NotFromRegistry(name) => exists id :: OnlyEntry(packages, name, id) && !FromRegistry(packages, id)
    case FeatureMissing(name) =>
      exists id :: OnlyEntry(packages, name, id)
        && (if name == "mukei-core" then "sqlcipher" !in Active(features, id)
            else name == "rusqlite" && "bundled-sqlcipher-vendored-openssl" !in Active(features, id))
    case WrongParents(name) =>
      exists c :: Resolved(packages, c)
        && (if name == "openssl-sys" then Next(reverse, c.opensslSys) != {c.sqliteSys}
            else if name == "libsqlite3-sys" then Next(reverse, c.sqliteSys) != {c.rusqlite}
            else name == "openssl-src" && Next(reverse, c.opensslSrc) != {c.opensslSys})
    case NoVendoredSource => exists c :: Resolved(packages, c) && c.opensslSrc !in Next(g, c.opensslSys)
    case _ => false
  }

  lemma SingleReasonHolds(packages: seq<Package>, g: Graph, reverse: Graph, features: Features)
    requires AllWellFormed(packages) && SingleProblem(packages).Some?
    ensures ReasonHolds(packages, g, reverse, features, SingleProblem(packages).value)
  {
    NamedNone(packages, "openssl");
    NamedNone(packages, "native-tls");
    var reason := SingleProblem(packages).value;
    if reason.NotSingle? {
      forall id ensures !OnlyEntry(packages, reason.name, id) { SingleMeans(packages, reason.name, id); }
    }
  }

  lemma SourceReasonHolds(packages: seq<Package>, g: Graph, reverse: Graph, features: Features, c: Chain)
    requires Resolved(packages, c) && c == ChainOf(packages) && SourceProblem(packages, features).Some?
    ensures ReasonHolds(packages, g, reverse, features, SourceProblem(packages, features).value)
  {
    RegistryMeans(packages, RUSQLITE, c.rusqlite);
    RegistryMeans(packages, SQLITE_SYS, c.sqliteSys);
    RegistryMeans(packages, OPENSSL_SYS, c.opensslSys);
    RegistryMeans(packages, OPENSSL_SRC, c.opensslSrc);
    assert OnlyEntry(packages, CORE, c.core) && OnlyEntry(packages, RUSQLITE, c.rusqlite);
  }

  lemma ShapeReasonHolds(packages: seq<Package>, g: Graph, reverse: Graph, features: Features)
    requires AllWellFormed(packages) && ShapeProblem(packages, g, reverse, features).Some?
    ensures ReasonHolds(packages, g, reverse, features, ShapeProblem(packages, g, reverse, features).value)
  {
    var c := ChainOf(packages);
    if SingleProblem(packages).Some? {
      SingleReasonHolds(packages, g, reverse, features);
    } else {
      ResolvedMeans(packages, c);
      if SourceProblem(packages, features).Some? { SourceReasonHolds(packages, g, reverse, features, c); }
    }
  }

  /** The name of a package is that of the entry that counts for its id. */
  lemma NameMeans(packages: seq<Package>, id: Id, name: string)
    requires AllWellFormed(packages)
    ensures NameOf(packages, id) == Some(name) <==> exists i: nat :: LastEntry(packages, id, i) && packages[i].name == Some(name)
  {
    if NameOf(packages, id) == Some(name) {
      var i := NamedSomewhere(packages, id);
      var j := EntryExists(packages, id, i);
      EntryCounts(packages, id, j);
    }
    if i: nat :| LastEntry(packages, id, i) && packages[i].name == Some(name) { EntryCounts(packages, id, i); }
  }

  lemma {:induction false} NamedSomewhere(packages: seq<Package>, id: Id) returns (i: nat)
    requires NameOf(packages, id).Some?
    ensures i < |packages| && packages[i].id == Some(id)
  {
    var n := |packages| - 1;
    if packages[n].id == Some(id) { i := n; } else { i := NamedSomewhere(packages[..n], id); }
  }

  lemma {:induction false} EntryCounts(packages: seq<Package>, id: Id, i: nat)
    requires LastEntry(packages, id, i)
    ensures NameOf(packages, id) == packages[i].name && FromCratesIo(packages, id) == packages[i].fromCratesIo
  {
    var n := |packages| - 1;
    if i < n {
      assert packages[n].id != Some(id);
      EntryCounts(packages[..n], id, i);
    }
  }

  lemma {:induction false} EntryExists(packages: seq<Package>, id: Id, i: nat) returns (j: nat)
    requires i < |packages| && packages[i].id == Some(id)
    ensures LastEntry(packages, id, j)
    decreases |packages| - i
  {
    if k :| i < k < |packages| && packages[k].id == Some(id) { j := EntryExists(packages, id, k); } else { j := i; }
  }

  predicate Known(packages: seq<Package>, p: seq<Id>) { forall v <- p :: NameOf(packages, v).Some? }

  predicate ThroughCore(packages: seq<Package>, p: seq<Id>) { exists v <- p :: NameOf(packages, v) == Some(CORE) }

  predicate ApprovedSuffix(packages: seq<Package>, p: seq<Id>) {
    && |p| >= 3
    && NameOf(packages, p[|p| - 3]) == Some(RUSQLITE)
    && NameOf(packages, p[|p| - 2]) == Some(SQLITE_SYS)
    && NameOf(packages, p[|p| - 1]) == Some(OPENSSL_SYS)
  }

  function PathProblem(packages: seq<Package>, p: seq<Id>): Option<Reason> {
    if !Known(packages, p) then Some(UnknownPackage(p))
    else if !ThroughCore(packages, p) then Some(AvoidsCore(p))
    else if !ApprovedSuffix(packages, p) then Some(WrongSuffix(p))
    else None
  }

  /** The reason given for a path is true of it. */
  lemma PathReasonHolds(packages: seq<Package>, p: seq<Id>)
    requires PathProblem(packages, p).Some?
    ensures match PathProblem(packages, p).value
            case UnknownPackage(q) => q == p && exists v <- p :: NameOf(packages, v).None?
            case AvoidsCore(q) => q == p && forall v <- p :: NameOf(packages, v) != Some("mukei-core")
            case WrongSuffix(q) =>
              q == p && (|p| < 3 || NameOf(packages, p[|p| - 3]) != Some("rusqlite")
                         || NameOf(packages, p[|p| - 2]) != Some("libsqlite3-sys")
                         || NameOf(packages, p[|p| - 1]) != Some("openssl-sys"))
            case _ => false
  {
  }

  /** Looks at every path of one member; `found` is whether one of them starts at the core package. */
  method CheckPaths(packages: seq<Package>, paths: seq<seq<Id>>) returns (problem: Option<Reason>, found: bool)
    requires forall p <- paths :: p != []
    ensures problem.None? <==> forall p <- paths :: PathProblem(packages, p).None?
    ensures problem.Some? ==> exists p <- paths :: problem == PathProblem(packages, p)
    ensures problem.None? ==> (found <==> exists p <- paths :: NameOf(packages, p[0]) == Some(CORE))
  {
    found := false;
    var i := 0;
    while i < |paths|
      invariant 0 <= i <= |paths|
      invariant forall j :: 0 <= j < i ==> PathProblem(packages, paths[j]).None?
      invariant found <==> exists j :: 0 <= j < i && NameOf(packages, paths[j][0]) == Some(CORE)
    {
      problem := PathProblem(packages, paths[i]);
      if problem.Some? { return problem, found; }
      if NameOf(packages, paths[i][0]) == Some(CORE) { found := true; }
      i := i + 1;
    }
    return None, found;
  }

  /** What must hold of one workspace member, said about simple paths, as the checker sees it. */
  ghost predicate MemberPasses(packages: seq<Package>, g: Graph, can: set<Id>, target: Id, member: Id) {
    member in can ==>
      && |AllPaths(g, can, member, target)| <= MAX_PATHS
      && forall p <- AllPaths(g, can, member, target) :: PathProblem(packages, p).None?
  }

  ghost predicate StartsAtCore(packages: seq<Package>, g: Graph, can: set<Id>, target: Id, member: Id) {
    && member in can
    && exists p <- AllPaths(g, can, member, target) :: p != [] && NameOf(packages, p[0]) == Some(CORE)
  }

  /** What a rejection because of one member says: too many simple paths, or a simple path at fault. */
  ghost predicate FaultOf(packages: seq<Package>, g: Graph, can: set<Id>, target: Id, member: Id, reason: Reason) {
    var all := AllPaths(g, can, member, target);
    && member in can
    && ((reason == TooManyPaths(member) && |all| > MAX_PATHS) || exists p <- all :: Some(reason) == PathProblem(packages, p))
  }

  method CheckMember(packages: seq<Package>, g: Graph, can: set<Id>, target: Id, member: Id)
    returns (problem: Option<Reason>, paths: seq<seq<Id>>, found: bool)
    requires forall u :: u in can <==> Reaches(g, u, target)
    ensures problem.None? <==> MemberPasses(packages, g, can, target, member)
    ensures problem.Some? ==> !problem.value.Malformed? && FaultOf(packages, g, can, target, member, problem.value)
    ensures problem.None? ==> (found <==> StartsAtCore(packages, g, can, target, member))
    ensures problem.None? ==> forall p :: p in paths <==> IsSimplePath(g, p, member, target)
  {
    AllPathsAreSimple(g, can, member, target);
    if member !in can {
      NothingReaches(g, member, target, AllPaths(g, can, member, target));
      return None, [], false;
    }
    var listed := PathsToTarget(member, target, g, can);
    if listed.None? { return Some(TooManyPaths(member)), [], false; }
    paths := listed.value;
    assert forall p <- paths :: IsSimplePath(g, p, member, target);
    problem, found := CheckPaths(packages, paths);
  }

  ghost predicate MembersFault(packages: seq<Package>, g: Graph, can: set<Id>, target: Id, members: seq<Id>, reason: Reason) {
    || (reason == NoCorePath && !SomeStartsAtCore(packages, g, can, target, members))
    || exists m <- members :: FaultOf(packages, g, can, target, m, reason)
  }

  ghost predicate SomeStartsAtCore(packages: seq<Package>, g: Graph, can: set<Id>, target: Id, members: seq<Id>) {
    exists i :: 0 <= i < |members| && StartsAtCore(packages, g, can, target, members[i])
  }

  /** The reviewed paths are the simple paths from the members to the target. */
  ghost predicate ListsAll(paths: seq<seq<Id>>, g: Graph, target: Id, members: seq<Id>) {
    forall p :: p in paths <==> exists m <- members :: IsSimplePath(g, p, m, target)
  }

  lemma ListsOneMore(paths: seq<seq<Id>>, more: seq<seq<Id>>, g: Graph, target: Id, members: seq<Id>, member: Id)
    requires ListsAll(paths, g, target, members) && forall p :: p in more <==> IsSimplePath(g, p, member, target)
    ensures ListsAll(paths + more, g, target, members + [member])
  {
    forall p ensures p in paths + more <==> exists m <- members + [member] :: IsSimplePath(g, p, m, target) {
      if IsSimplePath(g, p, member, target) { assert member in members + [member]; }
    }
  }

  ghost predicate AllMembersPass(packages: seq<Package>, g: Graph, can: set<Id>, target: Id, members: seq<Id>) {
    forall i :: 0 <= i < |members| ==> MemberPasses(packages, g, can, target, members[i])
  }

  lemma OneMoreMember(packages: seq<Package>, g: Graph, can: set<Id>, target: Id, members: seq<Id>, i: nat)
    requires i < |members|
    ensures members[..i + 1] == members[..i] + [members[i]]
    ensures AllMembersPass(packages, g, can, target, members[..i + 1]) <==>
              AllMembersPass(packages, g, can, target, members[..i]) && MemberPasses(packages, g, can, target, members[i])
    ensures SomeStartsAtCore(packages, g, can, target, members[..i + 1]) <==>
              SomeStartsAtCore(packages, g, can, target, members[..i]) || StartsAtCore(packages, g, can, target, members[i])
  {
    var longer := members[..i + 1];
    assert longer == members[..i] + [members[i]] && longer[i] == members[i];
    assert forall j :: 0 <= j < i ==> longer[j] == members[..i][j];
  }

  method CheckMembers(packages: seq<Package>, g: Graph, can: set<Id>, target: Id, members: seq<Id>) returns (v: Verdict)
    requires forall u :: u in can <==> Reaches(g, u, target)
    ensures v.Approved? <==> AllPass(packages, g, can, target, members)
    ensures v.Rejected? ==> !v.reason.Malformed? && MembersFault(packages, g, can, target, members, v.reason)
    ensures v.Approved? ==> ListsAll(v.paths, g, target, members)
  {
    var reviewed: seq<seq<Id>> := [];
    var foundCore := false;
    var i := 0;
    while i < |members|
      invariant 0 <= i <= |members|
      invariant AllMembersPass(packages, g, can, target, members[..i])
      invariant foundCore <==> SomeStartsAtCore(packages, g, can, target, members[..i])
      invariant ListsAll(reviewed, g, target, members[..i])
    {
      var problem, paths, found := CheckMember(packages, g, can, target, members[i]);
      OneMoreMember(packages, g, can, target, members, i);
      if problem.Some? { return Rejected(problem.value); }
      ListsOneMore(reviewed, paths, g, target, members[..i], members[i]);
      reviewed := reviewed + paths;
      foundCore := foundCore || found;
      i := i + 1;
    }
    assert members[..i] == members;
    if !foundCore { return Rejected(NoCorePath); }
    return Approved(reviewed);
  }

  // ---- from simple paths to walks ------------------------------------------------------

  /** Every walk from the member to the target goes through the core package and ends in the approved chain. */
  ghost predicate Confined(packages: seq<Package>, g: Graph, target: Id, member: Id) {
    forall w :: IsWalkBetween(g, w, member, target) ==> ThroughCore(packages, w) && ApprovedSuffix(packages, w)
  }

  /** The last nodes of a walk are forced by the only parents. */
  lemma ForcedSuffix(g: Graph, reverse: Graph, w: seq<Id>, target: Id, parent: Id, grandparent: Id)
    requires Mirror(g, reverse) && IsWalk(g, w) && w[|w| - 1] == target
    requires Next(reverse, target) == {parent} && Next(reverse, parent) == {grandparent}
    ensures |w| >= 2 ==> w[|w| - 2] == parent
    ensures |w| >= 3 ==> w[|w| - 3] == grandparent
  {
    if |w| >= 2 { assert w[|w| - 2 + 1] in Next(g, w[|w| - 2]); }
    if |w| >= 3 { assert w[|w| - 3 + 1] in Next(g, w[|w| - 3]); }
  }

  /** Checking simple paths is as good as checking walks. */
  lemma SimplePathsSuffice(
    packages: seq<Package>, g: Graph, reverse: Graph, can: set<Id>, member: Id, target: Id, parent: Id, grandparent: Id)
    requires Mirror(g, reverse) && Next(reverse, target) == {parent} && Next(reverse, parent) == {grandparent}
    requires forall u :: u in can <==> Reaches(g, u, target)
    ensures (member in can ==> forall p <- AllPaths(g, can, member, target) ::
               ThroughCore(packages, p) && ApprovedSuffix(packages, p))
            <==> Confined(packages, g, target, member)
  {
    AllPathsAreSimple(g, can, member, target);
    if member in can && forall p <- AllPaths(g, can, member, target) :: ThroughCore(packages, p) && ApprovedSuffix(packages, p) {
      forall w | IsWalkBetween(g, w, member, target) ensures ThroughCore(packages, w) && ApprovedSuffix(packages, w) {
        var p := Shortcut(g, w, member, target);
        assert p in AllPaths(g, can, member, target);
        var v :| v in p && NameOf(packages, v) == Some(CORE);
        SameSuffix(packages, g, reverse, p, w, member, target, parent, grandparent);
      }
    }
  }

  /** A walk as long as an approved path between the same ends is approved; it cannot be shorter. */
  lemma SameSuffix(
    packages: seq<Package>, g: Graph, reverse: Graph, p: seq<Id>, w: seq<Id>,
    member: Id, target: Id, parent: Id, grandparent: Id)
    requires Mirror(g, reverse) && Next(reverse, target) == {parent} && Next(reverse, parent) == {grandparent}
    requires IsSimplePath(g, p, member, target) && IsWalkBetween(g, w, member, target) && (forall v <- p :: v in w)
    requires ApprovedSuffix(packages, p)
    ensures ApprovedSuffix(packages, w)
  {
    ForcedSuffix(g, reverse, p, target, parent, grandparent);
    ForcedSuffix(g, reverse, w, target, parent, grandparent);
    var n := |p|;
    assert p[n - 3] in w && p[n - 2] in w && p[n - 1] in w;
    assert p[n - 3] != p[n - 2] && p[n - 2] != p[n - 1] && p[n - 3] != p[n - 1];
  }

  // ---- the whole check -----------------------------------------------------------------

  /** At most 256 simple paths, all of them over known packages. */
  ghost predicate FewKnownPaths(packages: seq<Package>, g: Graph, target: Id, member: Id) {
    && (forall p :: IsSimplePath(g, p, member, target) ==> Known(packages, p))
    && (exists ps :: ListsPaths(ps, g, target, member) && |ps| <= MAX_PATHS)
  }

  ghost predicate ListsPaths(ps: seq<seq<Id>>, g: Graph, target: Id, member: Id) {
    Distinct(ps) && forall p :: p in ps <==> IsSimplePath(g, p, member, target)
  }

  ghost predicate CorePath(packages: seq<Package>, g: Graph, target: Id, member: Id) {
    exists p :: IsSimplePath(g, p, member, target) && NameOf(packages, p[0]) == Some(CORE)
  }

  lemma SameMembersSameLength<T(!new)>(a: seq<T>, b: seq<T>)
    requires Distinct(a) && Distinct(b) && forall x :: x in a <==> x in b
    ensures |a| == |b|
  {
    DistinctSize(a);
    DistinctSize(b);
    assert (set x | x in a) == (set x | x in b);
  }

  /** A member passes the checker exactly when it satisfies the policy on walks. */
  lemma MemberPolicy(
    packages: seq<Package>, g: Graph, reverse: Graph, can: set<Id>, member: Id, target: Id, parent: Id, grandparent: Id)
    requires Mirror(g, reverse) && Next(reverse, target) == {parent} && Next(reverse, parent) == {grandparent}
    requires forall u :: u in can <==> Reaches(g, u, target)
    ensures MemberPasses(packages, g, can, target, member)
            <==> Confined(packages, g, target, member) && FewKnownPaths(packages, g, target, member)
    ensures StartsAtCore(packages, g, can, target, member) <==> CorePath(packages, g, target, member)
  {
    SimplePathsSuffice(packages, g, reverse, can, member, target, parent, grandparent);
    AllPathsAreSimple(g, can, member, target);
    var all := AllPaths(g, can, member, target);
    assert ListsPaths(all, g, target, member);
    if FewKnownPaths(packages, g, target, member) {
      var ps :| ListsPaths(ps, g, target, member) && |ps| <= MAX_PATHS;
      SameMembersSameLength(ps, all);
    }
    if member !in can { NothingReaches(g, member, target, all); }
  }

  lemma NothingReaches(g: Graph, member: Id, target: Id, all: seq<seq<Id>>)
    requires !Reaches(g, member, target) && forall p :: p in all <==> IsSimplePath(g, p, member, target)
    ensures all == []
  {
    assert all != [] ==> all[0] in all && IsSimplePath(g, all[0], member, target);
  }

  ghost predicate WalksConform(md: Metadata, g: Graph, target: Id) {
    && (forall i :: 0 <= i < |md.members| ==>
          Confined(md.packages, g, target, md.members[i]) && FewKnownPaths(md.packages, g, target, md.members[i]))
    && (exists i :: 0 <= i < |md.members| && CorePath(md.packages, g, target, md.members[i]))
  }

  /** The policy, said about every walk. */
  ghost predicate Policy(md: Metadata, g: Graph, reverse: Graph, features: Features) {
    && ShapeProblem(md.packages, g, reverse, features).None?
    && WalksConform(md, g, Single(md.packages, OPENSSL_SYS))
  }

  /** Past the core package, and at the end through the vendored chain. */
  ghost predicate Vendored(w: seq<Id>, core: Id, rusqlite: Id, sqliteSys: Id, opensslSys: Id) {
    core in w && |w| >= 3 && w[|w| - 3..] == [rusqlite, sqliteSys, opensslSys]
  }

  /** What an approved graph guarantees of every walk from a member to the target. */
  ghost predicate Guaranteed(md: Metadata, g: Graph) {
    var core, rusqlite := Single(md.packages, CORE), Single(md.packages, RUSQLITE);
    var sqliteSys, opensslSys := Single(md.packages, SQLITE_SYS), Single(md.packages, OPENSSL_SYS);
    forall i, w :: 0 <= i < |md.members| && IsWalkBetween(g, w, md.members[i], opensslSys) ==>
      Vendored(w, core, rusqlite, sqliteSys, opensslSys)
  }

  lemma NameIsSingle(packages: seq<Package>, id: Id, name: string)
    requires NameOf(packages, id) == Some(name) && IsSingle(packages, name)
    ensures id == Single(packages, name)
  {
    NamedIsListed(packages, id, name);
  }

  /** A walk whose names are right consists of the right packages, when each name is resolved once. */
  lemma NamedWalk(packages: seq<Package>, w: seq<Id>)
    requires ThroughCore(packages, w) && ApprovedSuffix(packages, w)
    requires IsSingle(packages, CORE) && IsSingle(packages, RUSQLITE)
    requires IsSingle(packages, SQLITE_SYS) && IsSingle(packages, OPENSSL_SYS)
    ensures Vendored(w, Single(packages, CORE), Single(packages, RUSQLITE), Single(packages, SQLITE_SYS), Single(packages, OPENSSL_SYS))
  {
    var v :| v in w && NameOf(packages, v) == Some(CORE);
    NameIsSingle(packages, v, CORE);
    NameIsSingle(packages, w[|w| - 3], RUSQLITE);
    NameIsSingle(packages, w[|w| - 2], SQLITE_SYS);
    NameIsSingle(packages, w[|w| - 1], OPENSSL_SYS);
  }

  /** Names resolved once and walks confined by name confine them by package. */
  lemma PolicyGuarantees(md: Metadata, g: Graph, target: Id)
    requires IsSingle(md.packages, CORE) && IsSingle(md.packages, RUSQLITE)
    requires IsSingle(md.packages, SQLITE_SYS) && IsSingle(md.packages, OPENSSL_SYS)
    requires target == Single(md.packages, OPENSSL_SYS)
    requires forall i :: 0 <= i < |md.members| ==> Confined(md.packages, g, target, md.members[i])
    ensures Guaranteed(md, g)
  {
    forall i, w | 0 <= i < |md.members| && IsWalkBetween(g, w, md.members[i], target)
      ensures Vendored(w, Single(md.packages, CORE), Single(md.packages, RUSQLITE), Single(md.packages, SQLITE_SYS), target)
    {
      assert Confined(md.packages, g, target, md.members[i]);
      NamedWalk(md.packages, w);
    }
  }

  ghost predicate AllPass(packages: seq<Package>, g: Graph, can: set<Id>, target: Id, members: seq<Id>) {
    && AllMembersPass(packages, g, can, target, members)
    && SomeStartsAtCore(packages, g, can, target, members)
  }

  ghost predicate SomeCorePath(packages: seq<Package>, g: Graph, target: Id, members: seq<Id>) {
    exists i :: 0 <= i < |members| && CorePath(packages, g, target, members[i])
  }

  /** What is wrong with a member, said about the graph: too many simple paths, or a simple path at fault. */
  ghost predicate MemberFault(packages: seq<Package>, g: Graph, target: Id, member: Id, reason: Reason) {
    || (reason == TooManyPaths(member) && exists ps :: ListsPaths(ps, g, target, member) && |ps| > MAX_PATHS)
    || exists p :: IsSimplePath(g, p, member, target) && PathProblem(packages, p) == Some(reason)
  }

  /** What a rejection after the checks of shape says: a member's fault, or that no path starts at the core package. */
  ghost predicate PathFault(packages: seq<Package>, g: Graph, target: Id, members: seq<Id>, reason: Reason) {
    || (reason == NoCorePath && !SomeCorePath(packages, g, target, members))
    || exists m <- members :: MemberFault(packages, g, target, m, reason)
  }

  lemma FaultIsThere(packages: seq<Package>, g: Graph, can: set<Id>, target: Id, member: Id, reason: Reason)
    requires (forall u :: u in can <==> Reaches(g, u, target)) && FaultOf(packages, g, can, target, member, reason)
    ensures MemberFault(packages, g, target, member, reason)
  {
    AllPathsAreSimple(g, can, member, target);
    assert ListsPaths(AllPaths(g, can, member, target), g, target, member);
  }

  lemma MembersFaultIsThere(packages: seq<Package>, g: Graph, can: set<Id>, target: Id, members: seq<Id>, reason: Reason)
    requires forall u :: u in can <==> Reaches(g, u, target)
    requires SomeStartsAtCore(packages, g, can, target, members) <==> SomeCorePath(packages, g, target, members)
    requires MembersFault(packages, g, can, target, members, reason)
    ensures PathFault(packages, g, target, members, reason)
  {
    if m :| m in members && FaultOf(packages, g, can, target, m, reason) {
      FaultIsThere(packages, g, can, target, m, reason);
    }
  }

  lemma MembersPolicy(md: Metadata, g: Graph, reverse: Graph, can: set<Id>, target: Id, parent: Id, grandparent: Id)
    requires Mirror(g, reverse) && Next(reverse, target) == {parent} && Next(reverse, parent) == {grandparent}
    requires forall u :: u in can <==> Reaches(g, u, target)
    ensures AllPass(md.packages, g, can, target, md.members) <==> WalksConform(md, g, target)
    ensures SomeStartsAtCore(md.packages, g, can, target, md.members) <==> SomeCorePath(md.packages, g, target, md.members)
  {
    forall i | 0 <= i < |md.members|
      ensures MemberPasses(md.packages, g, can, target, md.members[i]) <==>
              Confined(md.packages, g, target, md.members[i]) && FewKnownPaths(md.packages, g, target, md.members[i])
      ensures StartsAtCore(md.packages, g, can, target, md.members[i]) <==> CorePath(md.packages, g, target, md.members[i])
    {
      MemberPolicy(md.packages, g, reverse, can, md.members[i], target, parent, grandparent);
    }
  }

  /** The part of the check that looks at paths, after the shape has been found in order. */
  method CheckWalks(md: Metadata, g: Graph, reverse: Graph, target: Id, parent: Id, grandparent: Id) returns (v: Verdict)
    requires Mirror(g, reverse) && Next(reverse, target) == {parent} && Next(reverse, parent) == {grandparent}
    ensures v.Rejected? ==> !v.reason.Malformed? && PathFault(md.packages, g, target, md.members, v.reason)
    ensures v.Approved? <==> WalksConform(md, g, target)
    ensures v.Approved? ==> ListsAll(v.paths, g, target, md.members)
  {
    var can := AncestorsOf(target, reverse);
    forall u ensures u in can <==> Reaches(g, u, target) { ReachesReversed(g, reverse, u, target); }
    MembersPolicy(md, g, reverse, can, target, parent, grandparent);
    v := CheckMembers(md.packages, g, can, target, md.members);
    if v.Rejected? { MembersFaultIsThere(md.packages, g, can, target, md.members, v.reason); }
  }

  /** The policy without reference to the checker: the shape of the chain, and all walks to openssl-sys. */
  ghost predicate Conforms(md: Metadata, g: Graph, reverse: Graph, features: Features) {
    exists c :: Shaped(md.packages, g, reverse, features, c) && WalksConform(md, g, c.opensslSys)
  }

  /** Every walk from a member to openssl-sys passes the core package and ends in the vendored chain. */
  ghost predicate EveryWalkVendored(md: Metadata, g: Graph, c: Chain) {
    forall i, w :: 0 <= i < |md.members| && IsWalkBetween(g, w, md.members[i], c.opensslSys) ==>
      Vendored(w, c.core, c.rusqlite, c.sqliteSys, c.opensslSys)
  }

  lemma PolicyMeans(md: Metadata, g: Graph, reverse: Graph, features: Features)
    requires AllWellFormed(md.packages)
    ensures Policy(md, g, reverse, features) <==> Conforms(md, g, reverse, features)
  {
    ShapeMeans(md.packages, g, reverse, features, ChainOf(md.packages));
    if Conforms(md, g, reverse, features) {
      var c :| Shaped(md.packages, g, reverse, features, c) && WalksConform(md, g, c.opensslSys);
      ShapeMeans(md.packages, g, reverse, features, c);
    }
  }

  lemma GuaranteedMeans(md: Metadata, g: Graph, reverse: Graph, features: Features)
    requires AllWellFormed(md.packages) && Guaranteed(md, g)
    ensures forall c :: Shaped(md.packages, g, reverse, features, c) ==> EveryWalkVendored(md, g, c)
  {
    forall c | Shaped(md.packages, g, reverse, features, c) ensures EveryWalkVendored(md, g, c) {
      ShapeMeans(md.packages, g, reverse, features, c);
    }
  }

  predicate Readable(md: Metadata) {
    && (forall i :: 0 <= i < |md.packages| ==> WellFormedPackage(md.packages[i]))
    && md.nodes.Some?
    && (forall i :: 0 <= i < |md.nodes.value| ==> md.nodes.value[i].id.Some?)
  }

  /**
   `validate_target_graph`: it approves exactly the graphs that satisfy the
   policy on all walks.  A graph it cannot read is rejected as malformed.
   */
  method ValidateTargetGraph(md: Metadata)
    returns (v: Verdict, ghost g: Graph, ghost reverse: Graph, ghost features: Features)
    ensures v == Rejected(Malformed) <==> !Readable(md)
    ensures Readable(md) ==> Represents(g, md.nodes.value) && Mirror(g, reverse)
    ensures Readable(md) ==> forall u :: Active(features, u) == FeaturesOf(md.nodes.value, u)
    ensures Readable(md) ==> (v.Approved? <==> Policy(md, g, reverse, features))
    ensures Readable(md) && ShapeProblem(md.packages, g, reverse, features).Some? ==>
              v == Rejected(ShapeProblem(md.packages, g, reverse, features).value)
    ensures Readable(md) && ShapeProblem(md.packages, g, reverse, features).None? && v.Rejected? ==>
              PathFault(md.packages, g, Single(md.packages, OPENSSL_SYS), md.members, v.reason)
    ensures v.Approved? ==> Guaranteed(md, g) && ListsAll(v.paths, g, Single(md.packages, OPENSSL_SYS), md.members)
    ensures Readable(md) ==> (v.Approved? <==> Conforms(md, g, reverse, features))
    ensures v.Approved? ==> forall c :: Shaped(md.packages, g, reverse, features, c) ==> EveryWalkVendored(md, g, c)
    ensures Readable(md) && ShapeProblem(md.packages, g, reverse, features).Some? ==>
              ReasonHolds(md.packages, g, reverse, features, v.reason)
  {
    g, reverse, features := map[], map[], map[];
    if exists i :: 0 <= i < |md.packages| && !WellFormedPackage(md.packages[i]) { v := Rejected(Malformed); return; }
    if md.nodes.None? { v := Rejected(Malformed); return; }
    var built := NonDevGraph(md.nodes.value);
    if built.None? { v := Rejected(Malformed); return; }
    var (adjacency, parents, active) := built.value;
    g, reverse, features := adjacency, parents, active;
    PolicyMeans(md, g, reverse, features);
    var problem := ShapeProblem(md.packages, adjacency, parents, active);
    if problem.Some? {
      ShapeReasonHolds(md.packages, g, reverse, features);
      v := Rejected(problem.value);
      return;
    }
    v := CheckWalks(md, adjacency, parents, Single(md.packages, OPENSSL_SYS),
      Single(md.packages, SQLITE_SYS), Single(md.packages, RUSQLITE));
    if v.Approved? {
      PolicyGuarantees(md, g, Single(md.packages, OPENSSL_SYS));
      GuaranteedMeans(md, g, reverse, features);
    }
  }
}
