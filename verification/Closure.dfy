/**
 The execution closure of a DAG: `build_dag_execution_closure`, and `_load_dag_execution_closure`,
 which first loads what the root needs from the database and then builds the closure of that.
 */
module Closure {
  import opened Wrappers
  import opened Graphs
  import opened DagModels
  import opened Nesting

  type Configs = map<string, NodeConfig>

  datatype ClosureError = MissingDag(name: string) | SubDagCycle(chain: seq<string>) | MissingNode(typ: string)

  datatype ExecutionClosure = ExecutionClosure(root: string, dags: Dags, nodes: Configs)

  /** `_sub_dag_name`: the DAG a node refers to, whether or not it is looped. */
  function SubDagName(dags: Dags, node: Instance): Option<string> {
    if node.typ == "dag" && node.dagRef.Some? && node.dagRef.value != "" then node.dagRef
    else if node.typ in dags then Some(node.typ)
    else None
  }

  ghost predicate RefersTo(dags: Dags, d: string, ref: string) {
    d in dags && exists n :: n in dags[d].nodes && SubDagName(dags, n) == Some(ref)
  }

  /** References followed from `c[0]`; the last name may lack a configuration. */
  ghost predicate RefPath(dags: Dags, c: seq<string>) {
    && c != []
    && forall i {:trigger c[i]} :: 0 < i < |c| ==> RefersTo(dags, c[i - 1], c[i])
  }

  ghost predicate RefPathBetween(dags: Dags, c: seq<string>, a: string, b: string) {
    RefPath(dags, c) && c[0] == a && c[|c| - 1] == b
  }

  ghost predicate Refers(dags: Dags, a: string, b: string) {
    exists c :: RefPathBetween(dags, c, a, b)
  }

  ghost predicate PlainIn(dags: Dags, d: string, t: string) {
    d in dags && exists n :: n in dags[d].nodes && SubDagName(dags, n).None? && n.typ == t
  }

  ghost predicate UsedBelow(dags: Dags, a: string, t: string) {
    exists d :: Refers(dags, a, d) && PlainIn(dags, d, t)
  }

  ghost predicate KnownDag(dags: Dags, configs: Configs, d: string) {
    d in dags && forall t :: PlainIn(dags, d, t) ==> t in configs
  }

  /**
   A path of references, continuing `path`, that repeats no name and ends at a DAG that is known with its node
   types.
   */
  ghost predicate SoundPath(dags: Dags, configs: Configs, path: seq<string>, c: seq<string>)
    requires c != []
  {
    Distinct(path + c) && KnownDag(dags, configs, c[|c| - 1])
  }

  ghost predicate SoundBelow(dags: Dags, configs: Configs, path: seq<string>, name: string) {
    forall c :: RefPath(dags, c) && c[0] == name ==> SoundPath(dags, configs, path, c)
  }

  /** Everything reachable from the root exists, and following references never comes back to a name. */
  ghost predicate Closable(dags: Dags, configs: Configs, root: string) {
    SoundBelow(dags, configs, [], root)
  }

  /** Exactly the reachable DAGs, and the configurations of the node types they use. */
  ghost predicate IsClosure(dags: Dags, configs: Configs, root: string, closure: ExecutionClosure) {
    && closure.root == root
    && (forall d :: d in closure.dags <==> Refers(dags, root, d))
    && (forall d :: d in closure.dags ==> d in dags && closure.dags[d] == dags[d])
    && (forall t :: t in closure.nodes <==> UsedBelow(dags, root, t))
    && (forall t :: t in closure.nodes ==> t in configs && closure.nodes[t] == configs[t])
  }

  lemma RefersItself(dags: Dags, a: string)
    ensures Refers(dags, a, a)
  {
    assert RefPathBetween(dags, [a], a, a);
  }

  lemma PrependRef(dags: Dags, a: string, c: seq<string>)
    requires RefPath(dags, c) && RefersTo(dags, a, c[0])
    ensures RefPath(dags, [a] + c)
  {
  }

  lemma RefersStep(dags: Dags, a: string, r: string, b: string)
    requires RefersTo(dags, a, r) && Refers(dags, r, b)
    ensures Refers(dags, a, b)
  {
    var c :| RefPathBetween(dags, c, r, b);
    PrependRef(dags, a, c);
    assert RefPathBetween(dags, [a] + c, a, b);
  }

  lemma RefersSplit(dags: Dags, a: string, b: string) returns (r: string)
    requires Refers(dags, a, b) && a != b
    ensures RefersTo(dags, a, r) && Refers(dags, r, b)
  {
    var c :| RefPathBetween(dags, c, a, b);
    r := c[1];
    assert RefPathBetween(dags, c[1..], r, b);
  }

  lemma UsedBelowStep(dags: Dags, a: string, r: string, t: string)
    requires RefersTo(dags, a, r) && UsedBelow(dags, r, t)
    ensures UsedBelow(dags, a, t)
  {
    var d :| Refers(dags, r, d) && PlainIn(dags, d, t);
    RefersStep(dags, a, r, d);
  }

  lemma UsedBelowSplit(dags: Dags, a: string, t: string) returns (r: string)
    requires UsedBelow(dags, a, t) && !PlainIn(dags, a, t)
    ensures RefersTo(dags, a, r) && UsedBelow(dags, r, t)
  {
    var d :| Refers(dags, a, d) && PlainIn(dags, d, t);
    r := RefersSplit(dags, a, d);
  }

  /** What is sound below a reference is sound below the name that makes it. */
  lemma SoundFromParts(dags: Dags, configs: Configs, path: seq<string>, name: string)
    requires Distinct(path + [name]) && KnownDag(dags, configs, name)
    requires forall r :: RefersTo(dags, name, r) ==> SoundBelow(dags, configs, path + [name], r)
    ensures SoundBelow(dags, configs, path, name)
  {
    forall c | RefPath(dags, c) && c[0] == name ensures SoundPath(dags, configs, path, c) {
      if |c| > 1 {
        assert RefersTo(dags, name, c[1]);
        assert RefPath(dags, c[1..]);
        assert SoundPath(dags, configs, path + [name], c[1..]);
        assert path + [name] + c[1..] == path + c;
      } else {
        assert path + c == path + [name];
      }
    }
  }

  lemma UnsoundReference(dags: Dags, configs: Configs, path: seq<string>, name: string, r: string)
    requires RefersTo(dags, name, r) && !SoundBelow(dags, configs, path + [name], r)
    ensures !SoundBelow(dags, configs, path, name)
  {
    var c :| RefPath(dags, c) && c[0] == r && !SoundPath(dags, configs, path + [name], c);
    PrependRef(dags, name, c);
    assert path + [name] + c == path + ([name] + c);
    assert !SoundPath(dags, configs, path, [name] + c);
  }

  lemma UnsoundHere(dags: Dags, configs: Configs, path: seq<string>, name: string)
    requires !(Distinct(path + [name]) && KnownDag(dags, configs, name))
    ensures !SoundBelow(dags, configs, path, name)
  {
    assert RefPath(dags, [name]);
    assert !SoundPath(dags, configs, path, [name]);
  }

  class ClosureBuilder {
    const dags: Dags
    const configs: Configs
    var closureDags: Dags
    var closureNodes: Configs

    constructor (dags: Dags, configs: Configs)
      ensures this.dags == dags && this.configs == configs && closureDags == map[] && closureNodes == map[]
    {
      this.dags, this.configs := dags, configs;
      closureDags, closureNodes := map[], map[];
    }

    ghost predicate Valid()
      reads this
    {
      && (forall d :: d in closureDags ==> d in dags && closureDags[d] == dags[d])
      && (forall t :: t in closureNodes ==> t in configs && closureNodes[t] == configs[t])
    }

    /** `visit`: the result says why it raised, if it did. */
    method Visit(name: string, path: seq<string>) returns (problem: Option<ClosureError>)
      requires Valid() && Path(dags, path)
      modifies this
      decreases |dags.Keys| - |path|, 2
      ensures problem.None? <==> SoundBelow(dags, configs, path, name)
      ensures problem.None? ==> Valid()
      ensures problem.None? ==> forall d :: d in closureDags <==> d in old(closureDags) || Refers(dags, name, d)
      ensures problem.None? ==> forall t :: t in closureNodes <==> t in old(closureNodes) || UsedBelow(dags, name, t)
    {
      var chain := path + [name];
      if name !in dags {
        UnsoundHere(dags, configs, path, name);
        return Some(MissingDag(name));
      }
      if name in path {
        RepeatedName(path, name);
        UnsoundHere(dags, configs, path, name);
        return Some(SubDagCycle(chain));
      }
      assert Elements(chain) == Elements(path) + {name};
      PathFits(dags, chain);
      problem := VisitInstances(name, path);
    }

    /** The rest of `visit`: record the DAG, then go through its instances. */
    method VisitInstances(name: string, path: seq<string>) returns (problem: Option<ClosureError>)
      requires Valid() && name in dags && Path(dags, path + [name]) && |path| < |dags.Keys|
      modifies this
      decreases |dags.Keys| - |path|, 1
      ensures problem.None? <==> SoundBelow(dags, configs, path, name)
      ensures problem.None? ==> Valid()
      ensures problem.None? ==> forall d :: d in closureDags <==> d in old(closureDags) || Refers(dags, name, d)
      ensures problem.None? ==> forall t :: t in closureNodes <==> t in old(closureNodes) || UsedBelow(dags, name, t)
    {
      var nodes := dags[name].nodes;
      closureDags := closureDags[name := dags[name]];
      ghost var dags0, nodes0 := old(closureDags.Keys), old(closureNodes.Keys);
      RefersItself(dags, name);
      for i := 0 to |nodes|
        invariant Valid() && name in closureDags && dags0 <= closureDags.Keys && nodes0 <= closureNodes.Keys
        invariant OnlyBelow(dags, name, dags0, closureDags.Keys, nodes0, closureNodes.Keys)
        invariant AllCoveredIn(dags, configs, path + [name], nodes[..i], closureDags.Keys, closureNodes.Keys)
      {
        ghost var dags1, nodes1 := closureDags.Keys, closureNodes.Keys;
        problem := VisitInstance(name, nodes[i], path, dags0, nodes0);
        if problem.Some? {
          return;
        }
        TakeStep(nodes, i);
        CoverageGrows(dags, configs, path + [name], nodes[..i], dags1, closureDags.Keys, nodes1, closureNodes.Keys);
      }
      assert nodes[..|nodes|] == nodes;
      AllCovered(dags, configs, path, name, closureDags.Keys, closureNodes.Keys);
      return None;
    }

    /** One turn of the loop over the instances of `name`. */
    method VisitInstance(name: string, n: Instance, path: seq<string>, ghost dags0: set<string>,
        ghost nodes0: set<string>)
      returns (problem: Option<ClosureError>)
      requires Valid() && name in dags && n in dags[name].nodes && Path(dags, path + [name]) && |path| < |dags.Keys|
      requires OnlyBelow(dags, name, dags0, closureDags.Keys, nodes0, closureNodes.Keys)
      modifies this
      decreases |dags.Keys| - |path|, 0
      ensures problem.Some? ==> !SoundBelow(dags, configs, path, name)
      ensures problem.None? ==>
          Valid() && old(closureDags.Keys) <= closureDags.Keys && old(closureNodes.Keys) <= closureNodes.Keys
      ensures problem.None? ==> OnlyBelow(dags, name, dags0, closureDags.Keys, nodes0, closureNodes.Keys)
      ensures problem.None? ==> Covered(dags, configs, path + [name], n, closureDags.Keys, closureNodes.Keys)
    {
      problem := None;
      var sub := SubDagName(dags, n);
      if sub.Some? {
        ghost var dags1, nodes1 := closureDags.Keys, closureNodes.Keys;
        assert RefersTo(dags, name, sub.value);
        problem := Visit(sub.value, path + [name]);
        if problem.Some? {
          UnsoundReference(dags, configs, path, name, sub.value);
        } else {
          StillOnlyBelow(dags, name, sub.value, dags0, dags1, closureDags.Keys, nodes0, nodes1, closureNodes.Keys);
        }
      } else if n.typ in configs {
        PlainIsUsed(dags, name, n);
        closureNodes := closureNodes[n.typ := configs[n.typ]];
      } else {
        PlainIsUsed(dags, name, n);
        UnsoundHere(dags, configs, path, name);
        problem := Some(MissingNode(n.typ));
      }
    }
  }

  lemma PlainIsUsed(dags: Dags, name: string, n: Instance)
    requires name in dags && n in dags[name].nodes && SubDagName(dags, n).None?
    ensures PlainIn(dags, name, n.typ) && UsedBelow(dags, name, n.typ)
  {
    RefersItself(dags, name);
  }

  lemma RepeatedName(path: seq<string>, name: string)
    requires name in path
    ensures !Distinct(path + [name])
  {
    var i :| 0 <= i < |path| && path[i] == name;
    assert (path + [name])[i] == (path + [name])[|path|];
  }

  /** The keys added so far all lie below `name`. */
  ghost predicate OnlyBelow(dags: Dags, name: string, dags0: set<string>, keys: set<string>, nodes0: set<string>,
      types: set<string>) {
    && (forall d {:trigger Refers(dags, name, d)} {:trigger d in keys} ::
        d in keys ==> d in dags0 || Refers(dags, name, d))
    && (forall t {:trigger UsedBelow(dags, name, t)} {:trigger t in types} ::
        t in types ==> t in nodes0 || UsedBelow(dags, name, t))
  }

  /** An instance whose whole subtree has been collected. */
  ghost predicate Covered(dags: Dags, configs: Configs, chain: seq<string>, n: Instance, keys: set<string>,
      types: set<string>) {
    var sub := SubDagName(dags, n);
    if sub.None? then n.typ in types && n.typ in configs
    else
      && SoundBelow(dags, configs, chain, sub.value)
      && (forall d :: Refers(dags, sub.value, d) ==> d in keys)
      && (forall t :: UsedBelow(dags, sub.value, t) ==> t in types)
  }

  lemma StillOnlyBelow(dags: Dags, name: string, sub: string, dags0: set<string>, dags1: set<string>, keys: set<string>,
                       nodes0: set<string>, nodes1: set<string>, types: set<string>)
    requires RefersTo(dags, name, sub) && OnlyBelow(dags, name, dags0, dags1, nodes0, nodes1)
    requires forall d :: d in keys <==> d in dags1 || Refers(dags, sub, d)
    requires forall t :: t in types <==> t in nodes1 || UsedBelow(dags, sub, t)
    ensures OnlyBelow(dags, name, dags0, keys, nodes0, types)
  {
    forall d | d in keys ensures d in dags0 || Refers(dags, name, d) {
      if d !in dags1 {
        RefersStep(dags, name, sub, d);
      }
    }
    forall t | t in types ensures t in nodes0 || UsedBelow(dags, name, t) {
      if t !in nodes1 {
        UsedBelowStep(dags, name, sub, t);
      }
    }
  }

  ghost predicate AllCoveredIn(dags: Dags, configs: Configs, chain: seq<string>, part: seq<Instance>, keys: set<string>,
      types: set<string>) {
    forall n :: n in part ==> Covered(dags, configs, chain, n, keys, types)
  }

  lemma CoverageGrows(dags: Dags, configs: Configs, chain: seq<string>, part: seq<Instance>,
                      keys: set<string>, keys': set<string>, types: set<string>, types': set<string>)
    requires keys <= keys' && types <= types'
    requires AllCoveredIn(dags, configs, chain, part, keys, types)
    ensures AllCoveredIn(dags, configs, chain, part, keys', types')
  {
  }

  lemma AllCovered(dags: Dags, configs: Configs, path: seq<string>, name: string, keys: set<string>, types: set<string>)
    requires name in dags && name in keys && Distinct(path + [name])
    requires AllCoveredIn(dags, configs, path + [name], dags[name].nodes, keys, types)
    ensures SoundBelow(dags, configs, path, name)
    ensures forall d :: Refers(dags, name, d) ==> d in keys
    ensures forall t :: UsedBelow(dags, name, t) ==> t in types
  {
    SoundFromParts(dags, configs, path, name);
    forall d | Refers(dags, name, d) ensures d in keys {
      if d != name {
        var r := RefersSplit(dags, name, d);
      }
    }
    forall t | UsedBelow(dags, name, t) ensures t in types {
      if !PlainIn(dags, name, t) {
        var r := UsedBelowSplit(dags, name, t);
      }
    }
  }

  /** `build_dag_execution_closure`: exact, and successful exactly on closable references. */
  method BuildClosure(root: string, dags: Dags, configs: Configs) returns (r: Result<ExecutionClosure, ClosureError>)
    ensures r.Ok? <==> Closable(dags, configs, root)
    ensures r.Ok? ==> IsClosure(dags, configs, root, r.value)
  {
    var builder := new ClosureBuilder(dags, configs);
    var problem := builder.Visit(root, []);
    if problem.Some? {
      return Err(problem.value);
    }
    return Ok(ExecutionClosure(root, builder.closureDags, builder.closureNodes));
  }

  // ----- Loading from the database first -----

  /** Nothing that `d` needs is missing from what has been loaded. */
  ghost predicate Settled(dbDags: Dags, dbConfigs: Configs, d: string, dags: set<string>, nodes: set<string>) {
    && (forall r :: RefersTo(dbDags, d, r) ==> r in dags)
    && (forall t :: PlainIn(dbDags, d, t) && t in dbConfigs ==> t in nodes)
  }

  class ClosureLoader {
    const dbDags: Dags
    const dbConfigs: Configs
    var dags: Dags
    var nodes: Configs

    constructor (dbDags: Dags, dbConfigs: Configs)
      ensures this.dbDags == dbDags && this.dbConfigs == dbConfigs && dags == map[] && nodes == map[]
    {
      this.dbDags, this.dbConfigs := dbDags, dbConfigs;
      dags, nodes := map[], map[];
    }

    /** `open` holds the DAGs whose instances are being gone through. */
    ghost predicate Valid(root: string, open: set<string>)
      reads this
    {
      && (forall d :: d in dags ==> d in dbDags && dags[d] == dbDags[d] && Refers(dbDags, root, d))
      && (forall t :: t in nodes ==> t in dbConfigs && nodes[t] == dbConfigs[t])
      && (forall d :: d in dags && d !in open ==> Settled(dbDags, dbConfigs, d, dags.Keys, nodes.Keys))
    }

    /** `visit`, which remembers what it has loaded; it stops at the first DAG that is missing. */
    method Visit(name: string, ghost root: string, ghost open: set<string>) returns (missing: Option<string>)
      requires Valid(root, open) && Refers(dbDags, root, name)
      modifies this
      decreases dbDags.Keys - dags.Keys, 1
      ensures missing.None? ==>
          Valid(root, open) && name in dags && dags.Keys >= old(dags.Keys) && nodes.Keys >= old(nodes.Keys)
      ensures missing.Some? ==> Refers(dbDags, root, missing.value) && missing.value !in dbDags
    {
      if name in dags {
        return None;
      }
      if name !in dbDags {
        return Some(name);
      }
      ghost var before := dags.Keys;
      dags := dags[name := dbDags[name]];
      assert dags.Keys == before + {name};
      missing := VisitInstances(name, root, open + {name});
      if missing.None? {
        assert Settled(dbDags, dbConfigs, name, dags.Keys, nodes.Keys);
      }
    }

    /** The loop of `visit` over the instances of a DAG. */
    method VisitInstances(name: string, ghost root: string, ghost open: set<string>) returns (missing: Option<string>)
      requires Valid(root, open) && name in dags && name in open
      modifies this
      decreases dbDags.Keys - dags.Keys, 3
      ensures missing.None? ==> Valid(root, open) && dags.Keys >= old(dags.Keys) && nodes.Keys >= old(nodes.Keys)
      ensures missing.None? ==> Settled(dbDags, dbConfigs, name, dags.Keys, nodes.Keys)
      ensures missing.Some? ==> Refers(dbDags, root, missing.value) && missing.value !in dbDags
    {
      var instances := dbDags[name].nodes;
      for i := 0 to |instances|
        invariant Valid(root, open) && name in dags && dags.Keys >= old(dags.Keys) && nodes.Keys >= old(nodes.Keys)
        invariant forall n :: n in instances[..i] ==> Loaded(dbDags, dbConfigs, n, dags.Keys, nodes.Keys)
      {
        missing := VisitInstance(name, instances[i], root, open);
        if missing.Some? {
          return;
        }
        TakeStep(instances, i);
      }
      assert instances[..|instances|] == instances;
      AllLoaded(dbDags, dbConfigs, name, dags.Keys, nodes.Keys);
      return None;
    }

    /** One turn of that loop. */
    method VisitInstance(name: string, n: Instance, ghost root: string, ghost open: set<string>)
        returns (missing: Option<string>)
      requires Valid(root, open) && name in dags && name in open && name in dbDags && n in dbDags[name].nodes
      modifies this
      decreases dbDags.Keys - dags.Keys, 2
      ensures missing.None? ==> Valid(root, open) && dags.Keys >= old(dags.Keys) && nodes.Keys >= old(nodes.Keys)
      ensures missing.None? ==> Loaded(dbDags, dbConfigs, n, dags.Keys, nodes.Keys)
      ensures missing.Some? ==> Refers(dbDags, root, missing.value) && missing.value !in dbDags
    {
      missing := None;
      var sub := SubDagName(dbDags, n);
      if sub.Some? {
        assert RefersTo(dbDags, name, sub.value);
        ReferEnd(dbDags, root, name, sub.value);
        missing := Visit(sub.value, root, open);
      } else if n.typ !in nodes && n.typ in dbConfigs {
        nodes := nodes[n.typ := dbConfigs[n.typ]];
      }
    }
  }

  ghost predicate Loaded(dbDags: Dags, dbConfigs: Configs, n: Instance, dags: set<string>, nodes: set<string>) {
    var sub := SubDagName(dbDags, n);
    if sub.Some? then sub.value in dags else n.typ in dbConfigs ==> n.typ in nodes
  }

  lemma AllLoaded(dbDags: Dags, dbConfigs: Configs, name: string, dags: set<string>, nodes: set<string>)
    requires name in dbDags
    requires forall n :: n in dbDags[name].nodes ==> Loaded(dbDags, dbConfigs, n, dags, nodes)
    ensures Settled(dbDags, dbConfigs, name, dags, nodes)
  {
  }

  lemma ReferEnd(dags: Dags, a: string, b: string, r: string)
    requires Refers(dags, a, b) && RefersTo(dags, b, r)
    ensures Refers(dags, a, r)
  {
    var c :| RefPathBetween(dags, c, a, b);
    var longer := c + [r];
    forall i {:trigger longer[i]} | 0 < i < |longer| ensures RefersTo(dags, longer[i - 1], longer[i]) {
      if i < |c| {
        assert RefersTo(dags, c[i - 1], c[i]);
      }
    }
    assert RefPathBetween(dags, longer, a, r);
  }

  /** A loaded part of the database that misses nothing its DAGs need. */
  ghost predicate LoadedPart(dbDags: Dags, dbConfigs: Configs, dags: Dags, nodes: Configs) {
    && (forall d ::
        d in dags ==> d in dbDags && dags[d] == dbDags[d] && Settled(dbDags, dbConfigs, d, dags.Keys, nodes.Keys))
    && (forall t :: t in nodes ==> t in dbConfigs && nodes[t] == dbConfigs[t])
  }

  /** An instance of a loaded DAG stands for the same sub-DAG in the part as in the whole. */
  lemma SameReference(dbDags: Dags, dbConfigs: Configs, dags: Dags, nodes: Configs, d: string, n: Instance)
    requires LoadedPart(dbDags, dbConfigs, dags, nodes) && d in dags && n in dags[d].nodes
    ensures SubDagName(dags, n) == SubDagName(dbDags, n)
  {
    if SubDagName(dbDags, n).Some? {
      assert RefersTo(dbDags, d, SubDagName(dbDags, n).value);
    }
  }

  lemma SameCall(dbDags: Dags, dbConfigs: Configs, dags: Dags, nodes: Configs, d: string, r: string)
    requires LoadedPart(dbDags, dbConfigs, dags, nodes) && d in dags
    ensures RefersTo(dags, d, r) <==> RefersTo(dbDags, d, r)
    ensures RefersTo(dbDags, d, r) ==> r in dags
  {
    forall n | n in dags[d].nodes ensures SubDagName(dags, n) == SubDagName(dbDags, n) {
      SameReference(dbDags, dbConfigs, dags, nodes, d, n);
    }
  }

  lemma SamePlain(dbDags: Dags, dbConfigs: Configs, dags: Dags, nodes: Configs, d: string)
    requires LoadedPart(dbDags, dbConfigs, dags, nodes) && d in dags
    ensures forall t :: PlainIn(dags, d, t) <==> PlainIn(dbDags, d, t)
  {
    forall n | n in dags[d].nodes ensures SubDagName(dags, n) == SubDagName(dbDags, n) {
      SameReference(dbDags, dbConfigs, dags, nodes, d, n);
    }
  }

  lemma {:induction false} SamePaths(dbDags: Dags, dbConfigs: Configs, dags: Dags, nodes: Configs, c: seq<string>)
    requires LoadedPart(dbDags, dbConfigs, dags, nodes) && c != [] && c[0] in dags
    ensures RefPath(dags, c) <==> RefPath(dbDags, c)
    ensures RefPath(dbDags, c) ==> c[|c| - 1] in dags
    decreases |c|
  {
    if |c| > 1 {
      var front, d, r := c[..|c| - 1], c[|c| - 2], c[|c| - 1];
      SamePaths(dbDags, dbConfigs, dags, nodes, front);
      if RefPath(dags, front) {
        SameCall(dbDags, dbConfigs, dags, nodes, d, r);
      }
      LongerPaths(dbDags, dags, c);
    }
  }

  /** Paths in two databases agree if they agree without their last step and on that step. */
  lemma LongerPaths(a: Dags, b: Dags, c: seq<string>)
    requires |c| > 1 && (RefPath(a, c[..|c| - 1]) <==> RefPath(b, c[..|c| - 1]))
    requires RefPath(a, c[..|c| - 1]) ==> (RefersTo(a, c[|c| - 2], c[|c| - 1]) <==> RefersTo(b, c[|c| - 2], c[|c| - 1]))
    ensures RefPath(a, c) <==> RefPath(b, c)
    ensures RefPath(a, c) ==> RefersTo(b, c[|c| - 2], c[|c| - 1])
  {
    LastCall(a, c);
    LastCall(b, c);
  }

  lemma LastCall(dags: Dags, c: seq<string>)
    requires |c| > 1
    ensures RefPath(dags, c) <==> RefPath(dags, c[..|c| - 1]) && RefersTo(dags, c[|c| - 2], c[|c| - 1])
  {
    var front := c[..|c| - 1];
    if RefPath(dags, front) && RefersTo(dags, c[|c| - 2], c[|c| - 1]) {
      forall i {:trigger c[i]} | 0 < i < |c| ensures RefersTo(dags, c[i - 1], c[i]) {
        if i < |front| {
          assert RefersTo(dags, front[i - 1], front[i]);
        }
      }
    }
    if RefPath(dags, c) {
      assert RefersTo(dags, c[|c| - 2], c[|c| - 1]);
      forall i {:trigger front[i]} | 0 < i < |front| ensures RefersTo(dags, front[i - 1], front[i]) {
        assert RefersTo(dags, c[i - 1], c[i]);
      }
    }
  }

  /** Closing the loaded part is the same as closing the whole database. */
  lemma PartClosesLikeWhole(dbDags: Dags, dbConfigs: Configs, dags: Dags, nodes: Configs, root: string)
    requires LoadedPart(dbDags, dbConfigs, dags, nodes) && root in dags
    ensures Closable(dags, nodes, root) <==> Closable(dbDags, dbConfigs, root)
    ensures forall closure :: IsClosure(dags, nodes, root, closure) && Closable(dags, nodes, root) ==>
              IsClosure(dbDags, dbConfigs, root, closure)
  {
    forall c | c != [] && c[0] == root
      ensures RefPath(dags, c) <==> RefPath(dbDags, c)
      ensures RefPath(dbDags, c) ==> c[|c| - 1] in dags
    {
      SamePaths(dbDags, dbConfigs, dags, nodes, c);
    }
    forall d | d in dags ensures KnownDag(dags, nodes, d) <==> KnownDag(dbDags, dbConfigs, d) {
      SamePlain(dbDags, dbConfigs, dags, nodes, d);
    }
    forall d ensures Refers(dags, root, d) <==> Refers(dbDags, root, d)
      ensures Refers(dags, root, d) ==> d in dags
    {
      SameReach(dbDags, dags, root, d);
    }
    forall c | c != [] && c[0] == root && RefPath(dags, c)
      ensures SoundPath(dags, nodes, [], c) <==> SoundPath(dbDags, dbConfigs, [], c)
    {
    }
    forall t ensures UsedBelow(dags, root, t) <==> UsedBelow(dbDags, root, t) {
      SameUse(dbDags, dbConfigs, dags, nodes, root, t);
    }
  }

  lemma SameReach(dbDags: Dags, dags: Dags, root: string, d: string)
    requires forall c :: c != [] && c[0] == root ==> (RefPath(dags, c) <==> RefPath(dbDags, c))
    requires forall c :: c != [] && c[0] == root && RefPath(dbDags, c) ==> c[|c| - 1] in dags
    ensures Refers(dags, root, d) <==> Refers(dbDags, root, d)
    ensures Refers(dags, root, d) ==> d in dags
  {
    if Refers(dags, root, d) {
      var c :| RefPathBetween(dags, c, root, d);
      assert RefPathBetween(dbDags, c, root, d);
    }
    if Refers(dbDags, root, d) {
      var c :| RefPathBetween(dbDags, c, root, d);
      assert RefPathBetween(dags, c, root, d);
    }
  }

  lemma SameUse(dbDags: Dags, dbConfigs: Configs, dags: Dags, nodes: Configs, root: string, t: string)
    requires LoadedPart(dbDags, dbConfigs, dags, nodes)
    requires forall d :: Refers(dags, root, d) <==> Refers(dbDags, root, d)
    requires forall d :: Refers(dags, root, d) ==> d in dags
    ensures UsedBelow(dags, root, t) <==> UsedBelow(dbDags, root, t)
  {
    if UsedBelow(dags, root, t) {
      var d :| Refers(dags, root, d) && PlainIn(dags, d, t);
      SamePlain(dbDags, dbConfigs, dags, nodes, d);
    }
    if UsedBelow(dbDags, root, t) {
      var d :| Refers(dbDags, root, d) && PlainIn(dbDags, d, t);
      SamePlain(dbDags, dbConfigs, dags, nodes, d);
    }
  }

  /** `_load_dag_execution_closure`: the two phases give what closing the whole database would. */
  method LoadExecutionClosure(root: string, dbDags: Dags, dbConfigs: Configs)
      returns (r: Result<ExecutionClosure, ClosureError>)
    ensures r.Ok? <==> Closable(dbDags, dbConfigs, root)
    ensures r.Ok? ==> IsClosure(dbDags, dbConfigs, root, r.value)
  {
    var loader := new ClosureLoader(dbDags, dbConfigs);
    RefersItself(dbDags, root);
    var missing := loader.Visit(root, root, {});
    if missing.Some? {
      MissingMeansUnclosable(dbDags, dbConfigs, root, missing.value);
      return Err(MissingDag(missing.value));
    }
    assert LoadedPart(dbDags, dbConfigs, loader.dags, loader.nodes);
    PartClosesLikeWhole(dbDags, dbConfigs, loader.dags, loader.nodes, root);
    r := BuildClosure(root, loader.dags, loader.nodes);
  }

  lemma MissingMeansUnclosable(dags: Dags, configs: Configs, root: string, d: string)
    requires Refers(dags, root, d) && d !in dags
    ensures !Closable(dags, configs, root)
  {
    var c :| RefPathBetween(dags, c, root, d);
    assert !SoundPath(dags, configs, [], c);
  }
}
