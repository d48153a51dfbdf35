/** `validate_sub_dag_nesting`, and the guards that stop a sub-DAG call at run time. */
module Nesting {
  import opened Wrappers
  import opened Graphs
  import opened DagModels

  type Dags = map<string, DagConfig>

  /** `_dag_ref`: the DAG a node stands for, as the static check sees it. */
  function DagRef(dags: Dags, node: Instance): (ref: Option<string>)
    ensures ref.Some? ==> ref.value in dags
  {
    if node.typ == "dag" && node.dagRef.Some? && node.dagRef.value in dags then node.dagRef
    else if node.typ in dags then Some(node.typ)
    else None
  }

  /**
   The DAG the runner calls for a node: a looped node calls none, and `_execute_node` tests that `dag_ref`
   is not empty, not that it is known.
   */
  function RuntimeRef(dags: Dags, node: Instance): Option<string> {
    if node.hasLoop then None
    else if node.typ == "dag" && node.dagRef.Some? && node.dagRef.value != "" then node.dagRef
    else if node.typ in dags then Some(node.typ)
    else None
  }

  predicate RefResolves(dags: Dags, node: Instance) {
    node.typ == "dag" && node.dagRef.Some? ==> (node.dagRef.value != "" <==> node.dagRef.value in dags)
  }

  /**
   The static check and the runner see the same DAG behind a node exactly when the reference of a loop-free
   node resolves, and when a looped node has none.
   */
  lemma RefsAgreeWhenResolved(dags: Dags, node: Instance)
    ensures DagRef(dags, node) == RuntimeRef(dags, node) <==>
              if node.hasLoop then DagRef(dags, node).None? else RefResolves(dags, node)
  {
  }

  function Refs(dags: Dags, nodes: seq<Instance>): (refs: seq<string>)
    ensures forall r :: r in refs ==> r in dags
    ensures forall r {:trigger r in refs} :: r in refs <==> exists n :: n in nodes && DagRef(dags, n) == Some(r)
  {
    if nodes == [] then []
    else
      var rest := Refs(dags, nodes[1..]);
      assert nodes == [nodes[0]] + nodes[1..];
      if DagRef(dags, nodes[0]).Some? then [DagRef(dags, nodes[0]).value] + rest else rest
  }

  ghost function RefLinks(dags: Dags): Links {
    map name | name in dags :: Refs(dags, dags[name].nodes)
  }

  datatype Verdict = Fine | Cyclic(chain: seq<string>) | TooDeep(chain: seq<string>)

  ghost predicate Path(dags: Dags, path: seq<string>) {
    Distinct(path) && Elements(path) <= dags.Keys
  }

  lemma PathFits(dags: Dags, path: seq<string>)
    requires Path(dags, path)
    ensures |path| <= |dags.Keys|
  {
    DistinctCardinality(path);
    SubsetCardinality(Elements(path), dags.Keys);
  }

  /** `_visit_sub_dag`. It ends because the names on the path differ. */
  function Visit(dags: Dags, name: string, maxDepth: int, path: seq<string>): Verdict
    requires name in dags && Path(dags, path)
    decreases |dags.Keys| - |path|, 0
  {
    var chain := path + [name];
    if name in path then Cyclic(chain)
    else if |chain| > maxDepth then TooDeep(chain)
    else
      assert Elements(chain) == Elements(path) + {name};
      PathFits(dags, chain);
      VisitAll(dags, Refs(dags, dags[name].nodes), maxDepth, chain)
  }

  /** The loop of `_visit_sub_dag` over the nodes that stand for a DAG. */
  function VisitAll(dags: Dags, refs: seq<string>, maxDepth: int, chain: seq<string>): Verdict
    requires Path(dags, chain) && forall r :: r in refs ==> r in dags
    decreases |dags.Keys| - |chain|, |refs| + 1
  {
    if refs == [] then Fine
    else
      var first := Visit(dags, refs[0], maxDepth, chain);
      if first.Fine? then VisitAll(dags, refs[1..], maxDepth, chain) else first
  }

  /** A chain of references that starts at `name`. */
  ghost predicate ChainFrom(dags: Dags, name: string, c: seq<string>) {
    IsWalk(RefLinks(dags), c) && c != [] && c[0] == name
  }

  ghost predicate WithinLimits(path: seq<string>, maxDepth: int) {
    Distinct(path) && |path| <= maxDepth
  }

  /** Acceptance bounds every chain below the visited name. */
  lemma {:induction false} AcceptedChainsWithinLimits(dags: Dags, name: string, maxDepth: int, path: seq<string>,
      c: seq<string>)
    requires name in dags && Path(dags, path)
    requires Visit(dags, name, maxDepth, path).Fine? && ChainFrom(dags, name, c)
    ensures WithinLimits(path + c, maxDepth)
    decreases |c|
  {
    var chain := path + [name];
    if |c| == 1 {
      assert path + c == chain;
    } else {
      assert Elements(chain) == Elements(path) + {name};
      PathFits(dags, chain);
      var refs := Refs(dags, dags[name].nodes);
      assert c[1] in RefLinks(dags)[c[0]];
      AllVisitsAccepted(dags, refs, maxDepth, chain, c[1]);
      assert ChainFrom(dags, c[1], c[1..]);
      AcceptedChainsWithinLimits(dags, c[1], maxDepth, chain, c[1..]);
      assert chain + c[1..] == path + c;
    }
  }

  lemma {:induction false} AllVisitsAccepted(dags: Dags, refs: seq<string>, maxDepth: int, chain: seq<string>,
      ref: string)
    requires Path(dags, chain) && (forall r :: r in refs ==> r in dags) && ref in refs
    requires VisitAll(dags, refs, maxDepth, chain).Fine?
    ensures Visit(dags, ref, maxDepth, chain).Fine?
  {
    if ref != refs[0] {
      AllVisitsAccepted(dags, refs[1..], maxDepth, chain, ref);
    }
  }

  /** A refusal names a chain that really breaks a limit. */
  lemma {:induction false} RefusedChain(dags: Dags, name: string, maxDepth: int, path: seq<string>)
      returns (c: seq<string>)
    requires name in dags && Path(dags, path)
    requires !Visit(dags, name, maxDepth, path).Fine?
    ensures ChainFrom(dags, name, c) && !WithinLimits(path + c, maxDepth)
    ensures Visit(dags, name, maxDepth, path).chain == path + c
    decreases |dags.Keys| - |path|, 0
  {
    c := [name];
    var chain := path + [name];
    if name in path {
      var i :| 0 <= i < |path| && path[i] == name;
      assert chain[i] == chain[|path|];
    } else if |chain| <= maxDepth {
      assert Elements(chain) == Elements(path) + {name};
      PathFits(dags, chain);
      var refs := Refs(dags, dags[name].nodes);
      var below := RefusedAmong(dags, refs, maxDepth, chain);
      c := [name] + below;
      assert below[0] in RefLinks(dags)[name];
      PrependWalk(RefLinks(dags), name, below);
      assert path + c == chain + below;
    }
  }

  lemma {:induction false} RefusedAmong(dags: Dags, refs: seq<string>, maxDepth: int, chain: seq<string>)
      returns (c: seq<string>)
    requires Path(dags, chain) && forall r :: r in refs ==> r in dags
    requires !VisitAll(dags, refs, maxDepth, chain).Fine?
    ensures c != [] && c[0] in refs && ChainFrom(dags, c[0], c) && !WithinLimits(chain + c, maxDepth)
    ensures VisitAll(dags, refs, maxDepth, chain).chain == chain + c
    decreases |dags.Keys| - |chain|, |refs| + 1
  {
    if Visit(dags, refs[0], maxDepth, chain).Fine? {
      c := RefusedAmong(dags, refs[1..], maxDepth, chain);
    } else {
      c := RefusedChain(dags, refs[0], maxDepth, chain);
    }
  }

  /** Every chain of references repeats no name and is no longer than the limit. */
  ghost predicate NestingWithinLimits(dags: Dags, maxDepth: int) {
    forall name, c :: ChainFrom(dags, name, c) ==> WithinLimits(c, maxDepth)
  }

  /**
   `validate_sub_dag_nesting`, over the DAG names in their order: it accepts exactly when every chain is within
   the limits.
   */
  method ValidateSubDagNesting(dags: Dags, names: seq<string>, maxDepth: int) returns (verdict: Verdict)
    requires Elements(names) == dags.Keys
    ensures verdict.Fine? <==> NestingWithinLimits(dags, maxDepth)
    ensures !verdict.Fine? ==> exists name ::
        ChainFrom(dags, name, verdict.chain) && !WithinLimits(verdict.chain, maxDepth)
  {
    for i := 0 to |names|
      invariant forall name :: name in names[..i] ==> Visit(dags, name, maxDepth, []).Fine?
    {
      verdict := Visit(dags, names[i], maxDepth, []);
      if !verdict.Fine? {
        ghost var c := RefusedChain(dags, names[i], maxDepth, []);
        assert [] + c == c;
        assert ChainFrom(dags, names[i], verdict.chain);
        return;
      }
    }
    forall name, c | ChainFrom(dags, name, c) ensures WithinLimits(c, maxDepth) {
      assert name in names;
      AcceptedChainsWithinLimits(dags, name, maxDepth, [], c);
      assert [] + c == c;
    }
    return Fine;
  }

  // ----- Sub-DAG calls at run time -----

  /** The part of a runner that the guards read: `path` and `depth`. */
  datatype Frame = Frame(path: seq<string>, depth: int)

  datatype Entry = CycleFailure | DepthFailure | Entered(frame: Frame)

  /** A top-level runner: `depth` is 1 and `run` puts the graph's own name on the empty path. */
  function StartFrame(root: string): Frame {
    Frame([root], 1)
  }

  /** The guards of `_execute_sub_dag`, and the runner it makes when both pass. */
  function EnterSubDag(frame: Frame, limit: int, ref: string): Entry {
    if ref in frame.path then CycleFailure
    else if frame.depth >= limit then DepthFailure
    else Entered(Frame(frame.path + [ref], frame.depth + 1))
  }

  /** Nested calls, each from the DAG entered last. */
  function Descend(frame: Frame, limit: int, refs: seq<string>): Entry
    decreases |refs|
  {
    if refs == [] then Entered(frame)
    else
      var next := EnterSubDag(frame, limit, refs[0]);
      if next.Entered? then Descend(next.frame, limit, refs[1..]) else next
  }

  ghost predicate CanCall(dags: Dags, caller: string, ref: string) {
    caller in dags && exists n :: n in dags[caller].nodes && RuntimeRef(dags, n) == Some(ref)
  }

  /** Calls that the instances of the DAGs can make one inside the other. */
  ghost predicate CallChain(dags: Dags, c: seq<string>) {
    && c != [] && c[0] in dags
    && forall i :: 0 < i < |c| ==> CanCall(dags, c[i - 1], c[i])
  }

  /** The references that are followed at run time, those of loop-free nodes, resolve. */
  ghost predicate AllRefsResolve(dags: Dags) {
    forall name, n :: name in dags && n in dags[name].nodes && !n.hasLoop ==> RefResolves(dags, n)
  }

  /** Some loop-free node of the one DAG stands for the other. */
  ghost predicate LoopFreeStep(dags: Dags, a: string, b: string) {
    a in dags && exists n :: n in dags[a].nodes && !n.hasLoop && DagRef(dags, n) == Some(b)
  }

  /** A chain of references, each made by a loop-free node. */
  ghost predicate LoopFreeChain(dags: Dags, c: seq<string>) {
    && c != [] && c[0] in dags
    && forall i :: 0 < i < |c| ==> LoopFreeStep(dags, c[i - 1], c[i])
  }

  lemma CallIsLoopFreeStep(dags: Dags, caller: string, ref: string)
    requires AllRefsResolve(dags)
    ensures CanCall(dags, caller, ref) <==> LoopFreeStep(dags, caller, ref)
  {
    if CanCall(dags, caller, ref) {
      var n :| n in dags[caller].nodes && RuntimeRef(dags, n) == Some(ref);
      RefsAgreeWhenResolved(dags, n);
    }
    if LoopFreeStep(dags, caller, ref) {
      var n :| n in dags[caller].nodes && !n.hasLoop && DagRef(dags, n) == Some(ref);
      RefsAgreeWhenResolved(dags, n);
    }
  }

  lemma CallChainIsLoopFree(dags: Dags, c: seq<string>)
    requires AllRefsResolve(dags)
    ensures CallChain(dags, c) <==> LoopFreeChain(dags, c)
  {
    forall i | 0 < i < |c| ensures CanCall(dags, c[i - 1], c[i]) <==> LoopFreeStep(dags, c[i - 1], c[i]) {
      CallIsLoopFreeStep(dags, c[i - 1], c[i]);
    }
  }

  /** A loop-free chain is one of the chains that the static check follows. */
  lemma LoopFreeChainIsChain(dags: Dags, c: seq<string>)
    requires LoopFreeChain(dags, c)
    ensures ChainFrom(dags, c[0], c)
  {
    var links := RefLinks(dags);
    forall i {:trigger c[i]} | 0 < i < |c| ensures c[i - 1] in links && c[i] in links[c[i - 1]] && c[i] in links {
      assert LoopFreeStep(dags, c[i - 1], c[i]);
    }
    forall i | 0 <= i < |c| ensures c[i] in links {
      assert i > 0 ==> c[i] in links[c[i - 1]];
    }
  }

  /** Neither guard fires on the way exactly when the names differ and the depth stays within the limit. */
  lemma {:induction false} DescendSucceeds(frame: Frame, limit: int, refs: seq<string>)
    requires Distinct(frame.path) && frame.depth == |frame.path|
    ensures Descend(frame, limit, refs).Entered? <==>
              Distinct(frame.path + refs) && (refs != [] ==> |frame.path + refs| <= limit)
    decreases |refs|
  {
    if refs == [] {
      assert frame.path + refs == frame.path;
    } else {
      var next := EnterSubDag(frame, limit, refs[0]);
      var longer := frame.path + [refs[0]];
      assert longer + refs[1..] == frame.path + refs;
      if next.Entered? {
        DescendSucceeds(next.frame, limit, refs[1..]);
      } else if next.CycleFailure? {
        var i :| 0 <= i < |frame.path| && frame.path[i] == refs[0];
        assert (frame.path + refs)[i] == (frame.path + refs)[|frame.path|];
      }
    }
  }

  ghost predicate GuardsNeverFire(dags: Dags, limit: int) {
    forall c :: CallChain(dags, c) ==> Descend(StartFrame(c[0]), limit, c[1..]).Entered?
  }

  lemma CallChainRuns(dags: Dags, limit: int, c: seq<string>)
    requires limit >= 1 && c != []
    ensures Descend(StartFrame(c[0]), limit, c[1..]).Entered? <==> WithinLimits(c, limit)
  {
    DescendSucceeds(StartFrame(c[0]), limit, c[1..]);
    assert [c[0]] + c[1..] == c;
  }

  /** A chain that breaks a limit and is made by loop-free nodes only. */
  ghost predicate BreaksLoopFree(dags: Dags, limit: int, c: seq<string>) {
    LoopFreeChain(dags, c) && !WithinLimits(c, limit)
  }

  /** A run-time guard can fire exactly if some chain of loop-free nodes breaks a limit. */
  lemma GuardFiresExactly(dags: Dags, limit: int)
    requires AllRefsResolve(dags) && limit >= 1
    ensures !GuardsNeverFire(dags, limit) <==> exists c :: BreaksLoopFree(dags, limit, c)
  {
    forall c | c != []
      ensures CallChain(dags, c) <==> LoopFreeChain(dags, c)
      ensures Descend(StartFrame(c[0]), limit, c[1..]).Entered? <==> WithinLimits(c, limit)
    {
      CallChainIsLoopFree(dags, c);
      CallChainRuns(dags, limit, c);
    }
    if !GuardsNeverFire(dags, limit) {
      var c :| CallChain(dags, c) && !Descend(StartFrame(c[0]), limit, c[1..]).Entered?;
      assert BreaksLoopFree(dags, limit, c);
    }
    if exists c :: BreaksLoopFree(dags, limit, c) {
      var c :| BreaksLoopFree(dags, limit, c);
      assert CallChain(dags, c);
    }
  }

  /**
   Where references resolve, a configuration that the static check accepts can never trip a run-time
   guard. One that it refuses can, exactly if some chain that breaks a limit uses loop-free nodes only.
   */
  lemma NestingCheckMatchesGuards(dags: Dags, limit: int)
    requires AllRefsResolve(dags) && limit >= 1
    ensures NestingWithinLimits(dags, limit) ==> GuardsNeverFire(dags, limit)
    ensures (NestingWithinLimits(dags, limit) <==> GuardsNeverFire(dags, limit)) <==>
              (NestingWithinLimits(dags, limit) || exists c :: BreaksLoopFree(dags, limit, c))
  {
    GuardFiresExactly(dags, limit);
    if exists c :: BreaksLoopFree(dags, limit, c) {
      var c :| BreaksLoopFree(dags, limit, c);
      LoopFreeChainIsChain(dags, c);
    }
  }

  // ----- A looped node that the static check counts and the runner does not -----

  function LoopedSelf(): Dags {
    var node := Instance("again", "dag", Some("a"), false, Barrier, true, None, Null);
    map["a" := DagConfig("a", [node], [])]
  }

  /** A DAG that refers to itself through a looped node is refused, although no guard can fire on it. */
  lemma LoopedSelfIsRefusedInVain(limit: int)
    requires limit >= 1
    ensures AllRefsResolve(LoopedSelf()) && !NestingWithinLimits(LoopedSelf(), limit)
        && GuardsNeverFire(LoopedSelf(), limit)
  {
    var dags := LoopedSelf();
    var node := dags["a"].nodes[0];
    assert DagRef(dags, node) == Some("a") && node in dags["a"].nodes;
    assert "a" in RefLinks(dags)["a"];
    var c := ["a", "a"];
    assert ChainFrom(dags, "a", c) && !WithinLimits(c, limit) by {
      assert c[0] == c[1];
    }
    forall c | LoopFreeChain(dags, c) ensures WithinLimits(c, limit) {
      ShortChain(dags, c);
    }
    GuardFiresExactly(dags, limit);
  }

  /** No chain of loop-free nodes is longer than one name where no such node refers to anything. */
  lemma ShortChain(dags: Dags, c: seq<string>)
    requires LoopFreeChain(dags, c) && forall d, n :: d in dags && n in dags[d].nodes ==> n.hasLoop
    ensures |c| == 1
  {
    FirstStep(dags, c);
    assert forall a, b :: !LoopFreeStep(dags, a, b);
  }

  lemma FirstStep(dags: Dags, c: seq<string>)
    requires LoopFreeChain(dags, c)
    ensures |c| > 1 ==> LoopFreeStep(dags, c[0], c[1])
  {
    if |c| > 1 {
      var i := 1;
      assert LoopFreeStep(dags, c[i - 1], c[i]);
    }
  }
}
