/** `load_graph`: checks a DAG configuration and builds the graph the runner works on. */
module Loader {
  import opened Wrappers
  import opened Graphs
  import opened DagModels
  import opened CycleCheck

  datatype LoadError =
    | DuplicateIds
    | MissingNodeConfig(types: seq<string>)
    | UnknownNode(src: NodeId, dst: NodeId)
    | SinkHasOutgoing(name: string)
    | SourceHasIncoming(name: string)
    | IoMismatch(upstream: string, downstream: string)
    | GraphHasCycle

  function Ids(nodes: seq<Instance>): (ids: seq<NodeId>)
    ensures |ids| == |nodes| && forall i :: 0 <= i < |ids| ==> ids[i] == nodes[i].id
  {
    seq(|nodes|, i requires 0 <= i < |nodes| => nodes[i].id)
  }

  /** `_is_sub_dag_node`; `dags` is the set of known DAG names, when there is one. */
  predicate IsSubDag(node: Instance, dags: Option<set<string>>) {
    if node.typ == "dag" && node.dagRef.Some? && node.dagRef.value != "" then
      dags.None? || node.dagRef.value in dags.value
    else
      dags.Some? && node.typ in dags.value
  }

  // ----- What the built graph must contain, read off the list of configured edges -----

  ghost function SuccessorsIn(es: seq<DagEdge>, u: NodeId): seq<NodeId> {
    if es == [] then []
    else SuccessorsIn(es[..|es| - 1], u) + if es[|es| - 1].src == u then [es[|es| - 1].dst] else []
  }

  ghost function PredecessorsIn(es: seq<DagEdge>, v: NodeId): seq<NodeId> {
    if es == [] then []
    else PredecessorsIn(es[..|es| - 1], v) + if es[|es| - 1].dst == v then [es[|es| - 1].src] else []
  }

  ghost function LinksIn(config: DagConfig): Links {
    map u | u in Elements(Ids(config.nodes)) :: SuccessorsIn(config.edges, u)
  }

  ghost predicate Joins(e: DagEdge, u: NodeId, v: NodeId) {
    e.src == u && e.dst == v
  }

  /** What an edge can be marked with. */
  datatype Mark =
    | AnyMark
    | FanOutMark
    | FanInMark
    | ConditionMark
    | OptionalMark(instances: map<NodeId, Instance>, configs: map<string, NodeConfig>, subs: set<NodeId>)

  predicate Has(e: DagEdge, mark: Mark) {
    match mark
    case AnyMark => true
    case FanOutMark => e.fanOut
    case FanInMark => e.fanIn
    case ConditionMark => e.condition != ""
    case OptionalMark(instances, configs, subs) => EdgeOptional(e, instances, configs, subs)
  }

  /** The last edge from `u` to `v` with the mark, if any. */
  ghost function LastEdge(es: seq<DagEdge>, u: NodeId, v: NodeId, mark: Mark): Option<DagEdge> {
    if es == [] then None
    else if Joins(es[|es| - 1], u, v) && Has(es[|es| - 1], mark) then Some(es[|es| - 1])
    else LastEdge(es[..|es| - 1], u, v, mark)
  }

  ghost predicate SomeEdge(es: seq<DagEdge>, u: NodeId, v: NodeId, mark: Mark) {
    exists i :: 0 <= i < |es| && Joins(es[i], u, v) && Has(es[i], mark)
  }

  lemma {:induction false} SuccessorsMirrorPredecessors(es: seq<DagEdge>, u: NodeId, v: NodeId)
    ensures multiset(SuccessorsIn(es, u))[v] == multiset(PredecessorsIn(es, v))[u]
  {
    if es != [] {
      SuccessorsMirrorPredecessors(es[..|es| - 1], u, v);
    }
  }

  lemma {:induction false} SuccessorsAreTargets(es: seq<DagEdge>, u: NodeId, v: NodeId)
    ensures v in SuccessorsIn(es, u) <==> SomeEdge(es, u, v, AnyMark)
    ensures u in PredecessorsIn(es, v) <==> SomeEdge(es, u, v, AnyMark)
  {
    if es != [] {
      var shorter := es[..|es| - 1];
      SuccessorsAreTargets(shorter, u, v);
      if SomeEdge(es, u, v, AnyMark) && !Joins(es[|es| - 1], u, v) {
        var i :| 0 <= i < |es| && Joins(es[i], u, v);
        assert shorter[i] == es[i];
      }
      if SomeEdge(shorter, u, v, AnyMark) {
        var i :| 0 <= i < |shorter| && Joins(shorter[i], u, v);
        assert es[i] == shorter[i];
      }
      assert Joins(es[|es| - 1], u, v) ==> SomeEdge(es, u, v, AnyMark);
    }
  }

  /** The rules an edge has to meet: known ends, legal roles, matching types. */
  ghost predicate LegalEdge(e: DagEdge, instances: map<NodeId, Instance>, configs: map<string, NodeConfig>,
      subs: set<NodeId>) {
    && e.src in instances && e.dst in instances
    && (e.src !in subs && e.dst !in subs ==>
          && instances[e.src].typ in configs && instances[e.dst].typ in configs
          && configs[instances[e.src].typ].role != Sink
          && configs[instances[e.dst].typ].role != Source
          && (configs[instances[e.src].typ].outputType == configs[instances[e.dst].typ].inputType
              || configs[instances[e.src].typ].outputType == "Any"
              || configs[instances[e.dst].typ].inputType == "Any"))
  }

  function CheckRole(upstream: NodeConfig, downstream: NodeConfig): Option<LoadError> {
    if upstream.role == Sink then Some(SinkHasOutgoing(upstream.name))
    else if downstream.role == Source then Some(SourceHasIncoming(downstream.name))
    else None
  }

  function CheckIo(upstream: NodeConfig, downstream: NodeConfig): Option<LoadError> {
    if upstream.outputType == "Any" || downstream.inputType == "Any" then None
    else if upstream.outputType == downstream.inputType then None
    else Some(IoMismatch(upstream.name, downstream.name))
  }

  predicate EdgeOptional(e: DagEdge, instances: map<NodeId, Instance>, configs: map<string, NodeConfig>,
      subs: set<NodeId>) {
    || e.optional
    || (e.src !in subs && e.src in instances && instances[e.src].typ in configs
        && configs[instances[e.src].typ].optional)
    || (e.src in instances && instances[e.src].optional)
  }

  ghost predicate TypesKnown(nodes: seq<Instance>, configs: map<string, NodeConfig>, dags: Option<set<string>>) {
    forall n :: n in nodes && !IsSubDag(n, dags) ==> n.typ in configs
  }

  ghost predicate EdgesLegal(config: DagConfig, configs: map<string, NodeConfig>, dags: Option<set<string>>) {
    var instances, subs := InstanceMap(config.nodes), SubDags(config.nodes, dags);
    forall e :: e in config.edges ==> LegalEdge(e, instances, configs, subs)
  }

  /** What can be loaded: unique ids, known node types, legal edges, no cycle. */
  ghost predicate Loadable(config: DagConfig, configs: map<string, NodeConfig>, dags: Option<set<string>>) {
    && Distinct(Ids(config.nodes))
    && TypesKnown(config.nodes, configs, dags)
    && EdgesLegal(config, configs, dags)
    && Acyclic(LinksIn(config))
  }

  /** `{node.id: node for node in config.nodes}`: a later node replaces an earlier one with the same id. */
  function InstanceMap(nodes: seq<Instance>): map<NodeId, Instance> {
    if nodes == [] then map[]
    else InstanceMap(nodes[..|nodes| - 1])[nodes[|nodes| - 1].id := nodes[|nodes| - 1]]
  }

  lemma {:induction false} InstanceMapContents(nodes: seq<Instance>)
    ensures InstanceMap(nodes).Keys == Elements(Ids(nodes))
    ensures forall id :: id in InstanceMap(nodes) ==> InstanceMap(nodes)[id] in nodes && InstanceMap(nodes)[id].id == id
  {
    if nodes != [] {
      var front, last := nodes[..|nodes| - 1], nodes[|nodes| - 1];
      InstanceMapContents(front);
      assert Ids(nodes) == Ids(front) + [last.id];
      assert Elements(Ids(nodes)) == Elements(Ids(front)) + {last.id};
    }
  }

  lemma {:induction false} SizeTellsDistinct<T>(s: seq<T>)
    ensures |Elements(s)| <= |s|
    ensures |Elements(s)| == |s| <==> Distinct(s)
  {
    if s != [] {
      var front, last := s[..|s| - 1], s[|s| - 1];
      SizeTellsDistinct(front);
      assert Elements(s) == Elements(front) + {last};
      if Distinct(s) {
        assert last !in front;
      }
    }
  }

  lemma SizeTellsDuplicates(nodes: seq<Instance>)
    ensures |InstanceMap(nodes)| == |nodes| <==> Distinct(Ids(nodes))
  {
    InstanceMapContents(nodes);
    SizeTellsDistinct(Ids(nodes));
    assert |InstanceMap(nodes)| == |InstanceMap(nodes).Keys|;
  }

  function SubDags(nodes: seq<Instance>, dags: Option<set<string>>): set<NodeId> {
    set n | n in nodes && IsSubDag(n, dags) :: n.id
  }

  /** The node and edge parts of a graph are exactly what the configuration lists. */
  ghost predicate Describes(config: DagConfig, configs: map<string, NodeConfig>, dags: Option<set<string>>,
      g: DagGraph) {
    var instances, subs := InstanceMap(config.nodes), SubDags(config.nodes, dags);
    && g.name == config.name
    && g.nodes == Ids(config.nodes)
    && g.instances == instances
    && EdgesDescribed(config.edges, Elements(g.nodes), OptionalMark(instances, configs, subs), g)
  }

  ghost predicate LinksDescribed(es: seq<DagEdge>, ids: set<NodeId>, edges: Links, reverse: Links) {
    && edges.Keys == ids && reverse.Keys == ids
    && forall u :: u in ids ==> edges[u] == SuccessorsIn(es, u) && reverse[u] == PredecessorsIn(es, u)
  }

  ghost predicate MarkDescribed(es: seq<DagEdge>, marked: set<Edge>, mark: Mark) {
    forall u, v :: (u, v) in marked <==> SomeEdge(es, u, v, mark)
  }

  ghost predicate ConditionsDescribed(es: seq<DagEdge>, conditions: map<Edge, string>) {
    forall u, v ::
      var last := LastEdge(es, u, v, ConditionMark);
      ((u, v) in conditions <==> last.Some?) && (last.Some? ==> conditions[(u, v)] == last.value.condition)
  }

  ghost predicate ModesDescribed(es: seq<DagEdge>, modes: map<Edge, FanInMode>) {
    forall u, v ::
      var last := LastEdge(es, u, v, AnyMark);
      ((u, v) in modes <==> last.Some?) && (last.Some? ==> modes[(u, v)] == last.value.fanInMode)
  }

  ghost predicate EdgesDescribed(es: seq<DagEdge>, ids: set<NodeId>, optional: Mark, g: DagGraph) {
    && LinksDescribed(es, ids, g.edges, g.reverse)
    && MarkDescribed(es, g.fanOut, FanOutMark)
    && MarkDescribed(es, g.fanIn, FanInMark)
    && MarkDescribed(es, g.optional, optional)
    && ConditionsDescribed(es, g.conditions)
    && ModesDescribed(es, g.fanInModes)
  }

  /** One turn of the loop over the configured edges. */
  function AddEdge(g: DagGraph, e: DagEdge, optional: bool): DagGraph
    requires e.src in g.edges && e.dst in g.reverse
  {
    g.(
      edges := g.edges[e.src := g.edges[e.src] + [e.dst]],
      reverse := g.reverse[e.dst := g.reverse[e.dst] + [e.src]],
      fanOut := if e.fanOut then g.fanOut + {(e.src, e.dst)} else g.fanOut,
      fanIn := if e.fanIn then g.fanIn + {(e.src, e.dst)} else g.fanIn,
      optional := if optional then g.optional + {(e.src, e.dst)} else g.optional,
      conditions := if e.condition != "" then g.conditions[(e.src, e.dst) := e.condition] else g.conditions,
      fanInModes := g.fanInModes[(e.src, e.dst) := e.fanInMode])
  }

  lemma MarkStep(es: seq<DagEdge>, e: DagEdge, marked: set<Edge>, mark: Mark)
    requires MarkDescribed(es, marked, mark)
    ensures MarkDescribed(es + [e], if Has(e, mark) then marked + {(e.src, e.dst)} else marked, mark)
  {
    var longer := es + [e];
    forall u, v ensures SomeEdge(longer, u, v, mark) <==> SomeEdge(es, u, v, mark) || (Joins(e, u, v) && Has(e, mark)) {
      if SomeEdge(es, u, v, mark) {
        var i :| 0 <= i < |es| && Joins(es[i], u, v) && Has(es[i], mark);
        assert longer[i] == es[i];
      }
      assert longer[|es|] == e;
    }
  }

  lemma LinksStep(es: seq<DagEdge>, e: DagEdge, ids: set<NodeId>, edges: Links, reverse: Links)
    requires LinksDescribed(es, ids, edges, reverse) && e.src in ids && e.dst in ids
    ensures LinksDescribed(es + [e], ids, edges[e.src := edges[e.src] + [e.dst]],
        reverse[e.dst := reverse[e.dst] + [e.src]])
  {
    assert (es + [e])[..|es|] == es;
  }

  lemma LastsStep(es: seq<DagEdge>, e: DagEdge, conditions: map<Edge, string>, modes: map<Edge, FanInMode>)
    requires ConditionsDescribed(es, conditions) && ModesDescribed(es, modes)
    ensures ConditionsDescribed(es + [e], if e.condition != "" then conditions[(e.src, e.dst) := e.condition]
        else conditions)
    ensures ModesDescribed(es + [e], modes[(e.src, e.dst) := e.fanInMode])
  {
    assert (es + [e])[..|es|] == es;
  }

  lemma AddEdgeDescribes(es: seq<DagEdge>, e: DagEdge, ids: set<NodeId>, optional: Mark, g: DagGraph)
    requires EdgesDescribed(es, ids, optional, g)
    requires e.src in ids && e.dst in ids
    ensures EdgesDescribed(es + [e], ids, optional, AddEdge(g, e, Has(e, optional)))
  {
    LinksStep(es, e, ids, g.edges, g.reverse);
    MarkStep(es, e, g.fanOut, FanOutMark);
    MarkStep(es, e, g.fanIn, FanInMark);
    MarkStep(es, e, g.optional, optional);
    LastsStep(es, e, g.conditions, g.fanInModes);
  }

  lemma EdgeEnds(es: seq<DagEdge>, ids: set<NodeId>, u: NodeId, v: NodeId)
    requires forall e :: e in es ==> e.src in ids && e.dst in ids
    ensures v in SuccessorsIn(es, u) || u in PredecessorsIn(es, v) ==> u in ids && v in ids
  {
    SuccessorsAreTargets(es, u, v);
    if SomeEdge(es, u, v, AnyMark) {
      var i :| 0 <= i < |es| && Joins(es[i], u, v);
      assert es[i] in es;
    }
  }

  lemma LinksStayInside(es: seq<DagEdge>, ids: set<NodeId>, edges: Links, reverse: Links)
    requires LinksDescribed(es, ids, edges, reverse)
    requires forall e :: e in es ==> e.src in ids && e.dst in ids
    ensures ClosedLinks(edges) && ClosedLinks(reverse) && Mirrored(edges, reverse)
  {
    forall u, v | u in edges && v in edges[u] ensures v in edges {
      EdgeEnds(es, ids, u, v);
    }
    forall v, u | v in reverse && u in reverse[v] ensures u in reverse {
      EdgeEnds(es, ids, u, v);
    }
    forall u, v | u in edges && v in reverse
      ensures SameCount(edges, reverse, u, v)
    {
      SuccessorsMirrorPredecessors(es, u, v);
    }
  }

  lemma LinksMakeWellFormed(config: DagConfig, g: DagGraph)
    requires g.nodes == Ids(config.nodes) && Distinct(g.nodes) && g.instances == InstanceMap(config.nodes)
    requires LinksDescribed(config.edges, InstanceMap(config.nodes).Keys, g.edges, g.reverse)
    requires forall e :: e in config.edges ==> e.src in g.instances && e.dst in g.instances
    ensures WellFormed(g)
  {
    LinksStayInside(config.edges, g.instances.Keys, g.edges, g.reverse);
    InstanceMapContents(config.nodes);
  }

  lemma LinksAreConfigured(config: DagConfig, edges: Links, reverse: Links)
    requires LinksDescribed(config.edges, InstanceMap(config.nodes).Keys, edges, reverse)
    ensures edges == LinksIn(config)
  {
    InstanceMapContents(config.nodes);
  }

  /** The checks one edge goes through before it is added. */
  function CheckEdge(e: DagEdge, instances: map<NodeId, Instance>, configs: map<string, NodeConfig>,
      subs: set<NodeId>): (r: Option<LoadError>)
    requires forall id :: id in instances && id !in subs ==> instances[id].typ in configs
    ensures r.None? <==> LegalEdge(e, instances, configs, subs)
  {
    if e.src !in instances || e.dst !in instances then Some(UnknownNode(e.src, e.dst))
    else if e.src in subs || e.dst in subs then None
    else
      var upstream, downstream := configs[instances[e.src].typ], configs[instances[e.dst].typ];
      var role := CheckRole(upstream, downstream);
      if role.Some? then role else CheckIo(upstream, downstream)
  }

  /** `missing`: the types of plain nodes that no node configuration describes. */
  function MissingTypes(nodes: seq<Instance>, configs: map<string, NodeConfig>,
      dags: Option<set<string>>): (missing: seq<string>)
    ensures missing == [] <==> TypesKnown(nodes, configs, dags)
  {
    if nodes == [] then []
    else
      var front, last := nodes[..|nodes| - 1], nodes[|nodes| - 1];
      assert nodes == front + [last];
      MissingTypes(front, configs, dags) + if !IsSubDag(last, dags) && last.typ !in configs then [last.typ] else []
  }

  function EmptyGraph(config: DagConfig): DagGraph {
    var ids := Elements(Ids(config.nodes));
    DagGraph(config.name, Ids(config.nodes), InstanceMap(config.nodes), map id | id in ids :: [], map id | id in ids ::
        [],
             {}, {}, {}, map[], map[])
  }

  /** `load_graph`: it succeeds exactly on loadable configurations, and then returns the graph they describe. */
  method LoadGraph(config: DagConfig, configs: map<string, NodeConfig>, dags: Option<set<string>>)
    returns (r: Result<DagGraph, LoadError>)
    ensures r.Ok? <==> Loadable(config, configs, dags)
    ensures r.Ok? ==> WellFormed(r.value) && Acyclic(r.value.edges) && Describes(config, configs, dags, r.value)
  {
    var instances := InstanceMap(config.nodes);
    SizeTellsDuplicates(config.nodes);
    if |instances| != |config.nodes| {
      return Err(DuplicateIds);
    }
    var missing := MissingTypes(config.nodes, configs, dags);
    if missing != [] {
      return Err(MissingNodeConfig(missing));
    }
    r := AddEdges(config, configs, dags);
    if r.Ok? {
      var acyclic := AssertAcyclic(r.value.nodes, r.value.edges);
      if !acyclic {
        r := Err(GraphHasCycle);
      }
    }
  }

  /** The loop of `load_graph` over the configured edges. */
  method AddEdges(config: DagConfig, configs: map<string, NodeConfig>, dags: Option<set<string>>)
    returns (r: Result<DagGraph, LoadError>)
    requires Distinct(Ids(config.nodes))
    requires TypesKnown(config.nodes, configs, dags)
    ensures r.Ok? <==> EdgesLegal(config, configs, dags)
    ensures r.Ok? ==> Describes(config, configs, dags, r.value)
    ensures r.Ok? ==> WellFormed(r.value) && r.value.edges == LinksIn(config)
  {
    var instances, subs := InstanceMap(config.nodes), SubDags(config.nodes, dags);
    InstanceMapContents(config.nodes);
    PlainNodesKnown(config, configs, dags);
    var optional := OptionalMark(instances, configs, subs);
    var g := EmptyGraph(config);
    for i := 0 to |config.edges|
      invariant g.name == config.name && g.nodes == Ids(config.nodes) && g.instances == instances
      invariant EdgesDescribed(config.edges[..i], instances.Keys, optional, g)
      invariant forall e :: e in config.edges[..i] ==> LegalEdge(e, instances, configs, subs)
    {
      var e := config.edges[i];
      var problem := CheckEdge(e, instances, configs, subs);
      if problem.Some? {
        assert e in config.edges;
        return Err(problem.value);
      }
      AddEdgeDescribes(config.edges[..i], e, instances.Keys, optional, g);
      TakeStep(config.edges, i);
      g := AddEdge(g, e, Has(e, optional));
    }
    assert config.edges[..|config.edges|] == config.edges;
    LinksMakeWellFormed(config, g);
    LinksAreConfigured(config, g.edges, g.reverse);
    return Ok(g);
  }

  lemma PlainNodesKnown(config: DagConfig, configs: map<string, NodeConfig>, dags: Option<set<string>>)
    requires TypesKnown(config.nodes, configs, dags)
    ensures forall id :: id in InstanceMap(config.nodes) && id !in SubDags(config.nodes, dags) ==>
              InstanceMap(config.nodes)[id].typ in configs
  {
    InstanceMapContents(config.nodes);
    forall id | id in InstanceMap(config.nodes) && id !in SubDags(config.nodes, dags)
      ensures InstanceMap(config.nodes)[id].typ in configs
    {
      var n := InstanceMap(config.nodes)[id];
      assert n in config.nodes && n.id == id;
      assert !IsSubDag(n, dags);
    }
  }
}
