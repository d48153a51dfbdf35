/** The configuration entities a DAG is made of, and the graph the loader builds from them. */
module DagModels {
  import opened Wrappers
  import opened Graphs

  /** JSON-like payloads. */
  datatype Value =
    | Null
    | Num(n: int)
    | Text(s: string)
    | List(items: seq<Value>)
    | Dict(fields: map<string, Value>)

  datatype NodeOutput = NodeOutput(
    nodeName: NodeId,
    ok: bool,
    payload: Value,
    metadata: map<string, Value>,
    error: Option<string>)

  datatype Role = Source | Processor | Sink

  datatype FanInMode = Barrier | Accumulate | Collect | Stream

  datatype NodeConfig = NodeConfig(
    name: string,
    role: Role,
    inputType: string,
    outputType: string,
    optional: bool)

  datatype Instance = Instance(
    id: NodeId,
    typ: string,
    dagRef: Option<string>,
    optional: bool,
    fanInMode: FanInMode,
    hasLoop: bool,
    resource: Option<string>,
    defaultEntity: Value)

  datatype DagEdge = DagEdge(
    src: NodeId,
    dst: NodeId,
    fanOut: bool,
    fanIn: bool,
    optional: bool,
    condition: string,
    fanInMode: FanInMode)

  datatype DagConfig = DagConfig(name: string, nodes: seq<Instance>, edges: seq<DagEdge>)

  datatype DagGraph = DagGraph(
    name: string,
    nodes: seq<NodeId>,
    instances: map<NodeId, Instance>,
    edges: Links,
    reverse: Links,
    fanOut: set<Edge>,
    fanIn: set<Edge>,
    optional: set<Edge>,
    conditions: map<Edge, string>,
    fanInModes: map<Edge, FanInMode>)

  ghost predicate SameCount(edges: Links, reverse: Links, u: NodeId, v: NodeId)
    requires u in edges && v in reverse
  {
    multiset(edges[u])[v] == multiset(reverse[v])[u]
  }

  /** The two adjacency maps list the same edges, each as many times as the other. */
  ghost predicate Mirrored(edges: Links, reverse: Links) {
    && edges.Keys == reverse.Keys
    && forall u, v {:trigger SameCount(edges, reverse, u, v)} ::
         u in edges && v in reverse ==> SameCount(edges, reverse, u, v)
  }

  ghost predicate WellFormed(g: DagGraph) {
    && Distinct(g.nodes)
    && g.edges.Keys == Elements(g.nodes)
    && g.instances.Keys == Elements(g.nodes)
    && ClosedLinks(g.edges)
    && ClosedLinks(g.reverse)
    && Mirrored(g.edges, g.reverse)
  }

  lemma MirroredMembers(g: DagGraph, u: NodeId, v: NodeId)
    requires WellFormed(g) && u in g.edges && v in g.edges
    ensures v in g.edges[u] <==> u in g.reverse[v]
  {
    assert SameCount(g.edges, g.reverse, u, v);
    assert v in g.edges[u] <==> v in multiset(g.edges[u]);
    assert u in g.reverse[v] <==> u in multiset(g.reverse[v]);
  }
}
