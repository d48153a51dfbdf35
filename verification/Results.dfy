/** What a finished run returns: the payload of its sinks. */
module Results {
  import opened Graphs
  import opened DagModels
  import opened Jobs

  lemma {:induction false} WalkToSink(links: Links, p: seq<NodeId>) returns (sink: NodeId)
    requires ClosedLinks(links) && Acyclic(links) && IsWalk(links, p) && p != []
    ensures sink in links && links[sink] == [] && Reaches(links, p[0], sink)
    decreases |links.Keys| - |p|
  {
    var last := p[|p| - 1];
    if |p| > |links.Keys| {
      LongWalkHasCycle(links, p);
      sink := last;
    } else if links[last] == [] {
      sink := last;
      assert WalkBetween(links, p, p[0], last);
    } else {
      assert links[last][0] in links[last];
      sink := WalkToSink(links, p + [links[last][0]]);
    }
  }

  lemma {:induction false} SinksMembers(g: DagGraph, nodes: seq<NodeId>, n: NodeId)
    requires forall m :: m in nodes ==> m in g.edges
    ensures n in Sinks(g, nodes) <==> n in nodes && g.edges[n] == []
  {
    if nodes != [] {
      assert nodes == [nodes[0]] + nodes[1..];
      assert nodes[0] in nodes && forall m :: m in nodes[1..] ==> m in nodes;
      SinksMembers(g, nodes[1..], n);
    }
  }

  /** Every node leads to a sink, so a run of a graph with nodes has sinks to take its payload from. */
  lemma EveryNodeLeadsToSink(g: DagGraph, n: NodeId) returns (sink: NodeId)
    requires WellFormed(g) && Acyclic(g.edges) && n in g.nodes
    ensures sink in Sinks(g, g.nodes) && Reaches(g.edges, n, sink)
  {
    assert n in g.edges;
    sink := WalkToSink(g.edges, [n]);
    SinksMembers(g, g.nodes, sink);
  }

  /** The payloads of the listed sinks that have one, in the order of the list. */
  function PayloadsAt(sinks: seq<NodeId>, payloads: map<NodeId, Value>): seq<Value> {
    if sinks == [] then []
    else (if sinks[0] in payloads then [payloads[sinks[0]]] else []) + PayloadsAt(sinks[1..], payloads)
  }

  lemma {:induction false} SinkPayloadsInOrder(g: DagGraph, nodes: seq<NodeId>, payloads: map<NodeId, Value>)
    requires forall n :: n in nodes ==> n in g.edges
    ensures SinkPayloads(g, nodes, payloads) == PayloadsAt(Sinks(g, nodes), payloads)
  {
    if nodes != [] {
      assert nodes[0] in nodes && forall n :: n in nodes[1..] ==> n in nodes;
      SinkPayloadsInOrder(g, nodes[1..], payloads);
      var here := if g.edges[nodes[0]] == [] then [nodes[0]] else [];
      assert Sinks(g, nodes) == here + Sinks(g, nodes[1..]);
      if here != [] {
        assert Sinks(g, nodes)[1..] == Sinks(g, nodes[1..]);
      } else {
        assert Sinks(g, nodes) == Sinks(g, nodes[1..]);
      }
    }
  }

  /** The payload of a run with one sink is that sink's, and otherwise the list of the sinks' payloads in node order. */
  lemma LastPayloadIsSinks(g: DagGraph, payloads: map<NodeId, Value>)
    requires WellFormed(g) && Acyclic(g.edges) && g.nodes != []
    ensures var sinks := Sinks(g, g.nodes);
      && sinks != []
      && (|sinks| == 1 && sinks[0] in payloads ==> LastPayload(g, payloads) == payloads[sinks[0]])
      && (|sinks| == 1 && sinks[0] !in payloads ==> LastPayload(g, payloads) == Null)
      && (|sinks| > 1 ==> LastPayload(g, payloads) == List(PayloadsAt(sinks, payloads)))
  {
    var sink := EveryNodeLeadsToSink(g, g.nodes[0]);
    SinkPayloadsInOrder(g, g.nodes, payloads);
  }
}
