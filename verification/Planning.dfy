/** Which nodes a retry runs again, and whether what they need is at hand. */
module Planning {
  import opened Graphs
  import opened DagModels
  import opened Sorting

  ghost predicate ClosedUnder(links: Links, s: set<NodeId>) {
    forall u, v {:trigger v in links[u]} :: u in s && u in links && v in links[u] ==> v in s
  }

  ghost function Downstream(links: Links, start: NodeId): set<NodeId> {
    set v | v in links && Reaches(links, start, v)
  }

  ghost function DownstreamOf(links: Links, starts: seq<NodeId>): set<NodeId> {
    set v, u | u in starts && v in links && Reaches(links, u, v) :: v
  }

  /** Links out of `found` lead to `found` or to something still on the stack. */
  ghost predicate Frontier(links: Links, found: set<NodeId>, stack: seq<NodeId>) {
    forall u, v {:trigger v in links[u]} :: u in found && u in links && v in links[u] ==> v in found || v in stack
  }

  lemma PopFrontier(links: Links, found: set<NodeId>, stack: seq<NodeId>, node: NodeId)
    requires Frontier(links, found, stack + [node]) && node in links
    ensures node in found ==> Frontier(links, found, stack)
    ensures Frontier(links, found + {node}, stack + links[node])
  {
    forall v | v in stack + [node] ensures v in stack || v == node {
    }
    forall v | v in stack || v in links[node] ensures v in stack + links[node] {
    }
  }

  /** `_downstream_nodes`: the worklist finds exactly the nodes that can be reached. */
  method DownstreamNodes(g: DagGraph, start: NodeId) returns (found: set<NodeId>)
    requires WellFormed(g) && start in g.edges
    ensures found == Downstream(g.edges, start)
    ensures start in found && ClosedUnder(g.edges, found)
  {
    found := {};
    var stack := [start];
    ReachesItself(g.edges, start);
    while stack != []
      invariant found <= g.edges.Keys && forall v :: v in stack ==> v in g.edges
      invariant start in found || start in stack
      invariant Frontier(g.edges, found, stack)
      invariant forall v :: v in found || v in stack ==> Reaches(g.edges, start, v)
      decreases g.edges.Keys - found, |stack|
    {
      var node := stack[|stack| - 1];
      ghost var below := stack[..|stack| - 1];
      assert stack == below + [node];
      PopFrontier(g.edges, found, below, node);
      stack := stack[..|stack| - 1];
      if node !in found {
        forall v | v in g.edges[node] ensures v in g.edges && Reaches(g.edges, start, v) {
          ReachesStep(g.edges, start, node, v);
        }
        found := found + {node};
        stack := stack + g.edges[node];
      }
    }
    ClosedHoldsDownstream(g.edges, found, start);
  }

  lemma ClosedHoldsDownstream(links: Links, found: set<NodeId>, start: NodeId)
    requires start in found && ClosedUnder(links, found)
    ensures Downstream(links, start) <= found
  {
    forall v | v in Downstream(links, start) ensures v in found {
      ClosedContainsReachable(links, found, start, v);
    }
  }

  /** `_downstream_union`, the plan of a cascade retry: it is closed under the edges of the graph. */
  method DownstreamUnion(g: DagGraph, starts: seq<NodeId>) returns (retry: set<NodeId>)
    requires WellFormed(g) && forall u :: u in starts ==> u in g.edges
    ensures retry == DownstreamOf(g.edges, starts)
    ensures ClosedUnder(g.edges, retry) && forall u :: u in starts ==> u in retry
  {
    retry := {};
    for i := 0 to |starts|
      invariant retry == DownstreamOf(g.edges, starts[..i])
      invariant ClosedUnder(g.edges, retry)
      invariant forall u :: u in starts[..i] ==> u in retry
    {
      var found := DownstreamNodes(g, starts[i]);
      TakeStep(starts, i);
      retry := retry + found;
    }
    assert starts[..|starts|] == starts;
  }

  /** An upstream of a retried node that is neither retried nor prefilled nor allowed to be missing. */
  ghost predicate IsMissing(g: DagGraph, retry: set<NodeId>, prefilled: set<NodeId>, allowed: set<NodeId>, u: NodeId) {
    && u !in retry && u !in prefilled && u !in allowed
    && exists n :: n in retry && n in g.reverse && u in g.reverse[n]
  }

  /** The inner loop of `_missing_prefilled_inputs`. */
  function MissingAmong(upstreams: seq<NodeId>, present: set<NodeId>): (missing: set<NodeId>)
    ensures forall u :: u in missing <==> u in upstreams && u !in present
  {
    set u | u in upstreams && u !in present
  }

  /** `_missing_prefilled_inputs`. */
  method MissingPrefilledInputs(g: DagGraph, retry: set<NodeId>, prefilled: set<NodeId>, allowed: set<NodeId>)
    returns (result: seq<NodeId>)
    requires WellFormed(g) && retry <= g.reverse.Keys
    ensures forall u :: u in result <==> IsMissing(g, retry, prefilled, allowed, u)
    ensures Distinct(result) && IsSorted(result)
    ensures result == [] <==>
      forall n, u {:trigger u in g.reverse[n]} ::
          n in retry && u in g.reverse[n] ==> u in retry || u in prefilled || u in allowed
  {
    var missing: set<NodeId> := {};
    var todo := retry;
    while todo != {}
      invariant todo <= retry
      invariant forall u :: u in missing ==> IsMissing(g, retry, prefilled, allowed, u)
      invariant forall n, u {:trigger u in g.reverse[n]} :: n in retry && n !in todo && u in g.reverse[n] ==>
                  u in retry || u in prefilled || u in allowed || u in missing
    {
      var n :| n in todo;
      missing := missing + MissingAmong(g.reverse[n], retry + prefilled + allowed);
      todo := todo - {n};
    }
    result := SortedSet(missing);
    if result == [] {
      assert forall u :: u in missing ==> u in result;
    } else {
      assert result[0] in result;
      assert IsMissing(g, retry, prefilled, allowed, result[0]);
    }
  }

  /** `sorted` on a set. */
  method SortedSet(s: set<string>) returns (result: seq<string>)
    ensures forall x :: x in result <==> x in s
    ensures Distinct(result) && IsSorted(result)
  {
    var listed: seq<string> := [];
    var todo := s;
    while todo != {}
      invariant todo <= s && Distinct(listed)
      invariant forall x :: x in listed <==> x in s && x !in todo
    {
      var x :| x in todo;
      listed := listed + [x];
      todo := todo - {x};
    }
    result := Sorted(listed);
    SortKeepsDistinct(listed);
  }

  /** `_graph_ordered_nodes`. */
  function GraphOrdered(g: DagGraph, nodes: seq<NodeId>, chosen: set<NodeId>): (result: seq<NodeId>)
    ensures forall v :: v in result <==> v in nodes && v in chosen
  {
    if nodes == [] then []
    else
      assert nodes == [nodes[0]] + nodes[1..];
      (if nodes[0] in chosen then [nodes[0]] else []) + GraphOrdered(g, nodes[1..], chosen)
  }
}
