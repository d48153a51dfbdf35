/** The depth-first cycle check of the loader: grey nodes in `visiting`, black ones in `visited`. */
module CycleCheck {
  import opened Graphs

  /** The nodes finished so far, in finishing order: each links only to nodes finished before it. */
  ghost predicate FinishingOrder(links: Links, order: seq<NodeId>) {
    forall i :: 0 <= i < |order| ==>
      order[i] in links && forall v :: v in links[order[i]] ==> v in order[..i]
  }

  lemma ExtendFinishing(links: Links, order: seq<NodeId>, node: NodeId)
    requires FinishingOrder(links, order) && node in links
    requires forall v :: v in links[node] ==> v in order
    ensures FinishingOrder(links, order + [node])
  {
    var longer := order + [node];
    forall i | 0 <= i < |longer|
      ensures longer[i] in links && forall v :: v in links[longer[i]] ==> v in longer[..i]
    {
      if i < |order| {
        assert longer[..i] == order[..i];
      } else {
        assert longer[..i] == order;
      }
    }
  }

  ghost function FinishedAt(order: seq<NodeId>, v: NodeId): (i: nat)
    requires v in order
    ensures i < |order| && order[i] == v && v !in order[..i]
  {
    if order[|order| - 1] == v && v !in order[..|order| - 1] then |order| - 1
    else FinishedAt(order[..|order| - 1], v)
  }

  /** When every node has finished, the finishing order read backwards ranks the graph. */
  lemma FinishedMeansAcyclic(links: Links, order: seq<NodeId>)
    requires FinishingOrder(links, order) && Elements(order) == links.Keys
    ensures Acyclic(links)
  {
    var rank: map<NodeId, nat> := map v | v in links.Keys :: |order| - 1 - FinishedAt(order, v);
    forall u, v | u in links && v in links[u]
      ensures v in links && rank[u] < rank[v]
    {
      var i := FinishedAt(order, u);
      assert v in order[..i];
      var j :| 0 <= j < i && order[j] == v;
      assert FinishedAt(order, v) <= j;
    }
    RankMeansAcyclic(links, rank);
  }

  /** The grey nodes are exactly the walk from the start of the search to its current node. */
  ghost predicate GreyPath(links: Links, visiting: set<NodeId>, path: seq<NodeId>) {
    IsWalk(links, path) && visiting == Elements(path)
  }

  ghost predicate Continues(links: Links, path: seq<NodeId>, node: NodeId) {
    path != [] && path[|path| - 1] in links ==> node in links[path[|path| - 1]]
  }

  lemma GreyAgainMeansCycle(links: Links, path: seq<NodeId>, node: NodeId)
    requires IsWalk(links, path) && node in links && node in path
    requires Continues(links, path, node)
    ensures !Acyclic(links)
  {
    var i :| 0 <= i < |path| && path[i] == node;
    assert IsCycle(links, path[i..] + [node]);
  }

  lemma GreyStep(links: Links, visiting: set<NodeId>, path: seq<NodeId>, node: NodeId)
    requires GreyPath(links, visiting, path) && node in links && Continues(links, path, node)
    ensures GreyPath(links, visiting + {node}, path + [node])
  {
    assert Elements(path + [node]) == Elements(path) + {node};
  }

  /** Entering a node that is new to the search. */
  lemma EnterNode(links: Links, visiting: set<NodeId>, visited: set<NodeId>, order: seq<NodeId>, path: seq<NodeId>,
      node: NodeId)
    requires Searching(links, visiting, visited, order) && GreyPath(links, visiting, path)
        && Continues(links, path, node)
    requires node in links && node !in visiting && node !in visited
    ensures Searching(links, visiting + {node}, visited, order) && GreyPath(links, visiting + {node}, path + [node])
    ensures |links.Keys - (visiting + {node})| < |links.Keys - visiting|
  {
    GreyStep(links, visiting, path, node);
    assert node in links.Keys - visiting;
    SmallerSet(links.Keys - (visiting + {node}), links.Keys - visiting);
  }

  /** What the search keeps between calls. */
  ghost predicate Searching(links: Links, visiting: set<NodeId>, visited: set<NodeId>, order: seq<NodeId>) {
    && ClosedLinks(links)
    && visiting <= links.Keys
    && visiting !! visited
    && visited == Elements(order)
    && FinishingOrder(links, order)
  }

  lemma FinishNode(links: Links, visiting: set<NodeId>, visited: set<NodeId>, order: seq<NodeId>, node: NodeId)
    requires Searching(links, visiting + {node}, visited, order)
    requires node !in visiting
    requires forall v :: v in links[node] ==> v in visited
    ensures Searching(links, visiting, visited + {node}, order + [node])
  {
    assert node in visiting + {node};
    ExtendFinishing(links, order, node);
    assert Elements(order + [node]) == Elements(order) + {node};
  }

  lemma SmallerSet<T>(a: set<T>, b: set<T>)
    requires a < b
    ensures |a| < |b|
  {
    assert b == a + (b - a);
    assert b - a != {};
  }

  class CycleDetector {
    const links: Links
    var visiting: set<NodeId>
    var visited: set<NodeId>
    ghost var order: seq<NodeId>

    ghost predicate Valid()
      reads this
    {
      Searching(links, visiting, visited, order)
    }

    constructor (links: Links)
      requires ClosedLinks(links)
      ensures Valid() && this.links == links && visiting == {} && order == []
    {
      this.links := links;
      visiting, visited, order := {}, {}, [];
    }

    /** `visit`: the result is false where the source raises. */
    method Visit(node: NodeId, ghost path: seq<NodeId>) returns (ok: bool)
      requires Valid() && node in links
      requires GreyPath(links, visiting, path) && Continues(links, path, node)
      modifies this
      decreases |links.Keys - visiting|, 1
      ensures ok ==> Valid() && visiting == old(visiting) && node in visited && visited >= old(visited)
      ensures !ok ==> !Acyclic(links)
    {
      if node in visiting {
        GreyAgainMeansCycle(links, path, node);
        return false;
      }
      if node in visited {
        return true;
      }
      ghost var before := visiting;
      EnterNode(links, visiting, visited, order, path, node);
      visiting := visiting + {node};
      ok := VisitDownstream(node, path + [node]);
      if ok {
        FinishNode(links, before, visited, order, node);
        visiting := visiting - {node};
        assert visiting == before;
        order := order + [node];
        visited := visited + {node};
      }
    }

    /** The loop of `visit` over the downstream nodes. */
    method VisitDownstream(node: NodeId, ghost path: seq<NodeId>) returns (ok: bool)
      requires Valid() && node in visiting && path != [] && path[|path| - 1] == node
      requires GreyPath(links, visiting, path)
      modifies this
      decreases |links.Keys - visiting|, 2
      ensures ok ==> Valid() && visiting == old(visiting) && visited >= old(visited)
      ensures ok ==> forall v :: v in links[node] ==> v in visited
      ensures !ok ==> !Acyclic(links)
    {
      for i := 0 to |links[node]|
        invariant Valid() && visiting == old(visiting) && visited >= old(visited)
        invariant forall v :: v in links[node][..i] ==> v in visited
      {
        assert links[node][i] in links[node];
        ok := Visit(links[node][i], path);
        if !ok {
          return false;
        }
      }
      return true;
    }

    /** The outer loop: start a search at every node. */
    method Check(nodes: seq<NodeId>) returns (ok: bool)
      requires Valid() && visiting == {} && Elements(nodes) == links.Keys
      modifies this
      ensures ok <==> Acyclic(links)
    {
      for i := 0 to |nodes|
        invariant Valid() && visiting == {}
        invariant forall v :: v in nodes[..i] ==> v in visited
      {
        ok := Visit(nodes[i], []);
        if !ok {
          return false;
        }
      }
      assert links.Keys == visited;
      FinishedMeansAcyclic(links, order);
      return true;
    }
  }

  /** `_assert_acyclic`: accepts exactly the graphs without a cycle. */
  method AssertAcyclic(nodes: seq<NodeId>, links: Links) returns (ok: bool)
    requires ClosedLinks(links) && Elements(nodes) == links.Keys
    ensures ok <==> Acyclic(links)
  {
    var detector := new CycleDetector(links);
    ok := detector.Check(nodes);
  }
}
