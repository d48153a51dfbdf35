/** `topological_layers`: peeling off, layer by layer, the nodes whose predecessors are all gone. */
module Layers {
  import opened Wrappers
  import opened Graphs
  import opened DagModels
  import opened Sorting

  /** How many entries of the list, counted with repetitions, are not in `done`. */
  ghost function Remaining(s: seq<NodeId>, done: set<NodeId>): nat {
    if s == [] then 0
    else Remaining(s[..|s| - 1], done) + if s[|s| - 1] in done then 0 else 1
  }

  lemma {:induction false} RemainingNone(s: seq<NodeId>, done: set<NodeId>)
    ensures Remaining(s, done) == 0 <==> forall u :: u in s ==> u in done
  {
    if s != [] {
      RemainingNone(s[..|s| - 1], done);
      assert s == s[..|s| - 1] + [s[|s| - 1]];
    }
  }

  lemma {:induction false} RemainingAll(s: seq<NodeId>)
    ensures Remaining(s, {}) == |s|
  {
    if s != [] {
      RemainingAll(s[..|s| - 1]);
    }
  }

  /** Finishing one more node takes away as many entries as there are links from it. */
  lemma {:induction false} RemainingAfter(s: seq<NodeId>, done: set<NodeId>, node: NodeId)
    requires node !in done
    ensures Remaining(s, done + {node}) == Remaining(s, done) - multiset(s)[node]
  {
    if s != [] {
      RemainingAfter(s[..|s| - 1], done, node);
      assert s == s[..|s| - 1] + [s[|s| - 1]];
    }
  }

  // ----- Levels: the layer each finished node went to -----

  ghost predicate FedAt(reverse: Links, level: map<NodeId, nat>, v: NodeId, k: nat)
    requires v in reverse
  {
    exists u {:trigger u in reverse[v]} :: u in reverse[v] && u in level && level[u] == k
  }

  ghost predicate FedBy(reverse: Links, layer: seq<NodeId>, v: NodeId)
    requires v in reverse
  {
    exists u {:trigger u in reverse[v]} :: u in layer && u in reverse[v]
  }

  ghost predicate LevelOf(reverse: Links, level: map<NodeId, nat>, v: NodeId)
    requires v in level && v in reverse
  {
    && (forall u {:trigger u in reverse[v]} :: u in reverse[v] ==> u in level && level[u] < level[v])
    && (level[v] > 0 ==> FedAt(reverse, level, v, level[v] - 1))
  }

  ghost predicate Levels(g: DagGraph, level: map<NodeId, nat>) {
    && level.Keys <= g.reverse.Keys
    && forall v {:trigger LevelOf(g.reverse, level, v)} :: v in level ==> LevelOf(g.reverse, level, v)
  }

  lemma {:induction false} LevelBoundsWalk(g: DagGraph, level: map<NodeId, nat>, p: seq<NodeId>)
    requires WellFormed(g) && Levels(g, level)
    requires IsWalk(g.edges, p) && p != [] && p[|p| - 1] in level
    ensures |p| <= level[p[|p| - 1]] + 1
  {
    if |p| > 1 {
      var u, v := p[|p| - 2], p[|p| - 1];
      assert v in g.edges[u];
      MirroredMembers(g, u, v);
      assert LevelOf(g.reverse, level, v);
      LevelBoundsWalk(g, level, p[..|p| - 1]);
    }
  }

  lemma AppendToWalk(links: Links, p: seq<NodeId>, v: NodeId)
    requires IsWalk(links, p) && p != [] && v in links && v in links[p[|p| - 1]]
    ensures IsWalk(links, p + [v])
  {
  }

  lemma {:induction false} LevelHasWalk(g: DagGraph, level: map<NodeId, nat>, v: NodeId) returns (p: seq<NodeId>)
    requires WellFormed(g) && Levels(g, level) && v in level
    ensures WalkTo(g.edges, p, v) && |p| == level[v] + 1
    decreases level[v]
  {
    assert LevelOf(g.reverse, level, v);
    if level[v] == 0 {
      p := [v];
    } else {
      assert FedAt(g.reverse, level, v, level[v] - 1);
      var u :| u in g.reverse[v] && u in level && level[u] == level[v] - 1;
      MirroredMembers(g, u, v);
      var shorter := LevelHasWalk(g, level, u);
      AppendToWalk(g.edges, shorter, v);
      p := shorter + [v];
    }
  }

  /** The level of a node is the length of the longest walk that leads to it. */
  lemma LevelIsLongestWalk(g: DagGraph, level: map<NodeId, nat>, v: NodeId)
    requires WellFormed(g) && Levels(g, level) && v in level
    ensures LongestWalkTo(g.edges, v, level[v])
  {
    var p := LevelHasWalk(g, level, v);
    forall q | WalkTo(g.edges, q, v) ensures |q| <= level[v] + 1 {
      LevelBoundsWalk(g, level, q);
    }
  }

  lemma AllLevelledMeansAcyclic(g: DagGraph, level: map<NodeId, nat>)
    requires WellFormed(g) && Levels(g, level) && level.Keys == g.edges.Keys
    ensures Acyclic(g.edges)
  {
    forall u, v | u in g.edges && v in g.edges[u]
      ensures v in g.edges && level[u] < level[v]
    {
      MirroredMembers(g, u, v);
      assert LevelOf(g.reverse, level, v);
    }
    RankMeansAcyclic(g.edges, level);
  }

  // ----- The state of the loop -----

  /** The counter of every node not finished yet counts its unfinished predecessors. */
  ghost predicate Counts(g: DagGraph, done: set<NodeId>, incoming: map<NodeId, int>) {
    && incoming.Keys == g.reverse.Keys
    && forall v {:trigger incoming[v]} :: v in incoming && v !in done ==> incoming[v] == Remaining(g.reverse[v], done)
  }

  /** The list holds, once each, the nodes outside `done` whose counter is zero. */
  ghost predicate ReadyList(g: DagGraph, done: set<NodeId>, incoming: map<NodeId, int>, ready: seq<NodeId>)
    requires incoming.Keys == g.reverse.Keys
  {
    && Distinct(ready)
    && forall v {:trigger v in ready} :: v in ready <==> v in incoming && v !in done && incoming[v] == 0
  }

  ghost predicate ReadyFed(g: DagGraph, level: map<NodeId, nat>, ready: seq<NodeId>, k: nat) {
    forall v {:trigger v in ready} :: v in ready && v in g.reverse && k > 0 ==> FedAt(g.reverse, level, v, k - 1)
  }

  ghost predicate LayersMatch(layers: seq<seq<NodeId>>, level: map<NodeId, nat>) {
    && (forall v :: v in level ==> level[v] < |layers|)
    && (forall k, v :: 0 <= k < |layers| ==> (v in layers[k] <==> v in level && level[v] == k))
    && (forall k :: 0 <= k < |layers| ==> layers[k] != [] && Distinct(layers[k]) && IsSorted(layers[k]))
  }

  /**
   What the layers are promised to be: layer `k` lists, in order, the nodes whose longest incoming walk has `k`
   links.
   */
  ghost predicate IsLayering(g: DagGraph, layers: seq<seq<NodeId>>) {
    && (forall k, v :: 0 <= k < |layers| && v in layers[k] ==> v in g.edges && LongestWalkTo(g.edges, v, k))
    && (forall v :: v in g.edges ==> exists k :: 0 <= k < |layers| && v in layers[k])
    && (forall k :: 0 <= k < |layers| ==> layers[k] != [] && Distinct(layers[k]) && IsSorted(layers[k]))
  }

  lemma LongestWalkUnique(links: Links, v: NodeId, j: nat, k: nat)
    requires LongestWalkTo(links, v, j) && LongestWalkTo(links, v, k)
    ensures j == k
  {
    var p :| WalkTo(links, p, v) && |p| == j + 1;
    var q :| WalkTo(links, q, v) && |q| == k + 1;
  }

  lemma EdgeLengthensWalk(links: Links, u: NodeId, v: NodeId, j: nat, k: nat)
    requires LongestWalkTo(links, u, j) && LongestWalkTo(links, v, k)
    requires v in links && v in links[u]
    ensures j < k
  {
    var p :| WalkTo(links, p, u) && |p| == j + 1;
    AppendToWalk(links, p, v);
    assert WalkTo(links, p + [v], v);
  }

  /** Layers do not overlap, and every edge leads to a strictly later layer. */
  lemma LayersOrderEdges(g: DagGraph, layers: seq<seq<NodeId>>, j: nat, k: nat, u: NodeId, v: NodeId)
    requires IsLayering(g, layers)
    requires j < |layers| && k < |layers| && u in layers[j] && v in layers[k]
    ensures u == v ==> j == k
    ensures v in g.edges[u] ==> j < k
  {
    assert LongestWalkTo(g.edges, u, j) && LongestWalkTo(g.edges, v, k);
    if u == v {
      LongestWalkUnique(g.edges, v, j, k);
    }
    if v in g.edges[u] {
      EdgeLengthensWalk(g.edges, u, v, j, k);
    }
  }

  lemma MatchedLayersAreLayering(g: DagGraph, layers: seq<seq<NodeId>>, level: map<NodeId, nat>)
    requires WellFormed(g) && Levels(g, level) && level.Keys == g.edges.Keys && LayersMatch(layers, level)
    ensures IsLayering(g, layers)
  {
    forall k, v | 0 <= k < |layers| && v in layers[k]
      ensures v in g.edges && LongestWalkTo(g.edges, v, k)
    {
      LevelIsLongestWalk(g, level, v);
    }
    forall v | v in g.edges ensures exists k :: 0 <= k < |layers| && v in layers[k] {
      assert v in layers[level[v]];
    }
  }

  /** No node ready, but some left: each of those has a predecessor among them. */
  lemma StuckMeansCycle(g: DagGraph, level: map<NodeId, nat>, incoming: map<NodeId, int>)
    requires WellFormed(g) && level.Keys < g.edges.Keys && Counts(g, level.Keys, incoming)
    requires ReadyList(g, level.Keys, incoming, [])
    ensures !Acyclic(g.edges)
  {
    var left := g.edges.Keys - level.Keys;
    forall v | v in left ensures FedFromWithin(g.edges, left, v) {
      assert v !in [];
      RemainingNone(g.reverse[v], level.Keys);
      var u :| u in g.reverse[v] && u !in level.Keys;
      MirroredMembers(g, u, v);
    }
    var v :| v in g.edges.Keys && v !in level.Keys;
    assert v in left;
    NoSourceMeansCycle(g.edges, left);
  }

  /** The nodes of a layer have all their predecessors behind them, so no link from a node of the layer leads back. */
  lemma LinksLeadForward(g: DagGraph, level: map<NodeId, nat>, layer: seq<NodeId>, node: NodeId, v: NodeId)
    requires WellFormed(g) && Levels(g, level)
    requires forall w :: w in layer ==> w in g.reverse && Remaining(g.reverse[w], level.Keys) == 0
    requires node in g.edges && node !in level && v in g.edges[node]
    ensures v in g.reverse && v !in level && v !in layer
  {
    MirroredMembers(g, node, v);
    assert v in level ==> LevelOf(g.reverse, level, v);
    RemainingNone(g.reverse[v], level.Keys);
  }

  // ----- The loops -----

  /** Counters of the nodes outside `settled`, when the links of `node` listed in `part` have been taken off. */
  ghost predicate PartCounts(g: DagGraph, done: set<NodeId>, settled: set<NodeId>, part: seq<NodeId>,
      incoming: map<NodeId, int>) {
    && incoming.Keys == g.reverse.Keys
    && forall v {:trigger incoming[v]} ::
        v in incoming && v !in settled ==> incoming[v] == Remaining(g.reverse[v], done) - multiset(part)[v]
  }

  ghost predicate ReadyOutside(settled: set<NodeId>, incoming: map<NodeId, int>, ready: seq<NodeId>) {
    && Distinct(ready)
    && forall v {:trigger v in ready} :: v in ready <==> v in incoming && v !in settled && incoming[v] == 0
  }

  /** Taking off one link leaves the counter of its target at zero or more. */
  lemma CounterPositive(g: DagGraph, done: set<NodeId>, node: NodeId, j: nat)
    requires WellFormed(g) && node in g.edges && node !in done && j < |g.edges[node]|
    ensures g.edges[node][j] in g.reverse
    ensures var v := g.edges[node][j];
      Remaining(g.reverse[v], done) - multiset(g.edges[node][..j])[v] >= 1
  {
    var v := g.edges[node][j];
    assert v in g.edges[node];
    RemainingAfter(g.reverse[v], done, node);
    assert SameCount(g.edges, g.reverse, node, v);
    assert g.edges[node] == g.edges[node][..j] + ([v] + g.edges[node][j + 1..]);
  }

  lemma AppendReady(settled: set<NodeId>, incoming: map<NodeId, int>, ready: seq<NodeId>, v: NodeId)
    requires ReadyOutside(settled, incoming, ready) && v in incoming && v !in settled && incoming[v] >= 1
    ensures ReadyOutside(settled, incoming[v := incoming[v] - 1], if incoming[v] == 1 then ready + [v] else ready)
  {
    var longer := ready + [v];
    assert v !in ready;
    forall x ensures x in longer <==> x in ready || x == v {
      assert longer[|ready|] == v;
    }
  }

  /** The innermost loop: count down the targets of `node`. */
  method ReleaseTargets(g: DagGraph, node: NodeId, ghost done: set<NodeId>, ghost settled: set<NodeId>,
                        incoming0: map<NodeId, int>, ready0: seq<NodeId>)
    returns (incoming: map<NodeId, int>, ready: seq<NodeId>)
    requires WellFormed(g) && node in g.edges && node !in done && node in settled
    requires forall v {:trigger v in g.edges[node]} :: v in g.edges[node] ==> v !in settled
    requires PartCounts(g, done, settled, [], incoming0) && ReadyOutside(settled, incoming0, ready0)
    ensures PartCounts(g, done + {node}, settled, [], incoming) && ReadyOutside(settled, incoming, ready)
    ensures forall v {:trigger v in ready} :: v in ready ==> v in ready0 || v in g.edges[node]
  {
    incoming, ready := incoming0, ready0;
    for j := 0 to |g.edges[node]|
      invariant PartCounts(g, done, settled, g.edges[node][..j], incoming)
      invariant ReadyOutside(settled, incoming, ready)
      invariant forall v {:trigger v in ready} :: v in ready ==> v in ready0 || v in g.edges[node]
    {
      var v := g.edges[node][j];
      assert v in g.edges[node];
      CounterPositive(g, done, node, j);
      AppendReady(settled, incoming, ready, v);
      TakeStep(g.edges[node], j);
      incoming := incoming[v := incoming[v] - 1];
      if incoming[v] == 0 {
        ready := ready + [v];
      }
    }
    assert g.edges[node][..|g.edges[node]|] == g.edges[node];
    AllLinksTaken(g, done, settled, node, incoming);
  }

  lemma AllLinksTaken(g: DagGraph, done: set<NodeId>, settled: set<NodeId>, node: NodeId, incoming: map<NodeId, int>)
    requires WellFormed(g) && node in g.edges && node !in done
    requires PartCounts(g, done, settled, g.edges[node], incoming)
    ensures PartCounts(g, done + {node}, settled, [], incoming)
  {
    forall v | v in incoming && v !in settled
      ensures incoming[v] == Remaining(g.reverse[v], done + {node}) - multiset([])[v]
    {
      RemainingAfter(g.reverse[v], done, node);
      assert SameCount(g.edges, g.reverse, node, v);
    }
  }

  /** The nodes, in their order, that have no incoming edge. */
  function Sources(g: DagGraph, nodes: seq<NodeId>): seq<NodeId>
    requires forall v :: v in nodes ==> v in g.reverse
  {
    if nodes == [] then []
    else Sources(g, nodes[..|nodes| - 1]) + if g.reverse[nodes[|nodes| - 1]] == [] then [nodes[|nodes| - 1]] else []
  }

  lemma {:induction false} SourcesContents(g: DagGraph, nodes: seq<NodeId>)
    requires Distinct(nodes) && forall v :: v in nodes ==> v in g.reverse
    ensures Distinct(Sources(g, nodes))
    ensures forall v {:trigger v in Sources(g, nodes)} :: v in Sources(g, nodes) <==> v in nodes && g.reverse[v] == []
  {
    if nodes != [] {
      var front, last := nodes[..|nodes| - 1], nodes[|nodes| - 1];
      SourcesContents(g, front);
      assert nodes == front + [last];
      assert last !in front;
      assert last !in Sources(g, front);
    }
  }

  lemma InitialLoopState(g: DagGraph, incoming: map<NodeId, int>, ready: seq<NodeId>)
    requires WellFormed(g) && incoming == map v | v in g.reverse :: |g.reverse[v]|
    requires ready == Sorted(Sources(g, g.nodes))
    ensures Counts(g, {}, incoming) && ReadyList(g, {}, incoming, ready) && IsSorted(ready)
  {
    SourcesContents(g, g.nodes);
    SortKeepsDistinct(Sources(g, g.nodes));
    forall v | v in g.reverse ensures Remaining(g.reverse[v], {}) == |g.reverse[v]| {
      RemainingAll(g.reverse[v]);
    }
  }

  lemma SortKeepsReady(g: DagGraph, level: map<NodeId, nat>, incoming: map<NodeId, int>, ready: seq<NodeId>, k: nat)
    requires Counts(g, level.Keys, incoming) && ReadyList(g, level.Keys, incoming, ready)
        && ReadyFed(g, level, ready, k)
    ensures ReadyList(g, level.Keys, incoming, Sorted(ready)) && ReadyFed(g, level, Sorted(ready), k)
        && IsSorted(Sorted(ready))
  {
    SortKeepsDistinct(ready);
  }

  /** Putting the ready nodes on the next level keeps the levels sound. */
  lemma RaiseLayer(g: DagGraph, level: map<NodeId, nat>, layer: seq<NodeId>, k: nat, layers: seq<seq<NodeId>>,
      incoming: map<NodeId, int>)
    returns (raised: map<NodeId, nat>)
    requires WellFormed(g) && Levels(g, level) && LayersMatch(layers, level) && k == |layers|
    requires Counts(g, level.Keys, incoming) && ReadyList(g, level.Keys, incoming, layer)
    requires ReadyFed(g, level, layer, k) && layer != [] && IsSorted(layer)
    ensures Levels(g, raised) && LayersMatch(layers + [layer], raised)
    ensures raised.Keys == level.Keys + Elements(layer)
    ensures forall v {:trigger v in layer} :: v in layer ==> v in raised && raised[v] == k
    ensures |raised| == |level| + |layer|
  {
    raised := map v | v in level.Keys + Elements(layer) :: if v in level then level[v] else k;
    forall v | v in raised ensures LevelOf(g.reverse, raised, v) {
      LevelRaised(g, level, layer, k, raised, incoming, v);
    }
    LayersExtended(layers, layer, level, raised);
    RaisedSize(level, layer, raised);
  }

  lemma RaisedSize(level: map<NodeId, nat>, layer: seq<NodeId>, raised: map<NodeId, nat>)
    requires Distinct(layer) && (forall v :: v in layer ==> v !in level)
    requires raised.Keys == level.Keys + Elements(layer)
    ensures |raised| == |level| + |layer|
  {
    assert |raised| == |raised.Keys| && |level| == |level.Keys|;
    assert level.Keys !! Elements(layer);
    DistinctCardinality(layer);
  }

  lemma LevelRaised(g: DagGraph, level: map<NodeId, nat>, layer: seq<NodeId>, k: nat, raised: map<NodeId, nat>,
                    incoming: map<NodeId, int>, v: NodeId)
    requires Levels(g, level) && (forall u :: u in level ==> level[u] < k)
    requires Counts(g, level.Keys, incoming) && ReadyList(g, level.Keys, incoming, layer)
        && ReadyFed(g, level, layer, k)
    requires raised == map v | v in level.Keys + Elements(layer) :: if v in level then level[v] else k
    requires v in raised && v in g.reverse
    ensures LevelOf(g.reverse, raised, v)
  {
    if v in level {
      assert LevelOf(g.reverse, level, v);
      if level[v] > 0 {
        var u :| u in g.reverse[v] && u in level && level[u] == level[v] - 1;
        assert u in g.reverse[v] && raised[u] == raised[v] - 1;
      }
    } else {
      assert v in layer;
      RemainingNone(g.reverse[v], level.Keys);
      if k > 0 {
        assert FedAt(g.reverse, level, v, k - 1);
        var u :| u in g.reverse[v] && u in level && level[u] == k - 1;
        assert u in g.reverse[v] && raised[u] == k - 1;
      }
    }
  }

  lemma LayersExtended(layers: seq<seq<NodeId>>, layer: seq<NodeId>, level: map<NodeId, nat>, raised: map<NodeId, nat>)
    requires LayersMatch(layers, level) && layer != [] && Distinct(layer) && IsSorted(layer)
    requires forall v :: v in layer ==> v !in level
    requires raised == map v | v in level.Keys + Elements(layer) :: if v in level then level[v] else |layers|
    ensures LayersMatch(layers + [layer], raised)
  {
    var longer := layers + [layer];
    forall k, v | 0 <= k < |longer| ensures v in longer[k] <==> v in raised && raised[v] == k {
      if k < |layers| {
        assert longer[k] == layers[k];
      }
    }
  }

  lemma NextReadyFed(g: DagGraph, level: map<NodeId, nat>, layer: seq<NodeId>, ready: seq<NodeId>, k: nat)
    requires forall v {:trigger v in layer} :: v in layer ==> v in level && level[v] == k
    requires forall v {:trigger v in ready} :: v in ready && v in g.reverse ==> FedBy(g.reverse, layer, v)
    ensures ReadyFed(g, level, ready, k + 1)
  {
    forall v | v in ready && v in g.reverse ensures FedAt(g.reverse, level, v, k) {
      assert FedBy(g.reverse, layer, v);
      var u :| u in layer && u in g.reverse[v];
    }
  }

  lemma SubsetSize(a: set<NodeId>, b: set<NodeId>)
    requires a <= b
    ensures |a| <= |b|
    ensures |a| == |b| <==> a == b
  {
    assert b == a + (b - a);
  }

  lemma EnterLayer(g: DagGraph, level: map<NodeId, nat>, layer: seq<NodeId>, incoming: map<NodeId, int>)
    requires WellFormed(g) && Counts(g, level.Keys, incoming) && ReadyList(g, level.Keys, incoming, layer)
    ensures PartCounts(g, level.Keys, level.Keys + Elements(layer), [], incoming)
    ensures ReadyOutside(level.Keys + Elements(layer), incoming, [])
    ensures forall w {:trigger w in layer} :: w in layer ==>
              w in g.reverse && w !in level && Remaining(g.reverse[w], level.Keys) == 0
  {
  }

  lemma TargetsOutside(g: DagGraph, level: map<NodeId, nat>, layer: seq<NodeId>, node: NodeId)
    requires WellFormed(g) && Levels(g, level)
    requires forall w {:trigger w in layer} :: w in layer ==>
               w in g.reverse && w !in level && Remaining(g.reverse[w], level.Keys) == 0
    requires node in layer
    ensures forall v {:trigger v in g.edges[node]} :: v in g.edges[node] ==>
              v !in level.Keys + Elements(layer) && v in g.reverse && FedBy(g.reverse, layer, v)
  {
    forall v | v in g.edges[node]
      ensures v !in level.Keys + Elements(layer) && v in g.reverse && FedBy(g.reverse, layer, v)
    {
      LinksLeadForward(g, level, layer, node, v);
      MirroredMembers(g, node, v);
    }
  }

  lemma GrowPrefix(base: set<NodeId>, layer: seq<NodeId>, i: nat)
    requires i < |layer|
    ensures base + Elements(layer[..i]) + {layer[i]} == base + Elements(layer[..i + 1])
  {
    TakeStep(layer, i);
  }

  method FinishNode(g: DagGraph, ghost level: map<NodeId, nat>, layer: seq<NodeId>, i: nat, incoming0: map<NodeId, int>,
      ready0: seq<NodeId>)
    returns (incoming: map<NodeId, int>, ready: seq<NodeId>)
    requires WellFormed(g) && Levels(g, level) && i < |layer| && Distinct(layer)
    requires forall w {:trigger w in layer} :: w in layer ==>
               w in g.reverse && w !in level && Remaining(g.reverse[w], level.Keys) == 0
    requires PartCounts(g, level.Keys + Elements(layer[..i]), level.Keys + Elements(layer), [], incoming0)
    requires ReadyOutside(level.Keys + Elements(layer), incoming0, ready0)
    ensures PartCounts(g, level.Keys + Elements(layer[..i]) + {layer[i]}, level.Keys + Elements(layer), [], incoming)
    ensures ReadyOutside(level.Keys + Elements(layer), incoming, ready)
    ensures forall v {:trigger v in ready} :: v in ready && v in g.reverse ==> v in ready0 || FedBy(g.reverse, layer, v)
  {
    var node := layer[i];
    assert node in layer && node !in layer[..i];
    TargetsOutside(g, level, layer, node);
    incoming, ready := ReleaseTargets(g, node, level.Keys + Elements(layer[..i]), level.Keys
        + Elements(layer), incoming0, ready0);
  }

  /** The middle loop: finish the nodes of one layer. */
  method FinishLayer(g: DagGraph, layer: seq<NodeId>, ghost level: map<NodeId, nat>, incoming0: map<NodeId, int>)
    returns (incoming: map<NodeId, int>, ready: seq<NodeId>)
    requires WellFormed(g) && Levels(g, level)
    requires Counts(g, level.Keys, incoming0) && ReadyList(g, level.Keys, incoming0, layer)
    ensures var settled := level.Keys + Elements(layer);
      PartCounts(g, settled, settled, [], incoming) && ReadyOutside(settled, incoming, ready)
    ensures forall v {:trigger v in ready} :: v in ready && v in g.reverse ==> FedBy(g.reverse, layer, v)
  {
    incoming, ready := incoming0, [];
    ghost var settled := level.Keys + Elements(layer);
    ghost var done := level.Keys;
    EnterLayer(g, level, layer, incoming);
    for i := 0 to |layer|
      invariant done == level.Keys + Elements(layer[..i])
      invariant PartCounts(g, done, settled, [], incoming) && ReadyOutside(settled, incoming, ready)
      invariant forall v {:trigger v in ready} :: v in ready && v in g.reverse ==> FedBy(g.reverse, layer, v)
    {
      incoming, ready := FinishNode(g, level, layer, i, incoming, ready);
      done := done + {layer[i]};
      GrowPrefix(level.Keys, layer, i);
    }
    assert layer[..|layer|] == layer;
  }

  /** What holds whenever the outer loop tests `ready`. */
  ghost predicate LoopState(g: DagGraph, level: map<NodeId, nat>, layers: seq<seq<NodeId>>, incoming: map<NodeId, int>,
      ready: seq<NodeId>) {
    && Levels(g, level) && LayersMatch(layers, level)
    && Counts(g, level.Keys, incoming) && ReadyList(g, level.Keys, incoming, ready)
    && ReadyFed(g, level, ready, |layers|) && IsSorted(ready)
  }

  lemma NextLoopState(g: DagGraph, level: map<NodeId, nat>, layers: seq<seq<NodeId>>, incoming0: map<NodeId, int>,
      layer: seq<NodeId>,
                      incoming: map<NodeId, int>, ready: seq<NodeId>) returns (raised: map<NodeId, nat>)
    requires WellFormed(g) && LoopState(g, level, layers, incoming0, layer) && layer != []
    requires var settled := level.Keys + Elements(layer);
      PartCounts(g, settled, settled, [], incoming) && ReadyOutside(settled, incoming, ready)
    requires forall v {:trigger v in ready} :: v in ready && v in g.reverse ==> FedBy(g.reverse, layer, v)
    ensures LoopState(g, raised, layers + [layer], incoming, Sorted(ready))
    ensures |raised| == |level| + |layer|
  {
    raised := RaiseLayer(g, level, layer, |layers|, layers, incoming0);
    NextReadyFed(g, raised, layer, ready, |layers|);
    SortKeepsReady(g, raised, incoming, ready, |layers| + 1);
  }

  /** One round of the outer loop. */
  method PeelLayer(g: DagGraph, layer: seq<NodeId>, ghost level: map<NodeId, nat>, ghost layers: seq<seq<NodeId>>,
      incoming0: map<NodeId, int>)
    returns (incoming: map<NodeId, int>, ready: seq<NodeId>, ghost raised: map<NodeId, nat>)
    requires WellFormed(g) && LoopState(g, level, layers, incoming0, layer) && layer != []
    ensures LoopState(g, raised, layers + [layer], incoming, ready)
    ensures |raised| == |level| + |layer|
  {
    incoming, ready := FinishLayer(g, layer, level, incoming0);
    raised := NextLoopState(g, level, layers, incoming0, layer, incoming, ready);
    ready := Sorted(ready);
  }

  lemma LevelSize(g: DagGraph, level: map<NodeId, nat>)
    requires WellFormed(g) && Levels(g, level)
    ensures |level| <= |g.nodes|
    ensures |level| == |g.nodes| <==> level.Keys == g.edges.Keys
  {
    SubsetSize(level.Keys, g.edges.Keys);
    DistinctCardinality(g.nodes);
  }

  /** Once no node is ready, the number of nodes visited tells whether the graph is acyclic. */
  lemma LoopEnd(g: DagGraph, level: map<NodeId, nat>, layers: seq<seq<NodeId>>, incoming: map<NodeId, int>)
    requires WellFormed(g) && LoopState(g, level, layers, incoming, [])
    ensures |level| == |g.nodes| ==> Acyclic(g.edges) && IsLayering(g, layers)
    ensures |level| != |g.nodes| ==> !Acyclic(g.edges)
  {
    LevelSize(g, level);
    if level.Keys == g.edges.Keys {
      AllLevelledMeansAcyclic(g, level);
      MatchedLayersAreLayering(g, layers, level);
    } else {
      StuckMeansCycle(g, level, incoming);
    }
  }

  /** `topological_layers`: fails exactly on graphs with a cycle, and layers the others by longest incoming walk. */
  method TopologicalLayers(g: DagGraph) returns (r: Option<seq<seq<NodeId>>>)
    requires WellFormed(g)
    ensures r.Some? <==> Acyclic(g.edges)
    ensures r.Some? ==> IsLayering(g, r.value)
  {
    var incoming: map<NodeId, int> := map v | v in g.reverse :: |g.reverse[v]|;
    var ready := Sorted(Sources(g, g.nodes));
    InitialLoopState(g, incoming, ready);
    var layers: seq<seq<NodeId>> := [];
    var visited := 0;
    ghost var level: map<NodeId, nat> := map[];
    while ready != []
      invariant LoopState(g, level, layers, incoming, ready) && visited == |level|
      decreases |g.nodes| - |level|
    {
      var layer := ready;
      incoming, ready, level := PeelLayer(g, layer, level, layers, incoming);
      LevelSize(g, level);
      layers, visited := layers + [layer], visited + |layer|;
    }
    LoopEnd(g, level, layers, incoming);
    return if visited == |g.nodes| then Some(layers) else None;
  }
}
