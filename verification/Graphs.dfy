/**
 Directed graphs given by adjacency lists, the walks through them, and what it means for
 one to have a cycle. Every algorithm of the project that orders, layers or closes a graph
 is measured against these definitions.
 */
module Graphs {
  type NodeId = string
  type Edge = (NodeId, NodeId)
  type Links = map<NodeId, seq<NodeId>>

  /** Every link leads to a node that has links of its own. */
  ghost predicate ClosedLinks(links: Links) {
    forall u, v {:trigger v in links[u]} :: u in links && v in links[u] ==> v in links
  }

  ghost predicate IsWalk(links: Links, p: seq<NodeId>) {
    && (forall i :: 0 <= i < |p| ==> p[i] in links)
    && (forall i :: 0 < i < |p| ==> p[i] in links[p[i - 1]])
  }

  /** A walk that comes back to where it started. */
  ghost predicate IsCycle(links: Links, p: seq<NodeId>) {
    |p| >= 2 && IsWalk(links, p) && p[0] == p[|p| - 1]
  }

  ghost predicate Acyclic(links: Links) {
    forall p :: !IsCycle(links, p)
  }

  ghost predicate WalkTo(links: Links, p: seq<NodeId>, v: NodeId) {
    IsWalk(links, p) && p != [] && p[|p| - 1] == v
  }

  ghost predicate WalkBetween(links: Links, p: seq<NodeId>, u: NodeId, v: NodeId) {
    IsWalk(links, p) && p != [] && p[0] == u && p[|p| - 1] == v
  }

  ghost predicate Reaches(links: Links, u: NodeId, v: NodeId) {
    exists p :: WalkBetween(links, p, u, v)
  }

  /** The longest walk that ends in `v` takes `k` links. */
  ghost predicate LongestWalkTo(links: Links, v: NodeId, k: nat) {
    && (exists p {:trigger WalkTo(links, p, v)} :: WalkTo(links, p, v) && |p| == k + 1)
    && (forall p {:trigger WalkTo(links, p, v)} :: WalkTo(links, p, v) ==> |p| <= k + 1)
  }

  ghost predicate Distinct<T>(s: seq<T>) {
    forall i, j :: 0 <= i < j < |s| ==> s[i] != s[j]
  }

  function Elements<T>(s: seq<T>): set<T> {
    set x | x in s
  }

  lemma TakeStep<T>(s: seq<T>, i: nat)
    requires i < |s|
    ensures s[..i + 1] == s[..i] + [s[i]]
  {
  }

  /** A numbering of the nodes that grows along every link. */
  ghost predicate IsRank(links: Links, rank: map<NodeId, nat>) {
    && rank.Keys == links.Keys
    && forall u, v {:trigger v in links[u]} :: u in links && v in links[u] ==> v in links && rank[u] < rank[v]
  }

  lemma {:induction false} DistinctCardinality<T>(s: seq<T>)
    requires Distinct(s)
    ensures |Elements(s)| == |s|
  {
    if s != [] {
      var last := s[|s| - 1];
      DistinctCardinality(s[..|s| - 1]);
      assert Elements(s) == Elements(s[..|s| - 1]) + {last};
    }
  }

  lemma SubsetCardinality<T>(a: set<T>, b: set<T>)
    requires a <= b
    ensures |a| <= |b|
  {
    assert b == a + (b - a);
  }

  /** A walk longer than the number of nodes visits some node twice. */
  lemma LongWalkHasCycle(links: Links, p: seq<NodeId>)
    requires IsWalk(links, p) && |p| > |links.Keys|
    ensures !Acyclic(links)
  {
    if Distinct(p) {
      DistinctCardinality(p);
      SubsetCardinality(Elements(p), links.Keys);
      assert false;
    }
    var i, j :| 0 <= i < j < |p| && p[i] == p[j];
    assert IsCycle(links, p[i..j + 1]);
  }

  ghost predicate FedFromWithin(links: Links, s: set<NodeId>, w: NodeId)
    requires s <= links.Keys
  {
    exists u {:trigger w in links[u]} :: u in s && w in links[u]
  }

  lemma PrependWalk(links: Links, u: NodeId, p: seq<NodeId>)
    requires IsWalk(links, p) && p != [] && u in links && p[0] in links[u]
    ensures IsWalk(links, [u] + p)
  {
    var q := [u] + p;
    forall i | 0 < i < |q| ensures q[i] in links[q[i - 1]] {
      if i > 1 {
        assert p[i - 1] in links[p[i - 2]];
      }
    }
  }

  /** Going backwards for ever inside a set: from any node of `s`, a walk of any length ends there. */
  lemma {:induction false} BackwardWalk(links: Links, s: set<NodeId>, v: NodeId, n: nat) returns (p: seq<NodeId>)
    requires s <= links.Keys && v in s
    requires forall w {:trigger FedFromWithin(links, s, w)} :: w in s ==> FedFromWithin(links, s, w)
    ensures |p| == n + 1 && WalkTo(links, p, v) && p[0] in s
  {
    if n == 0 {
      p := [v];
    } else {
      var tail := BackwardWalk(links, s, v, n - 1);
      assert FedFromWithin(links, s, tail[0]);
      var u :| u in s && tail[0] in links[u];
      PrependWalk(links, u, tail);
      p := [u] + tail;
    }
  }

  /** A nonempty set whose nodes all have a predecessor inside it holds a cycle. */
  lemma NoSourceMeansCycle(links: Links, s: set<NodeId>)
    requires s <= links.Keys && s != {}
    requires forall w {:trigger FedFromWithin(links, s, w)} :: w in s ==> FedFromWithin(links, s, w)
    ensures !Acyclic(links)
  {
    var v :| v in s;
    var p := BackwardWalk(links, s, v, |links.Keys|);
    LongWalkHasCycle(links, p);
  }

  lemma {:induction false} RankGrowsAlongWalk(links: Links, rank: map<NodeId, nat>, p: seq<NodeId>)
    requires IsRank(links, rank) && IsWalk(links, p) && p != []
    ensures rank[p[0]] + |p| - 1 <= rank[p[|p| - 1]]
  {
    if |p| > 1 {
      RankGrowsAlongWalk(links, rank, p[..|p| - 1]);
      assert p[|p| - 1] in links[p[|p| - 2]];
    }
  }

  lemma RankMeansAcyclic(links: Links, rank: map<NodeId, nat>)
    requires IsRank(links, rank)
    ensures Acyclic(links)
  {
    forall p ensures !IsCycle(links, p) {
      if IsCycle(links, p) {
        RankGrowsAlongWalk(links, rank, p);
        assert false;
      }
    }
  }

  /** An acyclic graph can be numbered: take a node without predecessors, number the rest above it. */
  lemma {:induction false} RankRemaining(links: Links, rest: set<NodeId>, next: nat) returns (rank: map<NodeId, nat>)
    requires ClosedLinks(links) && Acyclic(links) && rest <= links.Keys
    ensures rank.Keys == rest
    ensures forall v :: v in rest ==> rank[v] >= next
    ensures forall u, v {:trigger v in links[u]} :: u in rest && v in rest && v in links[u] ==> rank[u] < rank[v]
    decreases rest
  {
    if rest == {} {
      rank := map[];
    } else {
      if forall w :: w in rest ==> FedFromWithin(links, rest, w) {
        NoSourceMeansCycle(links, rest);
        assert false;
      }
      var first :| first in rest && !FedFromWithin(links, rest, first);
      var above := RankRemaining(links, rest - {first}, next + 1);
      rank := above[first := next];
    }
  }

  lemma AcyclicHasRank(links: Links) returns (rank: map<NodeId, nat>)
    requires ClosedLinks(links) && Acyclic(links)
    ensures IsRank(links, rank)
  {
    rank := RankRemaining(links, links.Keys, 0);
  }

  /** Some rank of an acyclic graph, to recurse on. */
  ghost function Rank(links: Links): (rank: map<NodeId, nat>)
    requires ClosedLinks(links) && Acyclic(links)
    ensures IsRank(links, rank)
  {
    assert exists rank :: IsRank(links, rank) by {
      var rank := AcyclicHasRank(links);
    }
    var rank :| IsRank(links, rank);
    rank
  }

  lemma ReachesItself(links: Links, v: NodeId)
    requires v in links
    ensures Reaches(links, v, v)
  {
    assert WalkBetween(links, [v], v, v);
  }

  lemma ReachesStep(links: Links, u: NodeId, v: NodeId, w: NodeId)
    requires Reaches(links, u, v) && w in links && w in links[v]
    ensures Reaches(links, u, w)
  {
    var p :| WalkBetween(links, p, u, v);
    assert WalkBetween(links, p + [w], u, w);
  }

  /** A set that contains `u` and is closed under links contains all that `u` reaches. */
  lemma {:induction false} ClosedContainsWalk(links: Links, s: set<NodeId>, p: seq<NodeId>)
    requires IsWalk(links, p) && p != [] && p[0] in s
    requires forall a, b {:trigger b in links[a]} :: a in s && a in links && b in links[a] ==> b in s
    ensures p[|p| - 1] in s
  {
    if |p| > 1 {
      ClosedContainsWalk(links, s, p[..|p| - 1]);
      assert p[|p| - 1] in links[p[|p| - 2]];
    }
  }

  lemma ClosedContainsReachable(links: Links, s: set<NodeId>, u: NodeId, v: NodeId)
    requires u in s && Reaches(links, u, v)
    requires forall a, b {:trigger b in links[a]} :: a in s && a in links && b in links[a] ==> b in s
    ensures v in s
  {
    var p :| WalkBetween(links, p, u, v);
    ClosedContainsWalk(links, s, p);
  }
}
