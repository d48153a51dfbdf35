/** What the runner's tables say about the upstreams of a node agrees with the reference definition. */
module LocalView {
  import opened Wrappers
  import opened Graphs
  import opened DagModels
  import opened Jobs
  import opened Reference
  import opened Scheduler

  /** Whether the table of routed edges must hold the edge from `u`, which has the output `o`, to `v`. */
  ghost predicate ShouldRoute(job: Job, u: NodeId, o: NodeOutput, v: NodeId) {
    if o.ok then Feeds(job, u, o, v) else u !in job.prefilled && (u, v) in job.graph.optional
  }

  /** The routed edges are exactly the graph edges out of nodes with outputs that should be routed. */
  ghost predicate RoutesOk(job: Job, c: Core) {
    forall u, v {:trigger (u, v) in c.routed} :: (u, v) in c.routed <==>
      u in c.outputs && u in job.graph.edges && v in job.graph.edges[u] && ShouldRoute(job, u, c.outputs[u], v)
  }

  /** The payload table holds exactly the payloads of the successful outputs; a prefilled one only if it is not null. */
  ghost predicate PayloadsOk(job: Job, c: Core) {
    forall u {:trigger u in c.payloads} {:trigger c.outputs[u]} ::
      && (u in c.payloads
          <==> u in c.outputs && c.outputs[u].ok && (u in job.prefilled ==> c.outputs[u].payload != Null))
      && (u in c.payloads ==> c.payloads[u] == c.outputs[u].payload)
  }

  /** The upstream outputs a node can see. */
  ghost function Sees(g: DagGraph, n: NodeId, outputs: map<NodeId, NodeOutput>): map<NodeId, NodeOutput>
    requires n in g.reverse
  {
    map u | u in g.reverse[n] && u in outputs :: outputs[u]
  }

  lemma RoutedFromUpstream(job: Job, c: Core, n: NodeId, u: NodeId)
    requires WellFormed(job.graph) && RoutesOk(job, c) && n in job.graph.reverse && u in job.graph.reverse[n]
    ensures (u, n) in c.routed <==> u in c.outputs && ShouldRoute(job, u, c.outputs[u], n)
  {
    MirroredMembers(job.graph, u, n);
  }

  lemma SkippableMeansTolerated(job: Job, c: Core, n: NodeId, u: NodeId)
    requires WellFormed(job.graph) && RoutesOk(job, c) && n in job.graph.reverse && u in job.graph.reverse[n]
    ensures ((u, n) in job.graph.optional || SourceFailureCanBeSkipped(job, u, n, c.outputs, c.routed))
              <==> Tolerated(job, u, n, Sees(job.graph, n, c.outputs))
  {
    forall other | other in job.graph.reverse[n]
      ensures (other, n) in c.routed <==> other in c.outputs && ShouldRoute(job, other, c.outputs[other], n)
    {
      RoutedFromUpstream(job, c, n, other);
    }
  }

  lemma LetsRunMeans(job: Job, c: Core, n: NodeId, u: NodeId)
    requires WellFormed(job.graph) && RoutesOk(job, c) && n in job.graph.reverse && u in job.graph.reverse[n]
        && u in c.outputs
    ensures var outs := Sees(job.graph, n, c.outputs);
      LetsRun(job, u, n, c.outputs, c.routed) <==> !FailsAt(job, u, n, outs) && !SkipsAt(job, u, n, outs)
  {
    RoutedFromUpstream(job, c, n, u);
    SkippableMeansTolerated(job, c, n, u);
  }

  lemma ReadyMeansRuns(job: Job, c: Core, n: NodeId)
    requires WellFormed(job.graph) && RoutesOk(job, c) && n in job.graph.reverse
    ensures Ready(job, n, c.outputs, c.routed) <==> VerdictOn(job, n, Sees(job.graph, n, c.outputs)) == Runs
  {
    var ups := job.graph.reverse[n];
    if ups != [] && AllArrived(ups, c.outputs) {
      ReadyFromMeansAll(job, ups, n, c.outputs, c.routed);
      forall u | u in ups
        ensures var outs := Sees(job.graph, n, c.outputs);
          LetsRun(job, u, n, c.outputs, c.routed) <==> !FailsAt(job, u, n, outs) && !SkipsAt(job, u, n, outs)
      {
        LetsRunMeans(job, c, n, u);
      }
    }
  }

  lemma {:induction false} BlockingIsFailing(job: Job, c: Core, n: NodeId, ups: seq<NodeId>)
    requires WellFormed(job.graph) && RoutesOk(job, c) && n in job.graph.reverse
    requires forall u {:trigger u in ups} :: u in ups ==> u in job.graph.reverse[n]
    ensures (forall u {:trigger u in ups} :: u in ups ==> u in job.graph.instances)
      && BlockingFailures(job, ups, n, c.outputs, c.routed)
          == FailingUpstreams(job, ups, n, Sees(job.graph, n, c.outputs))
  {
    if ups != [] {
      var u, rest := ups[0], ups[1..];
      assert u in ups && forall w :: w in rest ==> w in ups;
      BlockingIsFailing(job, c, n, rest);
      SkippableMeansTolerated(job, c, n, u);
    }
  }

  lemma {:induction false} FailingMembers(job: Job, ups: seq<NodeId>, n: NodeId, outs: map<NodeId, NodeOutput>)
    requires n in job.graph.reverse
    requires forall u {:trigger u in ups} :: u in ups ==> u in job.graph.instances
    ensures forall u {:trigger u in FailingUpstreams(job, ups, n, outs)} ::
        u in FailingUpstreams(job, ups, n, outs) <==> u in ups && FailsAt(job, u, n, outs)
  {
    if ups != [] {
      var rest := ups[1..];
      assert ups[0] in ups && forall w :: w in rest ==> w in ups;
      FailingMembers(job, rest, n, outs);
      assert ups == [ups[0]] + rest;
    }
  }

  lemma BlockedMeansFails(job: Job, c: Core, n: NodeId)
    requires WellFormed(job.graph) && RoutesOk(job, c) && n in job.graph.reverse
    ensures Blocked(job, n, c.outputs, c.routed) <==> VerdictOn(job, n, Sees(job.graph, n, c.outputs)) == Fails
  {
    var ups, outs := job.graph.reverse[n], Sees(job.graph, n, c.outputs);
    BlockingIsFailing(job, c, n, ups);
    FailingMembers(job, ups, n, outs);
    var failing := FailingUpstreams(job, ups, n, outs);
    if failing != [] {
      assert failing[0] in failing;
      assert failing[0] in ups && FailsAt(job, failing[0], n, outs);
    }
    if VerdictOn(job, n, outs) == Fails {
      var u :| u in ups && FailsAt(job, u, n, outs);
      assert u in failing;
    }
  }

  lemma {:induction false} SameFailureLines(blocking: seq<NodeId>, outputs: map<NodeId, NodeOutput>,
      outs: map<NodeId, NodeOutput>)
    requires forall u {:trigger u in blocking} :: u in blocking ==> u in outputs && u in outs && outputs[u] == outs[u]
    ensures FailureLines(blocking, outputs) == FailureLines(blocking, outs)
  {
    if blocking != [] {
      assert blocking[0] in blocking && forall w :: w in blocking[1..] ==> w in blocking;
      SameFailureLines(blocking[1..], outputs, outs);
    }
  }

  /** A node that is marked blocked gets the failure the reference gives it. */
  lemma BlockedOutput(job: Job, c: Core, n: NodeId)
    requires WellFormed(job.graph) && RoutesOk(job, c) && n in job.graph.reverse && Blocked(job, n, c.outputs, c.routed)
    ensures OutputFrom(job, n, Sees(job.graph, n, c.outputs)) ==
              Some(UpstreamFailed(n, BlockingFailures(job, job.graph.reverse[n], n, c.outputs, c.routed), c.outputs))
  {
    var ups, outs := job.graph.reverse[n], Sees(job.graph, n, c.outputs);
    BlockedMeansFails(job, c, n);
    BlockingIsFailing(job, c, n, ups);
    FailingMembers(job, ups, n, outs);
    SameFailureLines(FailingUpstreams(job, ups, n, outs), c.outputs, outs);
  }

  lemma {:induction false} FanOutIsFeeds(job: Job, c: Core, n: NodeId, ups: seq<NodeId>)
    requires WellFormed(job.graph) && RoutesOk(job, c) && n in job.graph.reverse
    requires forall u {:trigger u in ups} :: u in ups ==> u in job.graph.reverse[n]
    ensures FanOutPayloads(job, ups, n, c.outputs, c.routed) == FanFeeds(job, ups, n, Sees(job.graph, n, c.outputs))
  {
    if ups != [] {
      var u, front := ups[|ups| - 1], ups[..|ups| - 1];
      assert u in ups && forall w :: w in front ==> w in ups;
      FanOutIsFeeds(job, c, n, front);
      RoutedFromUpstream(job, c, n, u);
    }
  }

  /** The payload lookups cannot miss, and find what the reference gathers. */
  lemma {:induction false} ValuesAreFeeds(job: Job, c: Core, n: NodeId, ups: seq<NodeId>)
    requires WellFormed(job.graph) && RoutesOk(job, c) && PayloadsOk(job, c) && n in job.graph.reverse
    requires forall u {:trigger u in ups} :: u in ups ==> u in job.graph.reverse[n]
    ensures LookupsSucceed(ups, n, c.outputs, c.payloads, c.routed)
      && UpstreamValues(ups, n, c.outputs, c.payloads, c.routed)
          == FeedValues(job, ups, n, Sees(job.graph, n, c.outputs))
  {
    if ups != [] {
      var u, front := ups[|ups| - 1], ups[..|ups| - 1];
      assert ups == front + [u];
      assert u in ups && forall w :: w in front ==> w in ups;
      ValuesAreFeeds(job, c, n, front);
      RoutedFromUpstream(job, c, n, u);
    }
  }

  lemma FactsFromSeen(job: Job, n: NodeId, outputs: map<NodeId, NodeOutput>)
    requires n in job.graph.reverse
    ensures Facts(job, job.graph.reverse[n], n, outputs)
        == Facts(job, job.graph.reverse[n], n, Sees(job.graph, n, outputs))
  {
    var ups, outs := job.graph.reverse[n], Sees(job.graph, n, outputs);
    forall i | 0 <= i < |ups| ensures FactOf(job, ups[i], n, outputs) == FactOf(job, ups[i], n, outs) {
      assert ups[i] in ups;
    }
  }

  /** Whenever a task reads its input, it computes the output the reference gives its node. */
  lemma ExecutedOutput(job: Job, c: Core, n: NodeId)
    requires WellFormed(job.graph) && RoutesOk(job, c) && PayloadsOk(job, c) && n in job.graph.reverse
    ensures LookupsSucceed(job.graph.reverse[n], n, c.outputs, c.payloads, c.routed)
      && TaskResult(job, n, FanFeeds(job, job.graph.reverse[n], n, Sees(job.graph, n, c.outputs)),
                    InputPayload(job, n, c.outputs, c.payloads, c.routed),
                        Facts(job, job.graph.reverse[n], n, c.outputs))
         == RunOutput(job, n, Sees(job.graph, n, c.outputs))
  {
    ValuesAreFeeds(job, c, n, job.graph.reverse[n]);
    FactsFromSeen(job, n, c.outputs);
  }
}
