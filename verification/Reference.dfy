/**
 The result of a run, defined without a schedule: each node's output from its upstreams' outputs,
 by recursion over the graph. No routed edges, payload tables, tasks or permits occur here.
 */
module Reference {
  import opened Wrappers
  import opened Graphs
  import opened DagModels
  import opened Jobs

  /** A successful output that the condition on the edge lets through; a prefilled one only counts with a payload. */
  predicate Feeds(job: Job, u: NodeId, o: NodeOutput, n: NodeId) {
    o.ok && (u in job.prefilled ==> o.payload != Null) && Passes(job, u, n, o.payload)
  }

  /**
   A failed upstream the node can do without: an optional edge, or a source beside another one that brings
   something.
   */
  ghost predicate Tolerated(job: Job, u: NodeId, n: NodeId, outs: map<NodeId, NodeOutput>)
    requires u in job.graph.instances && n in job.graph.reverse
  {
    || (u, n) in job.graph.optional
    || (SourceRole(job, u)
        && exists other {:trigger other in job.graph.reverse[n]} ::
             && other in job.graph.reverse[n] && other != u
             && other in outs && outs[other].payload != Null && Feeds(job, other, outs[other], n))
  }

  datatype Verdict = Waits | Runs | Fails | Skips

  ghost predicate FailsAt(job: Job, u: NodeId, n: NodeId, outs: map<NodeId, NodeOutput>)
    requires u in job.graph.instances && n in job.graph.reverse
  {
    u in outs && !outs[u].ok && !Tolerated(job, u, n, outs)
  }

  ghost predicate SkipsAt(job: Job, u: NodeId, n: NodeId, outs: map<NodeId, NodeOutput>) {
    u in outs && outs[u].ok && !Feeds(job, u, outs[u], n)
  }

  /** What becomes of a node, given the outputs of its upstreams. */
  ghost function VerdictOn(job: Job, n: NodeId, outs: map<NodeId, NodeOutput>): Verdict
    requires WellFormed(job.graph) && n in job.graph.reverse
  {
    var ups := job.graph.reverse[n];
    if exists u {:trigger u in ups} :: u in ups && u !in outs then Waits
    else if exists u {:trigger u in ups} :: u in ups && FailsAt(job, u, n, outs) then Fails
    else if exists u {:trigger u in ups} :: u in ups && SkipsAt(job, u, n, outs) then Skips
    else Runs
  }

  ghost function FailingUpstreams(job: Job, ups: seq<NodeId>, n: NodeId, outs: map<NodeId, NodeOutput>): seq<NodeId>
    requires n in job.graph.reverse
    requires forall u {:trigger u in ups} :: u in ups ==> u in job.graph.instances
  {
    if ups == [] then []
    else
      var rest := ups[1..];
      assert ups[0] in ups && forall w :: w in rest ==> w in ups;
      (if FailsAt(job, ups[0], n, outs) then [ups[0]] else []) + FailingUpstreams(job, rest, n, outs)
  }

  /** The payloads that reach the node, in the order of its upstreams. */
  ghost function FeedValues(job: Job, ups: seq<NodeId>, n: NodeId, outs: map<NodeId, NodeOutput>): seq<Value> {
    if ups == [] then []
    else
      var u := ups[|ups| - 1];
      FeedValues(job, ups[..|ups| - 1], n, outs)
      + if u in outs && Feeds(job, u, outs[u], n) && outs[u].payload != Null then [outs[u].payload] else []
  }

  ghost function FanFeeds(job: Job, ups: seq<NodeId>, n: NodeId, outs: map<NodeId, NodeOutput>): Option<seq<Value>> {
    if ups == [] then None
    else
      var u := ups[|ups| - 1];
      var before := FanFeeds(job, ups[..|ups| - 1], n, outs);
      if (u, n) in job.graph.fanOut && u in outs && Feeds(job, u, outs[u], n) then
        Some((if before.Some? then before.value else []) + FanItems(outs[u].payload))
      else before
  }

  ghost function FeedPayload(job: Job, n: NodeId, outs: map<NodeId, NodeOutput>): Value
    requires n in job.graph.reverse && n in job.graph.instances
  {
    var ups := job.graph.reverse[n];
    WithOverride(job.inputs, n, if ups == [] then SourceBase(job, n) else Gather(FeedValues(job, ups, n, outs)))
  }

  /** The output of a node that runs on the given upstream outputs. */
  ghost function RunOutput(job: Job, n: NodeId, outs: map<NodeId, NodeOutput>): NodeOutput
    requires n in job.graph.reverse && n in job.graph.instances
  {
    var ups := job.graph.reverse[n];
    TaskResult(job, n, FanFeeds(job, ups, n, outs), FeedPayload(job, n, outs), Facts(job, ups, n, outs))
  }

  ghost function OutputFrom(job: Job, n: NodeId, outs: map<NodeId, NodeOutput>): Option<NodeOutput>
    requires WellFormed(job.graph) && n in job.graph.reverse
  {
    match VerdictOn(job, n, outs)
    case Runs => Some(RunOutput(job, n, outs))
    case Fails => Some(UpstreamFailed(n, FailingUpstreams(job, job.graph.reverse[n], n, outs), outs))
    case _ => None
  }

  lemma UpstreamRanksLower(g: DagGraph, n: NodeId)
    requires WellFormed(g) && Acyclic(g.edges) && n in g.reverse
    ensures forall u {:trigger u in g.reverse[n]} ::
        u in g.reverse[n] ==> u in g.reverse && Rank(g.edges)[u] < Rank(g.edges)[n]
  {
    forall u | u in g.reverse[n] ensures u in g.reverse && Rank(g.edges)[u] < Rank(g.edges)[n] {
      MirroredMembers(g, u, n);
    }
  }

  /** The output of a node in the whole job, if it gets one. */
  ghost function Evaluate(job: Job, n: NodeId): Option<NodeOutput>
    requires ValidJob(job) && n in job.graph.reverse
    decreases Rank(job.graph.edges)[n], 1
  {
    if n in job.prefilled then Some(job.prefilled[n])
    else if n !in Allowed(job) then None
    else OutputFrom(job, n, UpstreamOutputs(job, n))
  }

  ghost function UpstreamOutputs(job: Job, n: NodeId): map<NodeId, NodeOutput>
    requires ValidJob(job) && n in job.graph.reverse
    decreases Rank(job.graph.edges)[n], 0
  {
    UpstreamRanksLower(job.graph, n);
    map u | u in job.graph.reverse[n] && Evaluate(job, u).Some? :: Evaluate(job, u).value
  }

  lemma UpstreamOutputAt(job: Job, n: NodeId, u: NodeId)
    requires ValidJob(job) && n in job.graph.reverse
    ensures u in UpstreamOutputs(job, n)
        <==> u in job.graph.reverse[n] && u in job.graph.reverse && Evaluate(job, u).Some?
    ensures u in UpstreamOutputs(job, n) ==> Evaluate(job, u) == Some(UpstreamOutputs(job, n)[u])
  {
    UpstreamRanksLower(job.graph, n);
  }

  lemma RunsMeans(job: Job, n: NodeId, outs: map<NodeId, NodeOutput>, u: NodeId)
    requires WellFormed(job.graph) && n in job.graph.reverse && u in job.graph.reverse[n]
        && VerdictOn(job, n, outs) == Runs
    ensures u in outs && !FailsAt(job, u, n, outs) && !SkipsAt(job, u, n, outs)
  {
  }

  lemma SkipsMeans(job: Job, n: NodeId, outs: map<NodeId, NodeOutput>, u: NodeId)
    requires WellFormed(job.graph) && n in job.graph.reverse && u in job.graph.reverse[n] && SkipsAt(job, u, n, outs)
    requires forall w {:trigger w in job.graph.reverse[n]} ::
        w in job.graph.reverse[n] ==> w in outs && !FailsAt(job, w, n, outs)
    ensures VerdictOn(job, n, outs) == Skips
  {
  }

  /** The outputs of the whole job. */
  ghost function Outcome(job: Job): map<NodeId, NodeOutput>
    requires ValidJob(job)
  {
    map n | n in job.graph.reverse && Evaluate(job, n).Some? :: Evaluate(job, n).value
  }
}
