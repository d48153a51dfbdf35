/**
 Every schedule ends with the same outputs: those of the reference evaluation. The claim is made for
 any part of the graph that is closed under upstreams and in which no node with upstreams accumulates,
 exactly if the start-up loop admits its accumulating sources; when that part is the whole graph, the
 complete result of the run is the same.
 */
module Confluence {
  import opened Wrappers
  import opened Graphs
  import opened DagModels
  import opened Helpers
  import opened Jobs
  import opened Reference
  import opened Scheduler
  import opened LocalView
  import opened Invariants
  import opened Safety
  import opened Admission

  /** A node whose upstreams it waits for all at once: with upstreams, it does not accumulate. */
  ghost predicate BarrierNode(job: Job, n: NodeId)
    requires WellFormed(job.graph) && n in job.graph.reverse
  {
    !IsMerged(job.graph, n)
  }

  ghost predicate BarrierRegion(job: Job, region: set<NodeId>)
    requires WellFormed(job.graph)
  {
    && region <= job.graph.reverse.Keys
    && (forall n {:trigger n in region} :: n in region ==> BarrierNode(job, n))
    && (forall n, u {:trigger u in job.graph.reverse[n]} :: n in region && u in job.graph.reverse[n] ==> u in region)
  }

  lemma SameUpstreams(job: Job, n: NodeId, outputs: map<NodeId, NodeOutput>)
    requires ValidJob(job) && n in job.graph.reverse
    requires forall u {:trigger u in job.graph.reverse[n]} :: u in job.graph.reverse[n] ==>
               u in job.graph.reverse && u in outputs && Evaluate(job, u) == Some(outputs[u])
    ensures UpstreamOutputs(job, n) == Sees(job.graph, n, outputs)
  {
    var outs, seen := UpstreamOutputs(job, n), Sees(job.graph, n, outputs);
    forall u ensures (u in outs <==> u in seen) && (u in outs ==> outs[u] == seen[u]) {
      UpstreamOutputAt(job, n, u);
    }
  }

  lemma NotWaiting(job: Job, n: NodeId, outs: map<NodeId, NodeOutput>, u: NodeId)
    requires WellFormed(job.graph) && n in job.graph.reverse && VerdictOn(job, n, outs) != Waits
        && u in job.graph.reverse[n]
    ensures u in outs
  {
  }

  /** An output stored at any time, on any schedule, is the reference's. */
  lemma {:induction false} OutputIsReference(job: Job, c: Core, region: set<NodeId>, n: NodeId)
    requires ValidJob(job) && OutputsOk(job, c) && Places(job, c) && BarrierRegion(job, region) && n in region
        && n in c.outputs
    ensures Evaluate(job, n) == Some(c.outputs[n])
    decreases Rank(job.graph.edges)[n]
  {
    if n !in job.prefilled {
      assert OutputOk(job, c.outputs, n) && BarrierNode(job, n);
      UpstreamRanksLower(job.graph, n);
      var seen := Sees(job.graph, n, c.outputs);
      forall u | u in job.graph.reverse[n]
        ensures u in job.graph.reverse && u in c.outputs && Evaluate(job, u) == Some(c.outputs[u])
      {
        NotWaiting(job, n, seen, u);
        OutputIsReference(job, c, region, u);
      }
      SameUpstreams(job, n, c.outputs);
    }
  }

  /** When the loop has ended, every node the reference gives an output has one. */
  lemma {:induction false} ReferenceIsOutput(job: Job, s: State, region: set<NodeId>, n: NodeId)
    requires ValidJob(job) && Inv(job, s) && Exited(job, s)
    requires BarrierRegion(job, region) && MarkedSourcesStarted(job, s.core, region) && n in region
        && Evaluate(job, n).Some?
    ensures n in s.core.outputs
    decreases Rank(job.graph.edges)[n]
  {
    var c := s.core;
    if n !in c.outputs {
      var outs := UpstreamOutputs(job, n);
      UpstreamRanksLower(job.graph, n);
      forall u | u in job.graph.reverse[n]
        ensures u in job.graph.reverse && u in c.outputs && Evaluate(job, u) == Some(c.outputs[u])
      {
        NotWaiting(job, n, outs, u);
        ReferenceIsOutput(job, s, region, u);
        OutputIsReference(job, c, region, u);
      }
      SameUpstreams(job, n, c.outputs);
      ReadyMeansRuns(job, c, n);
      BlockedMeansFails(job, c, n);
      assert BarrierNode(job, n) && (IsMarkedSource(job, n) ==> n in c.started);
      NothingLeft(job, s, n);
      assert false;
    }
  }

  /** After the end of the loop, a node that could be dispatched or blocked has an output. */
  lemma NothingLeft(job: Job, s: State, n: NodeId)
    requires WellFormed(job.graph) && Places(job, s.core) && Exited(job, s)
    requires n in job.graph.reverse && n in Allowed(job) && (IsAccumulate(job.graph, n) ==> n in s.core.started)
    requires Ready(job, n, s.core.outputs, s.core.routed) || Blocked(job, n, s.core.outputs, s.core.routed)
    ensures n in s.core.outputs
  {
    var c := s.core;
    assert Queued(c) == {};
    if n !in c.started {
      assert Startable(job, c, n);
    }
  }

  // ----- The theorems -----

  /** In a barrier region, whatever a run has stored, at any time and on any schedule, is the reference's. */
  lemma RegionIsReference(job: Job, free: map<string, nat>, stopped: bool, steps: seq<Step>, region: set<NodeId>,
      n: NodeId)
    requires ValidJob(job) && BarrierRegion(job, region) && n in region
    requires Legal(job, StartState(job, free, stopped), steps)
    ensures var outputs := After(job, StartState(job, free, stopped), steps).core.outputs;
      n in outputs ==> Evaluate(job, n) == Some(outputs[n])
  {
    var start := StartState(job, free, stopped);
    StartIsSound(job, free, stopped);
    RunSafe(job, start, steps);
    var c := After(job, start, steps).core;
    if n in c.outputs {
      OutputIsReference(job, c, region, n);
    }
  }

  /** The region has an output for exactly the nodes that the reference gives one. */
  ghost predicate Covered(job: Job, c: Core, region: set<NodeId>)
    requires ValidJob(job) && region <= job.graph.reverse.Keys
  {
    forall n {:trigger n in c.outputs} :: n in region ==> (n in c.outputs <==> Evaluate(job, n).Some?)
  }

  /**
   On a barrier region, a run that ends, whatever the schedule and the permits, gives exactly the nodes
   an output that the reference does, if and only if the start-up loop admits its accumulating sources.
   */
  lemma RegionConfluence(job: Job, free: map<string, nat>, stopped: bool, steps: seq<Step>, region: set<NodeId>)
    requires ValidJob(job) && BarrierRegion(job, region)
    requires Legal(job, StartState(job, free, stopped), steps)
        && Exited(job, After(job, StartState(job, free, stopped), steps))
    ensures Covered(job, After(job, StartState(job, free, stopped), steps).core, region)
        <==> AllAdmitted(job, free, region)
  {
    var start := StartState(job, free, stopped);
    var end := After(job, start, steps);
    StartIsSound(job, free, stopped);
    RunSafe(job, start, steps);
    if AllAdmitted(job, free, region) {
      AdmittedStayStarted(job, free, stopped, steps, region);
      forall n | n in region ensures n in end.core.outputs <==> Evaluate(job, n).Some? {
        RegionIsReference(job, free, stopped, steps, region, n);
        if Evaluate(job, n).Some? {
          ReferenceIsOutput(job, end, region, n);
        }
      }
    } else {
      var n :| n in region && n in job.graph.instances && IsMarkedSource(job, n) && !Admitted(job, free, n);
      NotAdmittedNeverRuns(job, free, stopped, steps, n);
      assert n !in end.core.outputs;
    }
  }

  ghost predicate BarrierOnly(job: Job)
    requires WellFormed(job.graph)
  {
    forall n {:trigger n in job.graph.reverse} :: n in job.graph.reverse ==> BarrierNode(job, n)
  }

  /** Failures and payloads that belong to the given outputs. */
  ghost function FailuresOf(job: Job, outputs: map<NodeId, NodeOutput>): map<NodeId, string> {
    map n | n in outputs && !outputs[n].ok && n !in job.prefilled :: ErrorText(outputs[n])
  }

  ghost function PayloadsOf(job: Job, outputs: map<NodeId, NodeOutput>): map<NodeId, Value> {
    map n | n in outputs && outputs[n].ok && (n in job.prefilled ==> outputs[n].payload != Null) :: outputs[n].payload
  }

  /** What the job must return: a function of the job alone. */
  ghost function ReferenceResult(job: Job): Option<RunResult>
    requires ValidJob(job)
  {
    var outs := Outcome(job);
    FinishRun(job, outs, FailuresOf(job, outs), PayloadsOf(job, outs), false)
  }

  lemma TablesFollowOutputs(job: Job, c: Core)
    requires WellFormed(job.graph) && PayloadsOk(job, c) && FailuresOk(job, c)
    ensures c.failures == FailuresOf(job, c.outputs) && c.payloads == PayloadsOf(job, c.outputs)
  {
  }

  lemma BarrierOnlyRegion(job: Job)
    requires WellFormed(job.graph) && BarrierOnly(job)
    ensures BarrierRegion(job, job.graph.reverse.Keys)
  {
  }

  /**
   On a barrier-only graph, every run whose loop ends has the outputs of the reference evaluation, if and
   only if the start-up loop admits the accumulating sources.
   */
  lemma OutputsConfluent(job: Job, free: map<string, nat>, stopped: bool, steps: seq<Step>)
    requires ValidJob(job) && BarrierOnly(job)
    requires Legal(job, StartState(job, free, stopped), steps)
        && Exited(job, After(job, StartState(job, free, stopped), steps))
    ensures After(job, StartState(job, free, stopped), steps).core.outputs == Outcome(job)
        <==> AllAdmitted(job, free, job.graph.reverse.Keys)
  {
    var c := After(job, StartState(job, free, stopped), steps).core;
    StartIsSound(job, free, stopped);
    RunSafe(job, StartState(job, free, stopped), steps);
    BarrierOnlyRegion(job);
    RegionConfluence(job, free, stopped, steps, job.graph.reverse.Keys);
    forall n | n in job.graph.reverse ensures n in c.outputs ==> Evaluate(job, n) == Some(c.outputs[n]) {
      RegionIsReference(job, free, stopped, steps, job.graph.reverse.Keys, n);
    }
    CoveredIsOutcome(job, c);
  }

  lemma CoveredIsOutcome(job: Job, c: Core)
    requires ValidJob(job) && c.outputs.Keys <= job.graph.edges.Keys
    requires forall n {:trigger n in c.outputs} ::
        n in job.graph.reverse && n in c.outputs ==> Evaluate(job, n) == Some(c.outputs[n])
    ensures Covered(job, c, job.graph.reverse.Keys) <==> c.outputs == Outcome(job)
  {
    if Covered(job, c, job.graph.reverse.Keys) {
      SameAsOutcome(job, c.outputs);
    }
  }

  lemma SameAsOutcome(job: Job, outputs: map<NodeId, NodeOutput>)
    requires ValidJob(job) && outputs.Keys <= job.graph.edges.Keys
    requires forall n {:trigger n in outputs} :: n in job.graph.reverse ==>
               (n in outputs <==> Evaluate(job, n).Some?) && (n in outputs ==> Evaluate(job, n) == Some(outputs[n]))
    ensures outputs == Outcome(job)
  {
  }

  /**
   ... and, unless it was stopped, returns the reference result: outputs, failures and last payload, or the
   same refusal. Under the same condition, and only then.
   */
  lemma RunsReturnReferenceResult(job: Job, free: map<string, nat>, steps: seq<Step>)
    requires ValidJob(job) && BarrierOnly(job)
    requires Legal(job, StartState(job, free, false), steps)
        && Exited(job, After(job, StartState(job, free, false), steps))
    ensures var c := After(job, StartState(job, free, false), steps).core;
      FinishRun(job, c.outputs, c.failures, c.payloads, false) == ReferenceResult(job)
      <==> AllAdmitted(job, free, job.graph.reverse.Keys)
  {
    var c := After(job, StartState(job, free, false), steps).core;
    OutputsConfluent(job, free, false, steps);
    if AllAdmitted(job, free, job.graph.reverse.Keys) {
      StartIsSound(job, free, false);
      RunSafe(job, StartState(job, free, false), steps);
      TablesFollowOutputs(job, c);
    } else {
      var n :| n in job.graph.reverse && n in job.graph.instances && IsMarkedSource(job, n) && !Admitted(job, free, n);
      NotAdmittedNeverRuns(job, free, false, steps, n);
      MissingSourceShows(job, c, n);
    }
  }

  /** A source that has not run is missed in the result, which is neither a refusal nor the reference's. */
  lemma MissingSourceShows(job: Job, c: Core, n: NodeId)
    requires ValidJob(job) && n in job.graph.reverse && IsSourceToStart(job, n) && n !in c.outputs
        && c.outputs != Outcome(job)
    ensures FinishRun(job, c.outputs, c.failures, c.payloads, false) != ReferenceResult(job)
  {
    assert IsStartNode(job, n) && n in job.graph.nodes;
  }
}
