/** Retrying part of a finished run: when it gives what a full run gives. */
module Retry {
  import opened Wrappers
  import opened Graphs
  import opened DagModels
  import opened Jobs
  import opened Reference
  import opened Scheduler
  import opened Admission
  import opened Confluence

  /** A run of the whole graph from nothing. */
  ghost predicate IsFullRun(job: Job) {
    ValidJob(job) && job.retry == {} && job.prefilled == map[]
  }

  ghost function Kept(full: Job, retry: set<NodeId>): map<NodeId, NodeOutput>
    requires ValidJob(full)
  {
    map n | n in Outcome(full) && n !in retry :: Outcome(full)[n]
  }

  /** The retry of some nodes, with all other outputs of the full run filled in. */
  ghost function RetryJob(full: Job, retry: set<NodeId>): Job
    requires ValidJob(full)
  {
    full.(retry := retry, prefilled := Kept(full, retry))
  }

  /** In the full run the node ran on a successful upstream output without payload that the retry fills in. */
  ghost predicate RanOnKeptNull(full: Job, retry: set<NodeId>, n: NodeId, u: NodeId)
    requires ValidJob(full)
  {
    && n in full.graph.reverse && n in retry && u in full.graph.reverse[n] && u !in retry
    && u in Outcome(full) && Outcome(full)[u].ok && Outcome(full)[u].payload == Null
    && VerdictOn(full, n, UpstreamOutputs(full, n)) == Runs
  }

  /** Where the upstreams of a node come out the same in two jobs, the node sees the same. */
  lemma SeesSame(a: Job, b: Job, n: NodeId)
    requires ValidJob(a) && ValidJob(b) && a.graph == b.graph && n in b.graph.reverse
    requires forall u {:trigger u in b.graph.reverse[n]} ::
        u in b.graph.reverse[n] ==> u in b.graph.reverse && Evaluate(a, u) == Evaluate(b, u)
    ensures UpstreamOutputs(a, n) == UpstreamOutputs(b, n)
  {
    var x, y := UpstreamOutputs(a, n), UpstreamOutputs(b, n);
    forall u ensures (u in x <==> u in y) && (u in x ==> x[u] == y[u]) {
      UpstreamOutputAt(a, n, u);
      UpstreamOutputAt(b, n, u);
    }
  }

  lemma RetrySeesSame(full: Job, retry: set<NodeId>, n: NodeId)
    requires IsFullRun(full) && retry != {} && n in full.graph.reverse
    requires forall u {:trigger u in full.graph.reverse[n]} :: u in full.graph.reverse[n] ==>
               u in full.graph.reverse && Evaluate(RetryJob(full, retry), u) == Evaluate(full, u)
    ensures UpstreamOutputs(RetryJob(full, retry), n) == UpstreamOutputs(full, n)
  {
    SeesSame(RetryJob(full, retry), full, n);
  }

  /** A filled-in output feeds a node in the retry as in the full run, unless it is a success without payload. */
  lemma FeedsInRetry(full: Job, retry: set<NodeId>, n: NodeId, u: NodeId, o: NodeOutput)
    requires IsFullRun(full) && n in full.graph.reverse
    ensures Feeds(RetryJob(full, retry), u, o, n)
        <==> Feeds(full, u, o, n) && (u in Kept(full, retry) ==> o.payload != Null)
  {
  }

  lemma ToleratedInRetry(full: Job, retry: set<NodeId>, n: NodeId, u: NodeId, outs: map<NodeId, NodeOutput>)
    requires IsFullRun(full) && n in full.graph.reverse && u in full.graph.instances
    ensures Tolerated(RetryJob(full, retry), u, n, outs) <==> Tolerated(full, u, n, outs)
  {
    var r := RetryJob(full, retry);
    forall other, o: NodeOutput | o.payload != Null ensures Feeds(r, other, o, n) <==> Feeds(full, other, o, n) {
      FeedsInRetry(full, retry, n, other, o);
    }
  }

  lemma {:induction false} SameFailing(full: Job, retry: set<NodeId>, ups: seq<NodeId>, n: NodeId,
      outs: map<NodeId, NodeOutput>)
    requires IsFullRun(full) && n in full.graph.reverse
    requires forall u {:trigger u in ups} :: u in ups ==> u in full.graph.instances
    ensures FailingUpstreams(RetryJob(full, retry), ups, n, outs) == FailingUpstreams(full, ups, n, outs)
  {
    if ups != [] {
      assert ups[0] in ups && forall w :: w in ups[1..] ==> w in ups;
      SameFailing(full, retry, ups[1..], n, outs);
      ToleratedInRetry(full, retry, n, ups[0], outs);
    }
  }

  /** No kept success without payload feeds the node. */
  ghost predicate NoKeptNull(full: Job, retry: set<NodeId>, n: NodeId, outs: map<NodeId, NodeOutput>)
    requires ValidJob(full) && n in full.graph.reverse
  {
    forall u {:trigger u in full.graph.reverse[n]} ::
      u in full.graph.reverse[n] && u in outs && outs[u].ok && outs[u].payload == Null ==> u !in Kept(full, retry)
  }

  lemma {:induction false} SameFeeds(full: Job, retry: set<NodeId>, ups: seq<NodeId>, n: NodeId,
      outs: map<NodeId, NodeOutput>)
    requires IsFullRun(full) && n in full.graph.reverse && NoKeptNull(full, retry, n, outs)
    requires forall u {:trigger u in ups} :: u in ups ==> u in full.graph.reverse[n]
    ensures FeedValues(RetryJob(full, retry), ups, n, outs) == FeedValues(full, ups, n, outs)
    ensures FanFeeds(RetryJob(full, retry), ups, n, outs) == FanFeeds(full, ups, n, outs)
  {
    if ups != [] {
      var u, front := ups[|ups| - 1], ups[..|ups| - 1];
      assert u in ups && forall w :: w in front ==> w in ups;
      SameFeeds(full, retry, front, n, outs);
      if u in outs {
        FeedsInRetry(full, retry, n, u, outs[u]);
      }
    }
  }

  lemma SameFacts(full: Job, retry: set<NodeId>, n: NodeId, outs: map<NodeId, NodeOutput>)
    requires ValidJob(full) && n in full.graph.reverse
    ensures Facts(RetryJob(full, retry), full.graph.reverse[n], n, outs) == Facts(full, full.graph.reverse[n], n, outs)
  {
  }

  lemma SameRunOutput(full: Job, retry: set<NodeId>, n: NodeId, outs: map<NodeId, NodeOutput>)
    requires IsFullRun(full) && n in full.graph.reverse && NoKeptNull(full, retry, n, outs)
    ensures RunOutput(RetryJob(full, retry), n, outs) == RunOutput(full, n, outs)
  {
    SameFeeds(full, retry, full.graph.reverse[n], n, outs);
    SameFacts(full, retry, n, outs);
    var fan := FanFeeds(full, full.graph.reverse[n], n, outs);
    if fan.Some? {
      var facts := Facts(full, full.graph.reverse[n], n, outs);
      assert FanOutResults(RetryJob(full, retry), n, fan.value, facts) == FanOutResults(full, n, fan.value, facts);
    }
  }

  lemma FailsInRetry(full: Job, retry: set<NodeId>, n: NodeId, outs: map<NodeId, NodeOutput>)
    requires IsFullRun(full) && n in full.graph.reverse
    ensures forall u {:trigger u in full.graph.reverse[n]} :: u in full.graph.reverse[n] ==>
              (FailsAt(RetryJob(full, retry), u, n, outs) <==> FailsAt(full, u, n, outs))
  {
    forall u | u in full.graph.reverse[n]
        ensures FailsAt(RetryJob(full, retry), u, n, outs) <==> FailsAt(full, u, n, outs) {
      ToleratedInRetry(full, retry, n, u, outs);
    }
  }

  lemma SkipsInRetry(full: Job, retry: set<NodeId>, n: NodeId, outs: map<NodeId, NodeOutput>, u: NodeId)
    requires IsFullRun(full) && n in full.graph.reverse
    ensures SkipsAt(full, u, n, outs) ==> SkipsAt(RetryJob(full, retry), u, n, outs)
    ensures SkipsAt(RetryJob(full, retry), u, n, outs) ==>
              SkipsAt(full, u, n, outs) || (u in outs && outs[u].ok && outs[u].payload == Null
                  && u in Kept(full, retry))
  {
    if u in outs {
      FeedsInRetry(full, retry, n, u, outs[u]);
    }
  }

  /** On the same upstream outputs, a retried node gets the same output unless it ran on a kept null. */
  lemma SameOutputFrom(full: Job, retry: set<NodeId>, n: NodeId, outs: map<NodeId, NodeOutput>)
    requires IsFullRun(full) && n in full.graph.reverse
    requires VerdictOn(full, n, outs) == Runs ==> NoKeptNull(full, retry, n, outs)
    ensures OutputFrom(RetryJob(full, retry), n, outs) == OutputFrom(full, n, outs)
  {
    var r, ups := RetryJob(full, retry), full.graph.reverse[n];
    FailsInRetry(full, retry, n, outs);
    forall u | u in ups && SkipsAt(full, u, n, outs) ensures SkipsAt(r, u, n, outs) {
      SkipsInRetry(full, retry, n, outs, u);
    }
    match VerdictOn(full, n, outs)
    case Runs =>
      forall u | u in ups ensures !SkipsAt(r, u, n, outs) {
        SkipsInRetry(full, retry, n, outs, u);
      }
      assert VerdictOn(r, n, outs) == Runs;
      SameRunOutput(full, retry, n, outs);
    case Fails =>
      SameFailing(full, retry, ups, n, outs);
    case _ =>
  }

  lemma UpstreamOutputsAreOutcome(full: Job, n: NodeId, u: NodeId)
    requires ValidJob(full) && n in full.graph.reverse
    ensures u in UpstreamOutputs(full, n) <==> u in full.graph.reverse[n] && u in Outcome(full)
    ensures u in UpstreamOutputs(full, n) ==> UpstreamOutputs(full, n)[u] == Outcome(full)[u]
  {
    UpstreamRanksLower(full.graph, n);
  }

  lemma {:induction false} RetryGivesFullOutput(full: Job, retry: set<NodeId>, n: NodeId)
    requires IsFullRun(full) && retry != {} && n in full.graph.reverse
    requires forall m, u :: !RanOnKeptNull(full, retry, m, u)
    ensures Evaluate(RetryJob(full, retry), n) == Evaluate(full, n)
    decreases Rank(full.graph.edges)[n]
  {
    if n in retry {
      UpstreamRanksLower(full.graph, n);
      forall u | u in full.graph.reverse[n]
        ensures u in full.graph.reverse && Evaluate(RetryJob(full, retry), u) == Evaluate(full, u)
      {
        RetryGivesFullOutput(full, retry, u);
      }
      RetrySeesSame(full, retry, n);
      var outs := UpstreamOutputs(full, n);
      if VerdictOn(full, n, outs) == Runs {
        forall u | u in full.graph.reverse[n] && u in outs && outs[u].ok && outs[u].payload == Null
            ensures u !in Kept(full, retry) {
          UpstreamOutputsAreOutcome(full, n, u);
          assert !RanOnKeptNull(full, retry, n, u);
        }
      }
      SameOutputFrom(full, retry, n, outs);
    }
  }

  lemma KeptNullSkips(full: Job, retry: set<NodeId>, n: NodeId, u: NodeId, outs: map<NodeId, NodeOutput>)
    requires IsFullRun(full) && n in full.graph.reverse && VerdictOn(full, n, outs) == Runs
    requires u in full.graph.reverse[n] && u in outs && outs[u].ok && outs[u].payload == Null && u in Kept(full, retry)
    ensures OutputFrom(RetryJob(full, retry), n, outs) == None
  {
    FeedsInRetry(full, retry, n, u, outs[u]);
    FailsInRetry(full, retry, n, outs);
    forall w | w in full.graph.reverse[n] ensures w in outs && !FailsAt(RetryJob(full, retry), w, n, outs) {
      RunsMeans(full, n, outs, w);
    }
    SkipsMeans(RetryJob(full, retry), n, outs, u);
  }

  /** A retried node that had run on a kept null, on otherwise unchanged upstreams, is skipped by the retry. */
  lemma KeptNullBreaksRetry(full: Job, retry: set<NodeId>, n: NodeId, u: NodeId)
    requires IsFullRun(full) && RanOnKeptNull(full, retry, n, u)
    requires forall m {:trigger m in full.graph.reverse[n]} :: m in full.graph.reverse[n] ==>
               m in full.graph.reverse && Evaluate(RetryJob(full, retry), m) == Evaluate(full, m)
    ensures Evaluate(RetryJob(full, retry), n) == None && Evaluate(full, n).Some?
  {
    var outs := UpstreamOutputs(full, n);
    RetrySeesSame(full, retry, n);
    UpstreamOutputsAreOutcome(full, n, u);
    KeptNullSkips(full, retry, n, u, outs);
  }

  /**
   Retrying any nonempty set of nodes, with the other outputs of the full run filled in, gives every
   node what the full run gave it, if and only if no retried node had run on a success without
   payload that is now filled in: such an output is not routed again.
   */
  lemma RetryEqualsFullRun(full: Job, retry: set<NodeId>)
    requires IsFullRun(full) && retry != {}
    ensures (forall n {:trigger n in full.graph.reverse} ::
        n in full.graph.reverse ==> Evaluate(RetryJob(full, retry), n) == Evaluate(full, n))
            <==> (forall n, u :: !RanOnKeptNull(full, retry, n, u))
  {
    if forall n, u :: !RanOnKeptNull(full, retry, n, u) {
      forall n | n in full.graph.reverse ensures Evaluate(RetryJob(full, retry), n) == Evaluate(full, n) {
        RetryGivesFullOutput(full, retry, n);
      }
    } else {
      var n, u :| RanOnKeptNull(full, retry, n, u);
      if forall m {:trigger m in full.graph.reverse} ::
          m in full.graph.reverse ==> Evaluate(RetryJob(full, retry), m) == Evaluate(full, m) {
        UpstreamRanksLower(full.graph, n);
        KeptNullBreaksRetry(full, retry, n, u);
      }
    }
  }

  /**
   The same for runs: after a full run that has the reference outcome, a retry that ends, on any schedule,
   has the outputs of the full run, if and only if its own accumulating sources are admitted and no
   retried node had run on a success without payload that is filled in.
   */
  lemma RetriedRunEndsLikeFullRun(full: Job, retry: set<NodeId>, free: map<string, nat>, steps: seq<Step>,
      free': map<string, nat>, steps': seq<Step>)
    requires IsFullRun(full) && retry != {} && BarrierOnly(full) && AllAdmitted(full, free, full.graph.reverse.Keys)
    requires Legal(full, StartState(full, free, false), steps)
        && Exited(full, After(full, StartState(full, free, false), steps))
    requires var r := RetryJob(full, retry);
      Legal(r, StartState(r, free', false), steps') && Exited(r, After(r, StartState(r, free', false), steps'))
    ensures var r := RetryJob(full, retry);
      After(r, StartState(r, free', false), steps').core.outputs
          == After(full, StartState(full, free, false), steps).core.outputs
      <==> AllAdmitted(r, free', r.graph.reverse.Keys) && forall n, u :: !RanOnKeptNull(full, retry, n, u)
  {
    var r := RetryJob(full, retry);
    var outputs := After(r, StartState(r, free', false), steps').core.outputs;
    RetryIsBarrierOnly(full, retry);
    OutputsConfluent(full, free, false, steps);
    OutputsConfluent(r, free', false, steps');
    SameOutcome(full, retry);
    if !AllAdmitted(r, free', r.graph.reverse.Keys) {
      PassedOverInRetry(full, retry, free', steps');
    }
  }

  /** An accumulating source that the retry passes over has an output in the full run and none in the retry. */
  lemma PassedOverInRetry(full: Job, retry: set<NodeId>, free': map<string, nat>, steps': seq<Step>)
    requires IsFullRun(full) && WellFormed(RetryJob(full, retry).graph)
    requires var r := RetryJob(full, retry);
      Legal(r, StartState(r, free', false), steps') && !AllAdmitted(r, free', r.graph.reverse.Keys)
    ensures var r := RetryJob(full, retry); After(r, StartState(r, free', false), steps').core.outputs != Outcome(full)
  {
    var r := RetryJob(full, retry);
    var n :| n in r.graph.reverse && n in r.graph.instances && IsMarkedSource(r, n) && !Admitted(r, free', n);
    NotAdmittedNeverRuns(r, free', false, steps', n);
    SourceHasOutput(full, n);
  }

  lemma SourceHasOutput(full: Job, n: NodeId)
    requires IsFullRun(full) && n in full.graph.reverse && full.graph.reverse[n] == []
    ensures n in Outcome(full)
  {
    SourceRuns(full, n, UpstreamOutputs(full, n));
  }

  lemma SameOutcome(full: Job, retry: set<NodeId>)
    requires IsFullRun(full) && retry != {}
    ensures ValidJob(RetryJob(full, retry))
    ensures Outcome(RetryJob(full, retry)) == Outcome(full) <==> forall n, u :: !RanOnKeptNull(full, retry, n, u)
  {
    RetryEqualsFullRun(full, retry);
    OutcomesAgree(RetryJob(full, retry), full);
  }

  lemma OutcomesAgree(a: Job, b: Job)
    requires ValidJob(a) && ValidJob(b) && a.graph == b.graph
    ensures Outcome(a) == Outcome(b) <==> forall n {:trigger n in b.graph.reverse} ::
        n in b.graph.reverse ==> Evaluate(a, n) == Evaluate(b, n)
  {
    forall n | n in b.graph.reverse
      ensures Evaluate(a, n) == Evaluate(b, n)
          <==> (n in Outcome(a) <==> n in Outcome(b)) && (n in Outcome(a) ==> Outcome(a)[n] == Outcome(b)[n])
    {
      OutcomeAt(a, n);
      OutcomeAt(b, n);
    }
  }

  lemma OutcomeAt(job: Job, n: NodeId)
    requires ValidJob(job) && n in job.graph.reverse
    ensures Evaluate(job, n) == if n in Outcome(job) then Some(Outcome(job)[n]) else None
  {
  }

  lemma RetryIsBarrierOnly(full: Job, retry: set<NodeId>)
    requires IsFullRun(full) && BarrierOnly(full)
    ensures BarrierOnly(RetryJob(full, retry))
  {
    forall n | n in full.graph.reverse ensures BarrierNode(RetryJob(full, retry), n) {
      assert BarrierNode(full, n);
    }
  }
}
