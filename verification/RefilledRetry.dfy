/**
 When a retry on what the controller has filled in gives its nodes the same to do as the full run did.
 It rests on the full run alone: which outputs come back as failures, and what that does to those below them.
 */
module RefilledRetry {
  import opened Wrappers
  import opened Graphs
  import opened DagModels
  import opened Helpers
  import opened Jobs
  import opened Reference
  import opened Scheduler
  import opened Admission
  import opened Confluence
  import opened Retry
  import opened Refill

  ghost function RefilledJob(full: Job, retry: set<NodeId>, fill: map<NodeId, NodeOutput>): Job {
    full.(retry := retry, prefilled := fill)
  }

  /** A success without a recorded payload, which comes back as a failure. */
  predicate KeptEmpty(retry: set<NodeId>, u: NodeId, o: NodeOutput) {
    u !in retry && o.ok && IsEmpty(o.payload)
  }

  /** A failure whose error text is not recorded. */
  predicate Dim(retry: set<NodeId>, u: NodeId, o: NodeOutput) {
    u !in retry && IsUnknown(o) && ErrorText(o) != "node failed"
  }

  /** An upstream that brings the node a payload in the retry. */
  predicate Firm(full: Job, retry: set<NodeId>, u: NodeId, o: NodeOutput, n: NodeId) {
    o.payload != Null && Feeds(full, u, o, n) && !KeptEmpty(retry, u, o)
  }

  ghost predicate Excused(full: Job, retry: set<NodeId>, u: NodeId, n: NodeId, outs: map<NodeId, NodeOutput>)
    requires u in full.graph.instances && n in full.graph.reverse
  {
    || (u, n) in full.graph.optional
    || (SourceRole(full, u)
        && exists other {:trigger other in full.graph.reverse[n]} ::
             other in full.graph.reverse[n] && other != u && other in outs && Firm(full, retry, other, outs[other], n))
  }

  /** A required upstream that the retry takes for a failure. */
  ghost predicate GivesNothing(full: Job, retry: set<NodeId>, u: NodeId, n: NodeId, outs: map<NodeId, NodeOutput>)
    requires u in full.graph.instances && n in full.graph.reverse
  {
    u in outs && (!outs[u].ok || KeptEmpty(retry, u, outs[u])) && !Excused(full, retry, u, n, outs)
  }

  /** The retry sees the same required failures, with the same texts. */
  ghost predicate SameFailures(full: Job, retry: set<NodeId>, n: NodeId, outs: map<NodeId, NodeOutput>)
    requires WellFormed(full.graph) && n in full.graph.reverse
  {
    forall u {:trigger u in full.graph.reverse[n]} :: u in full.graph.reverse[n] ==>
      && (GivesNothing(full, retry, u, n, outs) <==> FailsAt(full, u, n, outs))
      && (FailsAt(full, u, n, outs) ==> !Dim(retry, u, outs[u]))
  }

  ghost predicate NoKeptEmpty(full: Job, retry: set<NodeId>, n: NodeId, outs: map<NodeId, NodeOutput>)
    requires n in full.graph.reverse
  {
    forall u {:trigger u in full.graph.reverse[n]} ::
        u in full.graph.reverse[n] && u in outs ==> !KeptEmpty(retry, u, outs[u])
  }

  /** Some kept upstream does not come back at all. */
  ghost predicate MissesKept(full: Job, retry: set<NodeId>, n: NodeId)
    requires ValidJob(full) && n in full.graph.reverse
  {
    exists u {:trigger u in full.graph.reverse[n]} :: u in full.graph.reverse[n] && u !in retry && !IsRefilled(full, u)
  }

  /** A node that was skipped is neither blocked nor run in the retry. */
  ghost predicate StaysSkipped(full: Job, retry: set<NodeId>, n: NodeId, outs: map<NodeId, NodeOutput>)
    requires WellFormed(full.graph) && n in full.graph.reverse
  {
    && (forall u {:trigger u in full.graph.reverse[n]} ::
        u in full.graph.reverse[n] ==> !GivesNothing(full, retry, u, n, outs))
    && exists u {:trigger u in full.graph.reverse[n]} ::
         u in full.graph.reverse[n] && SkipsAt(full, u, n, outs) && !KeptEmpty(retry, u, outs[u])
  }

  /** The condition on a retried node, by what became of it in the full run. */
  ghost predicate Undisturbed(full: Job, retry: set<NodeId>, n: NodeId)
    requires ValidJob(full) && n in full.graph.reverse
  {
    var outs := UpstreamOutputs(full, n);
    match VerdictOn(full, n, outs)
    case Waits => true
    case Runs => NoKeptEmpty(full, retry, n, outs)
    case Fails => SameFailures(full, retry, n, outs)
    case Skips => MissesKept(full, retry, n) || StaysSkipped(full, retry, n, outs)
  }

  // ----- What the retry sees -----

  /** The outputs the retry has for the upstreams of a node, where it agrees with the full run on the retried ones. */
  ghost predicate Mirrors(full: Job, retry: set<NodeId>, u: NodeId, outs: map<NodeId, NodeOutput>,
      seen: map<NodeId, NodeOutput>)
    requires ValidJob(full)
  {
    if u in retry then (u in seen <==> u in outs) && (u in seen ==> seen[u] == outs[u])
    else (u in seen <==> u in outs && IsRefilled(full, u)) && (u in seen ==> StandsFor(seen[u], u, outs[u]))
  }

  ghost predicate AllMirrored(full: Job, retry: set<NodeId>, n: NodeId, outs: map<NodeId, NodeOutput>,
      seen: map<NodeId, NodeOutput>)
    requires ValidJob(full) && n in full.graph.reverse
  {
    forall u {:trigger u in full.graph.reverse[n]} :: u in full.graph.reverse[n] ==> Mirrors(full, retry, u, outs, seen)
  }

  lemma KeptEvaluate(full: Job, retry: set<NodeId>, fill: map<NodeId, NodeOutput>, u: NodeId)
    requires IsFullRun(full) && IsRefill(full, retry, fill) && retry != {} && u in full.graph.reverse && u !in retry
    ensures Evaluate(RefilledJob(full, retry, fill), u).Some? <==> Evaluate(full, u).Some? && IsRefilled(full, u)
    ensures IsRefilled(full, u) ==>
        StandsFor(Evaluate(RefilledJob(full, retry, fill), u).value, u, Evaluate(full, u).value)
  {
    OutcomeAt(full, u);
  }

  lemma SeenMirrors(full: Job, retry: set<NodeId>, fill: map<NodeId, NodeOutput>, n: NodeId)
    requires IsFullRun(full) && IsRefill(full, retry, fill) && retry != {} && n in full.graph.reverse
    requires forall u {:trigger u in full.graph.reverse[n]} :: u in full.graph.reverse[n] && u in retry ==>
               u in full.graph.reverse && Evaluate(RefilledJob(full, retry, fill), u) == Evaluate(full, u)
    ensures AllMirrored(full, retry, n, UpstreamOutputs(full, n), UpstreamOutputs(RefilledJob(full, retry, fill), n))
  {
    var r := RefilledJob(full, retry, fill);
    UpstreamRanksLower(full.graph, n);
    forall u | u in full.graph.reverse[n]
        ensures Mirrors(full, retry, u, UpstreamOutputs(full, n), UpstreamOutputs(r, n)) {
      UpstreamOutputAt(full, n, u);
      UpstreamOutputAt(r, n, u);
      if u !in retry {
        KeptEvaluate(full, retry, fill, u);
      }
    }
  }

  lemma SeenFeeds(full: Job, retry: set<NodeId>, fill: map<NodeId, NodeOutput>, n: NodeId, u: NodeId,
                  outs: map<NodeId, NodeOutput>, seen: map<NodeId, NodeOutput>)
    requires IsFullRun(full) && IsRefill(full, retry, fill) && u in seen && Mirrors(full, retry, u, outs, seen)
    ensures seen[u].ok <==> outs[u].ok && !KeptEmpty(retry, u, outs[u])
    ensures Feeds(RefilledJob(full, retry, fill), u, seen[u], n)
        <==> Feeds(full, u, outs[u], n) && !KeptEmpty(retry, u, outs[u])
    ensures seen[u].ok ==> seen[u].payload == outs[u].payload
  {
    assert u in retry ==> u !in fill;
  }

  /** Every upstream that has an output in the full run has one in the retry. */
  ghost predicate NoneMissing(full: Job, n: NodeId, outs: map<NodeId, NodeOutput>, seen: map<NodeId, NodeOutput>)
    requires n in full.graph.reverse
  {
    forall u {:trigger u in full.graph.reverse[n]} :: u in full.graph.reverse[n] && u in outs ==> u in seen
  }

  lemma SeenTolerated(full: Job, retry: set<NodeId>, fill: map<NodeId, NodeOutput>, n: NodeId, u: NodeId,
                      outs: map<NodeId, NodeOutput>, seen: map<NodeId, NodeOutput>)
    requires IsFullRun(full) && IsRefill(full, retry, fill) && n in full.graph.reverse && u in full.graph.instances
    requires AllMirrored(full, retry, n, outs, seen) && NoneMissing(full, n, outs, seen)
    ensures Tolerated(RefilledJob(full, retry, fill), u, n, seen) <==> Excused(full, retry, u, n, outs)
  {
    var r := RefilledJob(full, retry, fill);
    forall other | other in full.graph.reverse[n]
      ensures (other in seen && seen[other].payload != Null && Feeds(r, other, seen[other], n))
              <==> (other in outs && Firm(full, retry, other, outs[other], n))
    {
      assert Mirrors(full, retry, other, outs, seen);
      if other in seen {
        SeenFeeds(full, retry, fill, n, other, outs, seen);
      }
    }
  }

  /** What the retry makes of one upstream. */
  lemma SeenVerdicts(full: Job, retry: set<NodeId>, fill: map<NodeId, NodeOutput>, n: NodeId, u: NodeId,
                     outs: map<NodeId, NodeOutput>, seen: map<NodeId, NodeOutput>)
    requires IsFullRun(full) && IsRefill(full, retry, fill) && n in full.graph.reverse && u in full.graph.reverse[n]
    requires AllMirrored(full, retry, n, outs, seen) && NoneMissing(full, n, outs, seen)
    ensures u in seen <==> u in outs
    ensures FailsAt(RefilledJob(full, retry, fill), u, n, seen) <==> GivesNothing(full, retry, u, n, outs)
    ensures SkipsAt(RefilledJob(full, retry, fill), u, n, seen)
        <==> SkipsAt(full, u, n, outs) && !KeptEmpty(retry, u, outs[u])
  {
    assert Mirrors(full, retry, u, outs, seen);
    if u in seen {
      SeenFeeds(full, retry, fill, n, u, outs, seen);
      SeenTolerated(full, retry, fill, n, u, outs, seen);
    }
  }

  lemma AllSeenVerdicts(full: Job, retry: set<NodeId>, fill: map<NodeId, NodeOutput>, n: NodeId,
                        outs: map<NodeId, NodeOutput>, seen: map<NodeId, NodeOutput>)
    requires IsFullRun(full) && IsRefill(full, retry, fill) && n in full.graph.reverse
    requires AllMirrored(full, retry, n, outs, seen) && NoneMissing(full, n, outs, seen)
    ensures forall u {:trigger u in full.graph.reverse[n]} :: u in full.graph.reverse[n] ==>
              && (u in seen <==> u in outs)
              && (FailsAt(RefilledJob(full, retry, fill), u, n, seen) <==> GivesNothing(full, retry, u, n, outs))
              && (SkipsAt(RefilledJob(full, retry, fill), u, n, seen)
                  <==> SkipsAt(full, u, n, outs) && !KeptEmpty(retry, u, outs[u]))
  {
    forall u | u in full.graph.reverse[n]
      ensures u in seen <==> u in outs
      ensures FailsAt(RefilledJob(full, retry, fill), u, n, seen) <==> GivesNothing(full, retry, u, n, outs)
      ensures SkipsAt(RefilledJob(full, retry, fill), u, n, seen)
          <==> SkipsAt(full, u, n, outs) && !KeptEmpty(retry, u, outs[u])
    {
      SeenVerdicts(full, retry, fill, n, u, outs, seen);
    }
  }

  // ----- Nodes that ran -----

  /** The input fact of an upstream shows whether it was a kept success without payload. */
  lemma FactShows(full: Job, retry: set<NodeId>, fill: map<NodeId, NodeOutput>, n: NodeId, u: NodeId,
                  outs: map<NodeId, NodeOutput>, seen: map<NodeId, NodeOutput>)
    requires IsFullRun(full) && u in seen && Mirrors(full, retry, u, outs, seen)
    ensures FactOf(RefilledJob(full, retry, fill), u, n, seen) == FactOf(full, u, n, outs)
        <==> !KeptEmpty(retry, u, outs[u])
  {
    if u !in retry {
      StandInFact(full, RefilledJob(full, retry, fill), n, u, outs, seen);
    }
  }

  lemma StandInFact(full: Job, r: Job, n: NodeId, u: NodeId, outs: map<NodeId, NodeOutput>,
      seen: map<NodeId, NodeOutput>)
    requires r.graph == full.graph && u in seen && u in outs && StandsFor(seen[u], u, outs[u])
    ensures FactOf(r, u, n, seen) == FactOf(full, u, n, outs) <==> !(outs[u].ok && IsEmpty(outs[u].payload))
  {
    var mine, theirs := FactOf(r, u, n, seen), FactOf(full, u, n, outs);
    if IsSolid(outs[u]) {
      assert mine == theirs;
    } else if outs[u].ok {
      assert mine.status != "available" && mine.status != "empty";
    } else {
      assert mine == theirs;
    }
  }

  lemma FactsAgree(a: Job, b: Job, ups: seq<NodeId>, n: NodeId, outsA: map<NodeId, NodeOutput>,
      outsB: map<NodeId, NodeOutput>)
    ensures Facts(a, ups, n, outsA) == Facts(b, ups, n, outsB)
            <==> forall u {:trigger u in ups} :: u in ups ==> FactOf(a, u, n, outsA) == FactOf(b, u, n, outsB)
  {
    var mine, theirs := Facts(a, ups, n, outsA), Facts(b, ups, n, outsB);
    if mine == theirs {
      forall u | u in ups ensures FactOf(a, u, n, outsA) == FactOf(b, u, n, outsB) {
        var i :| 0 <= i < |ups| && ups[i] == u;
        assert mine[i] == theirs[i];
      }
    }
    if forall u {:trigger u in ups} :: u in ups ==> FactOf(a, u, n, outsA) == FactOf(b, u, n, outsB) {
      forall i {:trigger mine[i]} | 0 <= i < |ups| ensures mine[i] == theirs[i] {
        assert ups[i] in ups;
      }
    }
  }

  lemma FactsShow(full: Job, retry: set<NodeId>, fill: map<NodeId, NodeOutput>, n: NodeId,
                  outs: map<NodeId, NodeOutput>, seen: map<NodeId, NodeOutput>)
    requires IsFullRun(full) && n in full.graph.reverse && AllMirrored(full, retry, n, outs, seen)
    requires forall u {:trigger u in full.graph.reverse[n]} :: u in full.graph.reverse[n] ==> u in seen
    ensures Facts(RefilledJob(full, retry, fill), full.graph.reverse[n], n, seen)
            == Facts(full, full.graph.reverse[n], n, outs)
            <==> NoKeptEmpty(full, retry, n, outs)
  {
    var r, ups := RefilledJob(full, retry, fill), full.graph.reverse[n];
    FactsAgree(r, full, ups, n, seen, outs);
    forall u | u in ups
      ensures u in outs && (FactOf(r, u, n, seen) == FactOf(full, u, n, outs) <==> !KeptEmpty(retry, u, outs[u]))
    {
      assert Mirrors(full, retry, u, outs, seen);
      FactShows(full, retry, fill, n, u, outs, seen);
    }
  }

  /** The upstream feeds both nodes the same, or neither. */
  predicate SameFeed(a: Job, b: Job, u: NodeId, n: NodeId, outsA: map<NodeId, NodeOutput>,
      outsB: map<NodeId, NodeOutput>) {
    && (u in outsA && Feeds(a, u, outsA[u], n) <==> u in outsB && Feeds(b, u, outsB[u], n))
    && (u in outsA && u in outsB && Feeds(b, u, outsB[u], n) ==> outsA[u].payload == outsB[u].payload)
  }

  lemma {:induction false} SameValues(a: Job, b: Job, ups: seq<NodeId>, n: NodeId, outsA: map<NodeId, NodeOutput>,
      outsB: map<NodeId, NodeOutput>)
    requires a.graph == b.graph
    requires forall u {:trigger u in ups} :: u in ups ==> SameFeed(a, b, u, n, outsA, outsB)
    ensures FeedValues(a, ups, n, outsA) == FeedValues(b, ups, n, outsB)
    ensures FanFeeds(a, ups, n, outsA) == FanFeeds(b, ups, n, outsB)
  {
    if ups != [] {
      var u, front := ups[|ups| - 1], ups[..|ups| - 1];
      assert u in ups && forall w :: w in front ==> w in ups;
      SameValues(a, b, front, n, outsA, outsB);
    }
  }

  lemma SeenValues(full: Job, retry: set<NodeId>, fill: map<NodeId, NodeOutput>, n: NodeId, ups: seq<NodeId>,
                   outs: map<NodeId, NodeOutput>, seen: map<NodeId, NodeOutput>)
    requires IsFullRun(full) && IsRefill(full, retry, fill)
    requires forall u {:trigger u in ups} :: u in ups ==>
               u in seen && Mirrors(full, retry, u, outs, seen) && !KeptEmpty(retry, u, outs[u])
    ensures FeedValues(RefilledJob(full, retry, fill), ups, n, seen) == FeedValues(full, ups, n, outs)
    ensures FanFeeds(RefilledJob(full, retry, fill), ups, n, seen) == FanFeeds(full, ups, n, outs)
  {
    var r := RefilledJob(full, retry, fill);
    forall u | u in ups ensures SameFeed(r, full, u, n, seen, outs) {
      SeenFeeds(full, retry, fill, n, u, outs, seen);
    }
    SameValues(r, full, ups, n, seen, outs);
  }

  lemma RunsAgain(full: Job, retry: set<NodeId>, fill: map<NodeId, NodeOutput>, n: NodeId,
                  outs: map<NodeId, NodeOutput>, seen: map<NodeId, NodeOutput>)
    requires IsFullRun(full) && IsRefill(full, retry, fill) && n in full.graph.reverse
        && VerdictOn(full, n, outs) == Runs
    requires AllMirrored(full, retry, n, outs, seen) && NoneMissing(full, n, outs, seen)
        && NoKeptEmpty(full, retry, n, outs)
    ensures VerdictOn(RefilledJob(full, retry, fill), n, seen) == Runs
  {
    AllSeenVerdicts(full, retry, fill, n, outs, seen);
    forall u | u in full.graph.reverse[n] ensures !GivesNothing(full, retry, u, n, outs) && !SkipsAt(full, u, n, outs) {
      RunsMeans(full, n, outs, u);
      assert !KeptEmpty(retry, u, outs[u]);
      if !outs[u].ok {
        ExcusedStill(full, retry, n, u, outs);
      }
    }
  }

  lemma ExcusedStill(full: Job, retry: set<NodeId>, n: NodeId, u: NodeId, outs: map<NodeId, NodeOutput>)
    requires IsFullRun(full) && n in full.graph.reverse && u in full.graph.instances
        && NoKeptEmpty(full, retry, n, outs)
    ensures Excused(full, retry, u, n, outs) <==> Tolerated(full, u, n, outs)
  {
  }

  lemma AllSeen(full: Job, retry: set<NodeId>, n: NodeId, outs: map<NodeId, NodeOutput>, seen: map<NodeId, NodeOutput>)
    requires IsFullRun(full) && n in full.graph.reverse && VerdictOn(full, n, outs) == Runs
        && NoneMissing(full, n, outs, seen)
    ensures forall u {:trigger u in full.graph.reverse[n]} :: u in full.graph.reverse[n] ==> u in seen && u in outs
  {
    forall u | u in full.graph.reverse[n] ensures u in outs {
      RunsMeans(full, n, outs, u);
    }
  }

  lemma SeenPayload(full: Job, retry: set<NodeId>, fill: map<NodeId, NodeOutput>, n: NodeId,
                    outs: map<NodeId, NodeOutput>, seen: map<NodeId, NodeOutput>)
    requires IsFullRun(full) && IsRefill(full, retry, fill) && n in full.graph.reverse
    requires AllMirrored(full, retry, n, outs, seen) && NoKeptEmpty(full, retry, n, outs)
    requires forall u {:trigger u in full.graph.reverse[n]} :: u in full.graph.reverse[n] ==> u in seen && u in outs
    ensures FeedPayload(RefilledJob(full, retry, fill), n, seen) == FeedPayload(full, n, outs)
    ensures FanFeeds(RefilledJob(full, retry, fill), full.graph.reverse[n], n, seen)
        == FanFeeds(full, full.graph.reverse[n], n, outs)
  {
    forall u | u in full.graph.reverse[n] ensures Mirrors(full, retry, u, outs, seen) && !KeptEmpty(retry, u, outs[u]) {
    }
    SeenValues(full, retry, fill, n, full.graph.reverse[n], outs, seen);
  }

  lemma RanNode(full: Job, retry: set<NodeId>, fill: map<NodeId, NodeOutput>, n: NodeId,
                outs: map<NodeId, NodeOutput>, seen: map<NodeId, NodeOutput>)
    requires IsFullRun(full) && IsRefill(full, retry, fill) && n in full.graph.reverse
        && VerdictOn(full, n, outs) == Runs
    requires AllMirrored(full, retry, n, outs, seen) && NoneMissing(full, n, outs, seen)
    ensures AssignmentFrom(RefilledJob(full, retry, fill), n, seen) == AssignmentFrom(full, n, outs)
        <==> NoKeptEmpty(full, retry, n, outs)
  {
    AllSeen(full, retry, n, outs, seen);
    FactsShow(full, retry, fill, n, outs, seen);
    if NoKeptEmpty(full, retry, n, outs) {
      SeenPayload(full, retry, fill, n, outs, seen);
      RunsAgain(full, retry, fill, n, outs, seen);
    }
  }

  // ----- Nodes that were blocked -----

  lemma {:induction false} LinesMembers(job: Job, ups: seq<NodeId>, n: NodeId, outs: map<NodeId, NodeOutput>)
    requires n in job.graph.reverse
    requires forall u {:trigger u in ups} :: u in ups ==> u in job.graph.instances
    ensures forall u, text {:trigger (u, text) in Lines(job, ups, n, outs)} ::
              (u, text) in Lines(job, ups, n, outs)
              <==> u in ups && FailsAt(job, u, n, outs) && text == ErrorText(outs[u])
  {
    if ups != [] {
      var rest := ups[1..];
      assert ups[0] in ups && forall w :: w in rest ==> w in ups;
      LinesMembers(job, rest, n, outs);
      assert ups == [ups[0]] + rest;
    }
  }

  /** Two jobs block the node with the same lines exactly if they see the same failures with the same texts. */
  lemma {:induction false} SameLines(a: Job, b: Job, ups: seq<NodeId>, n: NodeId, outsA: map<NodeId, NodeOutput>,
      outsB: map<NodeId, NodeOutput>)
    requires a.graph == b.graph && n in b.graph.reverse
    requires forall u {:trigger u in ups} :: u in ups ==> u in b.graph.instances
    requires forall u {:trigger u in ups} :: u in ups ==>
               && (FailsAt(a, u, n, outsA) <==> FailsAt(b, u, n, outsB))
               && (FailsAt(b, u, n, outsB) ==> ErrorText(outsA[u]) == ErrorText(outsB[u]))
    ensures Lines(a, ups, n, outsA) == Lines(b, ups, n, outsB)
  {
    if ups != [] {
      assert ups[0] in ups && forall w :: w in ups[1..] ==> w in ups;
      SameLines(a, b, ups[1..], n, outsA, outsB);
    }
  }

  lemma LinesShow(a: Job, b: Job, ups: seq<NodeId>, n: NodeId, outsA: map<NodeId, NodeOutput>,
      outsB: map<NodeId, NodeOutput>, u: NodeId)
    requires a.graph == b.graph && n in b.graph.reverse && u in ups
    requires forall w {:trigger w in ups} :: w in ups ==> w in b.graph.instances
    requires Lines(a, ups, n, outsA) == Lines(b, ups, n, outsB)
    ensures FailsAt(a, u, n, outsA) <==> FailsAt(b, u, n, outsB)
    ensures FailsAt(b, u, n, outsB) ==> ErrorText(outsA[u]) == ErrorText(outsB[u])
  {
    LinesMembers(a, ups, n, outsA);
    LinesMembers(b, ups, n, outsB);
    if FailsAt(a, u, n, outsA) {
      assert (u, ErrorText(outsA[u])) in Lines(b, ups, n, outsB);
    }
    if FailsAt(b, u, n, outsB) {
      assert (u, ErrorText(outsB[u])) in Lines(a, ups, n, outsA);
    }
  }

  /** A failure comes back with its text unless its status is unknown. */
  lemma SeenText(full: Job, retry: set<NodeId>, u: NodeId, outs: map<NodeId, NodeOutput>, seen: map<NodeId, NodeOutput>)
    requires ValidJob(full) && u in seen && Mirrors(full, retry, u, outs, seen) && !outs[u].ok
    ensures ErrorText(seen[u]) == ErrorText(outs[u]) <==> !Dim(retry, u, outs[u])
  {
  }

  lemma BlockedNode(full: Job, retry: set<NodeId>, fill: map<NodeId, NodeOutput>, n: NodeId,
                    outs: map<NodeId, NodeOutput>, seen: map<NodeId, NodeOutput>)
    requires IsFullRun(full) && IsRefill(full, retry, fill) && n in full.graph.reverse
        && VerdictOn(full, n, outs) == Fails
    requires AllMirrored(full, retry, n, outs, seen) && NoneMissing(full, n, outs, seen)
    ensures AssignmentFrom(RefilledJob(full, retry, fill), n, seen) == AssignmentFrom(full, n, outs)
        <==> SameFailures(full, retry, n, outs)
  {
    var r, ups := RefilledJob(full, retry, fill), full.graph.reverse[n];
    forall u | u in ups && FailsAt(full, u, n, outs)
      ensures u in seen && (ErrorText(seen[u]) == ErrorText(outs[u]) <==> !Dim(retry, u, outs[u]))
    {
      assert Mirrors(full, retry, u, outs, seen);
      SeenText(full, retry, u, outs, seen);
    }
    AllSeenVerdicts(full, retry, fill, n, outs, seen);
    if SameFailures(full, retry, n, outs) {
      SameLines(r, full, ups, n, seen, outs);
      assert VerdictOn(r, n, seen) == Fails;
    } else if AssignmentFrom(r, n, seen) == AssignmentFrom(full, n, outs) {
      forall u | u in ups
        ensures FailsAt(r, u, n, seen) <==> FailsAt(full, u, n, outs)
        ensures FailsAt(full, u, n, outs) ==> ErrorText(seen[u]) == ErrorText(outs[u])
      {
        LinesShow(r, full, ups, n, seen, outs, u);
      }
    }
  }

  // ----- Nodes that were skipped -----

  lemma SkippedNode(full: Job, retry: set<NodeId>, fill: map<NodeId, NodeOutput>, n: NodeId,
                    outs: map<NodeId, NodeOutput>, seen: map<NodeId, NodeOutput>)
    requires IsFullRun(full) && IsRefill(full, retry, fill) && n in full.graph.reverse
        && VerdictOn(full, n, outs) == Skips
    requires AllMirrored(full, retry, n, outs, seen)
    ensures AssignmentFrom(RefilledJob(full, retry, fill), n, seen) == AssignmentFrom(full, n, outs)
            <==> MissesKept(full, retry, n) || StaysSkipped(full, retry, n, outs)
  {
    var r, ups := RefilledJob(full, retry, fill), full.graph.reverse[n];
    if MissesKept(full, retry, n) {
      var u :| u in ups && u !in retry && !IsRefilled(full, u);
      assert Mirrors(full, retry, u, outs, seen);
      assert VerdictOn(r, n, seen) == Waits;
    } else {
      forall u | u in ups && u in outs ensures u in seen {
        assert Mirrors(full, retry, u, outs, seen);
      }
      AllSeenVerdicts(full, retry, fill, n, outs, seen);
    }
  }

  // ----- One node -----

  /** The inputs of a node with an output are recorded. */
  lemma ServedUpstreams(full: Job, retry: set<NodeId>, n: NodeId, outs: map<NodeId, NodeOutput>,
      seen: map<NodeId, NodeOutput>)
    requires IsFullRun(full) && n in full.graph.reverse && outs == UpstreamOutputs(full, n)
    requires VerdictOn(full, n, outs) == Runs || VerdictOn(full, n, outs) == Fails
    requires AllMirrored(full, retry, n, outs, seen)
    ensures NoneMissing(full, n, outs, seen)
  {
    assert n in Outcome(full);
    forall u | u in full.graph.reverse[n] && u in outs ensures u in seen {
      UpstreamOutputAt(full, n, u);
      OutcomeAt(full, u);
      assert IsServed(full, u);
      assert Mirrors(full, retry, u, outs, seen);
    }
  }

  /** Where the retried upstreams come out the same, the node is given the same to do exactly if it is undisturbed. */
  lemma NodeUndisturbed(full: Job, retry: set<NodeId>, fill: map<NodeId, NodeOutput>, n: NodeId)
    requires IsFullRun(full) && IsRefill(full, retry, fill) && retry != {} && n in full.graph.reverse
    requires forall u {:trigger u in full.graph.reverse[n]} :: u in full.graph.reverse[n] && u in retry ==>
               u in full.graph.reverse && Evaluate(RefilledJob(full, retry, fill), u) == Evaluate(full, u)
    ensures SameAssignment(full, retry, fill, n) <==> Undisturbed(full, retry, n)
  {
    var outs, seen := UpstreamOutputs(full, n), UpstreamOutputs(RefilledJob(full, retry, fill), n);
    SeenMirrors(full, retry, fill, n);
    match VerdictOn(full, n, outs)
    case Waits =>
      WaitsAgain(full, retry, fill, n, outs, seen);
    case Runs =>
      ServedUpstreams(full, retry, n, outs, seen);
      RanNode(full, retry, fill, n, outs, seen);
    case Fails =>
      ServedUpstreams(full, retry, n, outs, seen);
      BlockedNode(full, retry, fill, n, outs, seen);
    case Skips =>
      SkippedNode(full, retry, fill, n, outs, seen);
  }

  lemma WaitsAgain(full: Job, retry: set<NodeId>, fill: map<NodeId, NodeOutput>, n: NodeId,
                   outs: map<NodeId, NodeOutput>, seen: map<NodeId, NodeOutput>)
    requires IsFullRun(full) && n in full.graph.reverse && VerdictOn(full, n, outs) == Waits
        && AllMirrored(full, retry, n, outs, seen)
    ensures VerdictOn(RefilledJob(full, retry, fill), n, seen) == Waits
  {
    var u :| u in full.graph.reverse[n] && u !in outs;
    assert Mirrors(full, retry, u, outs, seen);
  }

  // ----- All nodes -----

  /** The retry gives the node the same to do as the full run. */
  ghost predicate SameAssignment(full: Job, retry: set<NodeId>, fill: map<NodeId, NodeOutput>, n: NodeId)
    requires ValidJob(full) && n in full.graph.reverse
  {
    AssignmentFrom(RefilledJob(full, retry, fill), n, UpstreamOutputs(RefilledJob(full, retry, fill), n))
    == AssignmentFrom(full, n, UpstreamOutputs(full, n))
  }

  lemma SameAssignmentSameOutput(full: Job, retry: set<NodeId>, fill: map<NodeId, NodeOutput>, n: NodeId)
    requires IsFullRun(full) && IsRefill(full, retry, fill) && n in full.graph.reverse && n in retry
    requires SameAssignment(full, retry, fill, n)
    ensures Evaluate(RefilledJob(full, retry, fill), n) == Evaluate(full, n)
  {
    var r := RefilledJob(full, retry, fill);
    AssignmentDecides(r, full, n, UpstreamOutputs(r, n), UpstreamOutputs(full, n));
    assert n in Allowed(full);
  }

  lemma {:induction false} UndisturbedSame(full: Job, retry: set<NodeId>, fill: map<NodeId, NodeOutput>, n: NodeId)
    requires IsFullRun(full) && IsRefill(full, retry, fill) && n in full.graph.reverse && n in retry
    requires forall m {:trigger m in retry} :: m in retry && m in full.graph.reverse ==> Undisturbed(full, retry, m)
    ensures SameAssignment(full, retry, fill, n)
    ensures Evaluate(RefilledJob(full, retry, fill), n) == Evaluate(full, n)
    decreases Rank(full.graph.edges)[n]
  {
    UpstreamRanksLower(full.graph, n);
    forall u | u in full.graph.reverse[n] && u in retry
        ensures Evaluate(RefilledJob(full, retry, fill), u) == Evaluate(full, u) {
      UndisturbedSame(full, retry, fill, u);
    }
    NodeUndisturbed(full, retry, fill, n);
    SameAssignmentSameOutput(full, retry, fill, n);
  }

  /**
   A retry on what the controller fills in gives every retried node the same to do as the full run, the same
   inputs or the same failures to report, if and only if no retried node is disturbed: none that ran did so on a
   kept success with an empty payload, which comes back as a failure; none that was blocked gets other failures or
   loses the text of one; and none that was skipped is now run or blocked.
   */
  lemma RefilledRetryIsExact(full: Job, retry: set<NodeId>, fill: map<NodeId, NodeOutput>)
    requires IsFullRun(full) && IsRefill(full, retry, fill) && retry != {}
    ensures (forall n {:trigger n in retry} ::
        n in retry && n in full.graph.reverse ==> SameAssignment(full, retry, fill, n))
            <==> (forall n {:trigger n in retry} ::
                n in retry && n in full.graph.reverse ==> Undisturbed(full, retry, n))
  {
    if forall n {:trigger n in retry} :: n in retry && n in full.graph.reverse ==> Undisturbed(full, retry, n) {
      forall n | n in retry && n in full.graph.reverse ensures SameAssignment(full, retry, fill, n) {
        UndisturbedSame(full, retry, fill, n);
      }
    }
    if forall n {:trigger n in retry} ::
        n in retry && n in full.graph.reverse ==> SameAssignment(full, retry, fill, n) {
      forall n | n in retry && n in full.graph.reverse ensures Undisturbed(full, retry, n) {
        UpstreamRanksLower(full.graph, n);
        forall u | u in full.graph.reverse[n] && u in retry
            ensures Evaluate(RefilledJob(full, retry, fill), u) == Evaluate(full, u) {
          SameAssignmentSameOutput(full, retry, fill, u);
        }
        NodeUndisturbed(full, retry, fill, n);
      }
    }
  }

  // ----- Runs -----

  lemma RefilledIsBarrierOnly(full: Job, retry: set<NodeId>, fill: map<NodeId, NodeOutput>)
    requires IsFullRun(full) && BarrierOnly(full)
    ensures BarrierOnly(RefilledJob(full, retry, fill))
  {
    forall n | n in full.graph.reverse ensures BarrierNode(RefilledJob(full, retry, fill), n) {
      assert BarrierNode(full, n);
    }
  }

  /** The retried nodes of undisturbed retries come out as in the full run, on any schedule of either. */
  lemma UndisturbedRunEndsLikeFullRun(full: Job, retry: set<NodeId>, fill: map<NodeId, NodeOutput>,
      free: map<string, nat>, steps: seq<Step>,
                                      free': map<string, nat>, steps': seq<Step>, n: NodeId)
    requires IsFullRun(full) && IsRefill(full, retry, fill) && BarrierOnly(full) && n in retry
        && n in full.graph.reverse
    requires forall m {:trigger m in retry} :: m in retry && m in full.graph.reverse ==> Undisturbed(full, retry, m)
    requires Legal(full, StartState(full, free, false), steps)
        && Exited(full, After(full, StartState(full, free, false), steps))
    requires var r := RefilledJob(full, retry, fill);
      Legal(r, StartState(r, free', false), steps') && Exited(r, After(r, StartState(r, free', false), steps'))
    requires AllAdmitted(full, free, full.graph.reverse.Keys)
        && AllAdmitted(RefilledJob(full, retry, fill), free', full.graph.reverse.Keys)
    ensures var r := RefilledJob(full, retry, fill);
      var before, after := After(full, StartState(full, free, false), steps).core.outputs,
          After(r, StartState(r, free', false), steps').core.outputs;
      (n in after <==> n in before) && (n in after ==> after[n] == before[n])
  {
    var r := RefilledJob(full, retry, fill);
    RefilledIsBarrierOnly(full, retry, fill);
    OutputsConfluent(full, free, false, steps);
    OutputsConfluent(r, free', false, steps');
    UndisturbedSame(full, retry, fill, n);
    OutcomeAt(full, n);
    OutcomeAt(r, n);
  }
}
