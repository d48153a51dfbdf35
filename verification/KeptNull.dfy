/** A source that succeeds without a payload, and a node that runs on it and is retried. */
module KeptNull {
  import opened Wrappers
  import opened Graphs
  import opened DagModels
  import opened Helpers
  import opened Jobs
  import opened Reference
  import opened Retry
  import opened Refill
  import opened RefilledRetry

  ghost function Plain(id: NodeId): Instance {
    Instance(id, "plain", None, false, Barrier, false, None, Null)
  }

  ghost function Silent(): Job {
    Job(DagGraph("silent", ["s", "n"], map["s" := Plain("s"), "n" := Plain("n")],
          map["s" := ["n"], "n" := []], map["s" := [], "n" := ["s"]], {}, {}, {}, map[], map[]),
        map[], {}, (n: NodeId, slot: Slot, input: NodeInput) =>
            NodeOutput(n, true, if n == "s" then Null else Num(1), map[], None),
        (c: string, v: Value) => true, RunInputs(Null, map[], {}), {}, map[])
  }

  ghost function Nothing(): NodeOutput {
    NodeOutput("s", true, Null, map[], None)
  }

  lemma SilentIsValid()
    ensures IsFullRun(Silent()) && Elements(Silent().graph.nodes) == {"s", "n"}
  {
    var g := Silent().graph;
    assert Elements(g.nodes) == {"s", "n"};
    forall u, v | u in g.edges && v in g.reverse ensures SameCount(g.edges, g.reverse, u, v) {
    }
    RankMeansAcyclic(g.edges, map["s" := 0, "n" := 1]);
  }

  lemma SilentRuns()
    requires IsFullRun(Silent())
    ensures Evaluate(Silent(), "s") == Some(Nothing())
    ensures UpstreamOutputs(Silent(), "n") == map["s" := Nothing()]
    ensures VerdictOn(Silent(), "n", UpstreamOutputs(Silent(), "n")) == Runs
  {
    var job := Silent();
    SilentIsValid();
    assert job.graph.reverse["s"] == [];
    assert FanFeeds(job, [], "s", UpstreamOutputs(job, "s")) == None;
    assert VerdictOn(job, "s", UpstreamOutputs(job, "s")) == Runs;
    UpstreamOutputAt(job, "n", "s");
    forall u ensures u in UpstreamOutputs(job, "n") <==> u == "s" {
      UpstreamOutputAt(job, "n", u);
    }
  }

  /** With the outputs of the full run filled in, the node that ran is skipped. */
  lemma KeptNullIsSkipped()
    ensures IsFullRun(Silent()) && RanOnKeptNull(Silent(), {"n"}, "n", "s")
    ensures Evaluate(Silent(), "n").Some? && Evaluate(RetryJob(Silent(), {"n"}), "n") == None
  {
    var job := Silent();
    SilentIsValid();
    SilentRuns();
    OutcomeAt(job, "s");
    assert "s" in job.graph.reverse["n"];
    assert Evaluate(RetryJob(job, {"n"}), "s") == Some(Kept(job, {"n"})["s"]);
    KeptNullBreaksRetry(job, {"n"}, "n", "s");
  }

  // ----- The controller's fill-in -----

  ghost function SilentPayloads(): seq<(NodeId, Value)> {
    [("n", Num(1))]
  }

  ghost function SilentFacts(): seq<EdgeRecord> {
    [EdgeRecord("s", "n", "empty", None)]
  }

  lemma SilentPayload(u: NodeId)
    ensures PayloadsOf(SilentPayloads(), u) == if u == "n" then [Num(1)] else []
  {
    assert SilentPayloads()[..0] == [];
    assert PayloadsOf([], u) == [];
  }

  lemma SilentFact(u: NodeId)
    ensures FirstFrom(SilentFacts(), u) == if u == "s" then Some(SilentFacts()[0]) else None
  {
    assert SilentFacts()[..0] == [];
    assert FirstFrom([], u) == None;
  }

  lemma OnlySourceIsServed(u: NodeId)
    requires IsFullRun(Silent()) && IsServed(Silent(), u)
    ensures u == "s"
  {
    var v :| v in Silent().graph.reverse && v in Outcome(Silent()) && u in Silent().graph.reverse[v];
    assert v == "s" || v == "n";
  }

  lemma SilentFactIsRight()
    requires IsFullRun(Silent())
    ensures FactsOfRun(Silent(), SilentFacts())
  {
    var facts := SilentFacts();
    assert facts[0] in facts && facts[0].src == "s";
    assert forall f :: f in facts ==> f == facts[0];
    SilentOutcome();
    forall u | IsServed(Silent(), u) ensures exists f :: f in facts && f.src == u {
      OnlySourceIsServed(u);
    }
  }

  /** The run records the payload of "n", and of "s" only that it was empty. */
  lemma SilentRecords()
    requires IsFullRun(Silent())
    ensures RecordsOfRun(Silent(), SilentPayloads())
    ensures FactsOfRun(Silent(), SilentFacts())
  {
    SilentOutcome();
    SilentPayload("s");
    SilentPayload("n");
    SilentFactIsRight();
  }

  lemma SilentOutcome()
    requires IsFullRun(Silent())
    ensures Outcome(Silent()) == map["s" := Nothing(), "n" := NodeOutput("n", true, Num(1), map[], None)]
  {
    var job := Silent();
    SilentIsValid();
    SilentRuns();
    OutcomeAt(job, "s");
    OutcomeAt(job, "n");
    var outs := UpstreamOutputs(job, "n");
    assert FanFeeds(job, ["s"][..0], "n", outs) == None;
    assert FanFeeds(job, ["s"], "n", outs) == None;
  }

  /** In the retry "n" sees "s" as failed. */
  lemma SilentSeen(fill: map<NodeId, NodeOutput>)
    requires IsFullRun(Silent()) && IsRefill(Silent(), {"n"}, fill)
    ensures var seen := UpstreamOutputs(RefilledJob(Silent(), {"n"}, fill), "n");
      seen.Keys == {"s"} && !seen["s"].ok && ErrorText(seen["s"]) == "node failed"
  {
    var job, r := Silent(), RefilledJob(Silent(), {"n"}, fill);
    SilentRuns();
    SilentOutcome();
    assert "s" in job.graph.reverse["n"] && "n" in job.graph.reverse && "n" in Outcome(job);
    assert IsServed(job, "s");
    KeptEvaluate(job, {"n"}, fill, "s");
    forall u ensures u in UpstreamOutputs(r, "n") <==> u == "s" {
      UpstreamOutputAt(r, "n", u);
    }
    UpstreamOutputAt(r, "n", "s");
  }

  lemma SilentFailing(r: Job, seen: map<NodeId, NodeOutput>)
    requires WellFormed(r.graph) && r.graph == Silent().graph && r.configs == map[]
    requires seen.Keys == {"s"} && !seen["s"].ok
    ensures VerdictOn(r, "n", seen) == Fails && FailingUpstreams(r, r.graph.reverse["n"], "n", seen) == ["s"]
  {
    var ups := r.graph.reverse["n"];
    assert ups == ["s"] && "s" in ups && FailsAt(r, "s", "n", seen);
    assert FailingUpstreams(r, ups, "n", seen) == ["s"] + FailingUpstreams(r, [], "n", seen);
  }

  lemma SilentText(seen: map<NodeId, NodeOutput>)
    requires seen.Keys == {"s"} && ErrorText(seen["s"]) == "node failed"
    ensures UpstreamFailed("n", ["s"], seen)
        == NodeOutput("n", false, Null, map[], Some("required upstream failed: s: node failed"))
  {
    assert "s" + ": " + "node failed" == "s: node failed";
    assert FailureLines(["s"], seen) == ["s: node failed"] + FailureLines([], seen);
    assert "required upstream failed: " + "s: node failed" == "required upstream failed: s: node failed";
  }

  lemma SilentDisturbed()
    requires IsFullRun(Silent())
    ensures VerdictOn(Silent(), "n", UpstreamOutputs(Silent(), "n")) == Runs && !Undisturbed(Silent(), {"n"}, "n")
  {
    SilentRuns();
    assert "s" in Silent().graph.reverse["n"] && KeptEmpty({"n"}, "s", Nothing());
  }

  /** With what the controller fills in, the node that ran is blocked by its upstream, which now counts as failed. */
  lemma KeptNullBlocks(fill: map<NodeId, NodeOutput>)
    requires IsFullRun(Silent()) && IsRefill(Silent(), {"n"}, fill)
    ensures VerdictOn(Silent(), "n", UpstreamOutputs(Silent(), "n")) == Runs && !Undisturbed(Silent(), {"n"}, "n")
    ensures Evaluate(RefilledJob(Silent(), {"n"}, fill), "n")
              == Some(NodeOutput("n", false, Null, map[], Some("required upstream failed: s: node failed")))
  {
    var r := RefilledJob(Silent(), {"n"}, fill);
    SilentDisturbed();
    SilentSeen(fill);
    SilentFailing(r, UpstreamOutputs(r, "n"));
    SilentText(UpstreamOutputs(r, "n"));
    assert "n" in Allowed(r) && "n" !in fill;
  }

  lemma SilentFillFor(fill: map<NodeId, NodeOutput>, u: NodeId)
    requires fill == map["s" := FromFact(SilentFacts()[0])]
    ensures u in fill
        <==> u in Silent().graph.instances && u !in {"n"} && FillFor(SilentPayloads(), SilentFacts(), u).Some?
    ensures u in fill ==> FillFor(SilentPayloads(), SilentFacts(), u) == Some(fill[u])
  {
    SilentPayload(u);
    SilentFact(u);
  }

  /** And this is what the controller makes of the records of the run. */
  lemma SilentFill(fill: map<NodeId, NodeOutput>)
    requires IsFullRun(Silent()) && fill == map["s" := FromFact(SilentFacts()[0])]
    ensures IsRefill(Silent(), {"n"}, fill)
  {
    SilentRecords();
    forall u
      ensures u in fill
          <==> u in Silent().graph.instances && u !in {"n"} && FillFor(SilentPayloads(), SilentFacts(), u).Some?
      ensures u in fill ==> FillFor(SilentPayloads(), SilentFacts(), u) == Some(fill[u])
    {
      SilentFillFor(fill, u);
    }
    FillIsRefill(Silent(), {"n"}, SilentPayloads(), SilentFacts(), fill);
  }
}
