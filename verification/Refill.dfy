/**
 What the controller fills in for a retry, rebuilt from what the original run recorded: an output with a
 payload comes back as a success, everything else as a failure, and what nobody read not at all.
 */
module Refill {
  import opened Wrappers
  import opened Graphs
  import opened DagModels
  import opened Helpers
  import opened Jobs
  import opened Reference
  import opened Retry

  /** `_payload_empty`: such a payload is not recorded. */
  predicate IsEmpty(v: Value) {
    v == Null || v == List([]) || v == Dict(map[])
  }

  /** A recorded edge input, without the fields that `_prefilled_outputs` does not read. */
  datatype EdgeRecord = EdgeRecord(src: NodeId, dst: NodeId, status: string, error: Option<string>)

  // ----- `_prefilled_outputs` -----

  function PayloadsOf(records: seq<(NodeId, Value)>, u: NodeId): seq<Value> {
    if records == [] then []
    else
      var last := records[|records| - 1];
      PayloadsOf(records[..|records| - 1], u) + if last.0 == u then [last.1] else []
  }

  function FirstFrom(facts: seq<EdgeRecord>, u: NodeId): Option<EdgeRecord> {
    if facts == [] then None
    else
      var earlier := FirstFrom(facts[..|facts| - 1], u);
      if earlier.Some? then earlier
      else if facts[|facts| - 1].src == u then Some(facts[|facts| - 1])
      else None
  }

  function Backwards(values: seq<Value>): seq<Value> {
    if values == [] then [] else [values[|values| - 1]] + Backwards(values[..|values| - 1])
  }

  function FromPayloads(u: NodeId, values: seq<Value>): NodeOutput
    requires values != []
  {
    NodeOutput(u, true, if |values| == 1 then values[0] else List(Backwards(values)), map[], None)
  }

  function FromFact(f: EdgeRecord): NodeOutput {
    NodeOutput(f.src, false, Null, map["runtime_status" := Text(f.status)], f.error)
  }

  /** What is filled in for a node: its payloads if any were recorded, or else the first fact about it. */
  function FillFor(records: seq<(NodeId, Value)>, facts: seq<EdgeRecord>, u: NodeId): Option<NodeOutput> {
    var values, fact := PayloadsOf(records, u), FirstFrom(facts, u);
    if values != [] then Some(FromPayloads(u, values))
    else if fact.Some? then Some(FromFact(fact.value))
    else None
  }

  method PrefilledOutputs(g: DagGraph, retry: set<NodeId>, records: seq<(NodeId, Value)>, facts: seq<EdgeRecord>)
    returns (prefilled: map<NodeId, NodeOutput>)
    ensures forall u :: u in prefilled <==> u in g.instances && u !in retry && FillFor(records, facts, u).Some?
    ensures forall u :: u in prefilled ==> FillFor(records, facts, u) == Some(prefilled[u])
  {
    var payloads := GroupPayloads(g, retry, records);
    prefilled := map u | u in payloads :: FromPayloads(u, payloads[u]);
    forall u ensures IsFilled(g, retry, records, [], prefilled, u) {
    }
    assert facts[..0] == [];
    for i := 0 to |facts|
      invariant forall u {:trigger u in prefilled} :: IsFilled(g, retry, records, facts[..i], prefilled, u)
    {
      var fact := facts[i];
      ghost var before, read := prefilled, facts[..i + 1];
      assert facts[..i] + [fact] == read;
      if fact.src in g.instances && fact.src !in retry && fact.src !in prefilled {
        prefilled := prefilled[fact.src := FromFact(fact)];
      }
      forall u ensures IsFilled(g, retry, records, read, prefilled, u) {
        assert IsFilled(g, retry, records, facts[..i], before, u);
        FillOfMore(records, facts[..i], fact, u);
      }
    }
    assert facts[..|facts|] == facts;
    assert forall u :: IsFilled(g, retry, records, facts, prefilled, u);
  }

  predicate IsFilled(g: DagGraph, retry: set<NodeId>, records: seq<(NodeId, Value)>, facts: seq<EdgeRecord>,
                     prefilled: map<NodeId, NodeOutput>, u: NodeId) {
    && (u in prefilled <==> u in g.instances && u !in retry && FillFor(records, facts, u).Some?)
    && (u in prefilled ==> FillFor(records, facts, u) == Some(prefilled[u]))
  }

  /** One more fact matters only to a node about which nothing is known yet. */
  lemma FillOfMore(records: seq<(NodeId, Value)>, facts: seq<EdgeRecord>, fact: EdgeRecord, u: NodeId)
    ensures FillFor(records, facts + [fact], u) ==
              (if FillFor(records, facts, u).None? && fact.src == u then Some(FromFact(fact))
                  else FillFor(records, facts, u))
  {
    assert (facts + [fact])[..|facts|] == facts;
  }

  method GroupPayloads(g: DagGraph, retry: set<NodeId>, records: seq<(NodeId, Value)>)
      returns (payloads: map<NodeId, seq<Value>>)
    ensures forall u :: u in payloads <==> u in g.instances && u !in retry && PayloadsOf(records, u) != []
    ensures forall u :: u in payloads ==> payloads[u] == PayloadsOf(records, u)
  {
    payloads := map[];
    for i := 0 to |records|
      invariant forall u :: u in payloads <==> u in g.instances && u !in retry && PayloadsOf(records[..i], u) != []
      invariant forall u :: u in payloads ==> payloads[u] == PayloadsOf(records[..i], u)
    {
      assert records[..i + 1][..i] == records[..i];
      var (node, payload) := records[i];
      if node in g.instances && node !in retry {
        payloads := payloads[node := (if node in payloads then payloads[node] else []) + [payload]];
      }
    }
    assert records[..|records|] == records;
  }

  // ----- What a full run has recorded -----

  predicate IsUnknown(o: NodeOutput) {
    !o.ok && "runtime_status" in o.metadata && o.metadata["runtime_status"] == Text("unknown")
  }

  /** A success with a payload to record. */
  predicate IsSolid(o: NodeOutput) {
    o.ok && !IsEmpty(o.payload)
  }

  /**
   `_edge_input_fact`: a success is available or empty, a failure keeps its error text unless its status is
   unknown.
   */
  predicate Describes(f: EdgeRecord, o: NodeOutput) {
    if o.ok then f.status in ["available", "empty"] && f.error == None
    else if IsUnknown(o) then f.status == "unknown" && f.error == None
    else f.status == "failed" && f.error == Some(ErrorText(o))
  }

  /** Some node that read the output was dispatched or blocked. */
  ghost predicate IsServed(full: Job, u: NodeId)
    requires ValidJob(full)
  {
    exists v {:trigger full.graph.reverse[v]} ::
        v in full.graph.reverse && v in Outcome(full) && u in full.graph.reverse[v]
  }

  /** Each node is executed once, and its payload recorded unless it is empty. */
  ghost predicate RecordsOfRun(full: Job, records: seq<(NodeId, Value)>)
    requires ValidJob(full)
  {
    forall u {:trigger PayloadsOf(records, u)} :: u in full.graph.reverse ==>
      PayloadsOf(records, u) == if u in Outcome(full) && IsSolid(Outcome(full)[u]) then [Outcome(full)[u].payload]
          else []
  }

  /** The inputs of a node are recorded when it is dispatched or blocked, that is, for the nodes with an output. */
  ghost predicate FactsOfRun(full: Job, facts: seq<EdgeRecord>)
    requires ValidJob(full)
  {
    && (forall f {:trigger f in facts} :: f in facts ==>
          f.dst in full.graph.reverse && f.dst in Outcome(full) && f.src in full.graph.reverse[f.dst]
          && f.src in Outcome(full) && Describes(f, Outcome(full)[f.src]))
    && (forall u {:trigger FirstFrom(facts, u)} :: IsServed(full, u) ==> exists f :: f in facts && f.src == u)
  }

  /** The filled-in output stands for the original one. */
  predicate StandsFor(fill: NodeOutput, u: NodeId, o: NodeOutput) {
    if IsSolid(o) then fill == NodeOutput(u, true, o.payload, map[], None)
    else
      && !fill.ok && fill.payload == Null && (IsUnknown(fill) <==> IsUnknown(o))
      && fill.error == if o.ok || IsUnknown(o) then None else Some(ErrorText(o))
  }

  /** Kept outputs come back if they have a payload or somebody read them. */
  ghost predicate IsRefilled(full: Job, u: NodeId)
    requires ValidJob(full)
  {
    u in full.graph.reverse && u in Outcome(full) && (IsSolid(Outcome(full)[u]) || IsServed(full, u))
  }

  ghost predicate IsRefill(full: Job, retry: set<NodeId>, fill: map<NodeId, NodeOutput>)
    requires ValidJob(full)
  {
    && (forall u {:trigger u in fill} :: u in fill <==> u !in retry && IsRefilled(full, u))
    && (forall u {:trigger u in fill} :: u in fill ==> StandsFor(fill[u], u, Outcome(full)[u]))
  }

  lemma {:induction false} FirstIsFact(facts: seq<EdgeRecord>, u: NodeId)
    ensures FirstFrom(facts, u).Some? <==> exists f :: f in facts && f.src == u
    ensures FirstFrom(facts, u).Some? ==> FirstFrom(facts, u).value in facts && FirstFrom(facts, u).value.src == u
  {
    if facts != [] {
      var front, last := facts[..|facts| - 1], facts[|facts| - 1];
      assert facts == front + [last];
      FirstIsFact(front, u);
      assert last in facts;
    }
  }

  /** What the controller fills in after a full run whose nodes were each executed once. */
  lemma FillIsRefill(full: Job, retry: set<NodeId>, records: seq<(NodeId, Value)>, facts: seq<EdgeRecord>,
      fill: map<NodeId, NodeOutput>)
    requires IsFullRun(full) && RecordsOfRun(full, records) && FactsOfRun(full, facts)
    requires forall u {:trigger u in fill} ::
        u in fill <==> u in full.graph.instances && u !in retry && FillFor(records, facts, u).Some?
    requires forall u {:trigger u in fill} :: u in fill ==> FillFor(records, facts, u) == Some(fill[u])
    ensures IsRefill(full, retry, fill)
  {
    forall u
      ensures u in fill <==> u !in retry && IsRefilled(full, u)
      ensures u in fill ==> StandsFor(fill[u], u, Outcome(full)[u])
    {
      assert u in full.graph.instances <==> u in full.graph.reverse;
      FactTells(full, facts, u);
      if u in full.graph.reverse {
        FillStandsFor(full, records, facts, u);
      }
    }
  }

  /** The first fact about a node describes its output, and there is one exactly if somebody read it. */
  lemma FactTells(full: Job, facts: seq<EdgeRecord>, u: NodeId)
    requires ValidJob(full) && FactsOfRun(full, facts)
    ensures FirstFrom(facts, u).Some? <==> IsServed(full, u)
    ensures FirstFrom(facts, u).Some? ==>
              u in Outcome(full) && FirstFrom(facts, u).value.src == u
                  && Describes(FirstFrom(facts, u).value, Outcome(full)[u])
  {
    FirstIsFact(facts, u);
    if FirstFrom(facts, u).Some? {
      var f := FirstFrom(facts, u).value;
      assert f in facts && u in full.graph.reverse[f.dst];
    }
  }

  lemma FillStandsFor(full: Job, records: seq<(NodeId, Value)>, facts: seq<EdgeRecord>, u: NodeId)
    requires ValidJob(full) && RecordsOfRun(full, records) && u in full.graph.reverse
    requires FirstFrom(facts, u).Some? <==> IsServed(full, u)
    requires FirstFrom(facts, u).Some? ==>
               u in Outcome(full) && FirstFrom(facts, u).value.src == u
                   && Describes(FirstFrom(facts, u).value, Outcome(full)[u])
    ensures FillFor(records, facts, u).Some? <==> IsRefilled(full, u)
    ensures FillFor(records, facts, u).Some? ==> StandsFor(FillFor(records, facts, u).value, u, Outcome(full)[u])
  {
    if u in Outcome(full) {
      assert IsSolid(Outcome(full)[u]) ==> PayloadsOf(records, u) == [Outcome(full)[u].payload];
    }
  }

  // ----- What a node is given to do -----

  datatype Assignment = Idle | Blocked(lines: seq<(NodeId, string)>) | Work(fan: Option<seq<Value>>, payload: Value,
      facts: seq<EdgeFact>)

  /** The failing upstreams with their error texts. */
  ghost function Lines(job: Job, ups: seq<NodeId>, n: NodeId, outs: map<NodeId, NodeOutput>): seq<(NodeId, string)>
    requires n in job.graph.reverse
    requires forall u {:trigger u in ups} :: u in ups ==> u in job.graph.instances
  {
    if ups == [] then []
    else
      var rest := ups[1..];
      assert ups[0] in ups && forall w :: w in rest ==> w in ups;
      (if FailsAt(job, ups[0], n, outs) then [(ups[0], ErrorText(outs[ups[0]]))] else []) + Lines(job, rest, n, outs)
  }

  ghost function AssignmentFrom(job: Job, n: NodeId, outs: map<NodeId, NodeOutput>): Assignment
    requires WellFormed(job.graph) && n in job.graph.reverse
  {
    var ups := job.graph.reverse[n];
    match VerdictOn(job, n, outs)
    case Runs => Work(FanFeeds(job, ups, n, outs), FeedPayload(job, n, outs), Facts(job, ups, n, outs))
    case Fails => Blocked(Lines(job, ups, n, outs))
    case _ => Idle
  }

  function Texts(lines: seq<(NodeId, string)>): seq<string> {
    if lines == [] then [] else [lines[0].0 + ": " + lines[0].1] + Texts(lines[1..])
  }

  lemma {:induction false} LinesGiveTexts(job: Job, ups: seq<NodeId>, n: NodeId, outs: map<NodeId, NodeOutput>)
    requires n in job.graph.reverse
    requires forall u {:trigger u in ups} :: u in ups ==> u in job.graph.instances
    ensures FailureLines(FailingUpstreams(job, ups, n, outs), outs) == Texts(Lines(job, ups, n, outs))
  {
    if ups != [] {
      var rest := ups[1..];
      assert ups[0] in ups && forall w :: w in rest ==> w in ups;
      LinesGiveTexts(job, rest, n, outs);
      var blocking := FailingUpstreams(job, ups, n, outs);
      if FailsAt(job, ups[0], n, outs) {
        assert blocking[1..] == FailingUpstreams(job, rest, n, outs);
        assert Lines(job, ups, n, outs)[1..] == Lines(job, rest, n, outs);
      } else {
        assert blocking == FailingUpstreams(job, rest, n, outs);
        assert Lines(job, ups, n, outs) == Lines(job, rest, n, outs);
      }
    }
  }

  /** The same job with other outputs filled in for other nodes. */
  ghost predicate SameWork(a: Job, b: Job) {
    a == b.(retry := a.retry, prefilled := a.prefilled)
  }

  /** A node that is given the same to do comes out the same. */
  lemma AssignmentDecides(a: Job, b: Job, n: NodeId, outsA: map<NodeId, NodeOutput>, outsB: map<NodeId, NodeOutput>)
    requires WellFormed(b.graph) && SameWork(a, b) && n in b.graph.reverse
    requires AssignmentFrom(a, n, outsA) == AssignmentFrom(b, n, outsB)
    ensures OutputFrom(a, n, outsA) == OutputFrom(b, n, outsB)
  {
    var ups := b.graph.reverse[n];
    match AssignmentFrom(b, n, outsB)
    case Idle =>
    case Blocked(_) =>
      LinesGiveTexts(a, ups, n, outsA);
      LinesGiveTexts(b, ups, n, outsB);
    case Work(fan, payload, facts) =>
      if fan.Some? {
        assert FanOutResults(a, n, fan.value, facts) == FanOutResults(b, n, fan.value, facts);
      }
  }
}
