/** One run of a graph, and the tests and inputs the runner derives from what it has recorded so far. */
module Jobs {
  import opened Wrappers
  import opened Graphs
  import opened DagModels
  import opened Helpers

  /** Under which instance id a node is executed: its own, an item of a fan-out, or a stream item. */
  datatype Slot = Whole | FanOutItem(index: nat) | StreamItem

  datatype EdgeFact = EdgeFact(src: NodeId, dst: NodeId, optional: bool, status: string, hasPayload: bool,
      error: Option<string>)

  datatype NodeInput = NodeInput(payload: Value, upstreams: seq<NodeId>, facts: seq<EdgeFact>)

  datatype RunInputs = RunInputs(shared: Value, nodeInputs: map<NodeId, Value>, appendNodes: set<NodeId>)

  /**
   What `run` is called with. `exec` stands for the execution of a node and `holds` for the
   evaluation of an edge condition on a payload; both are arbitrary functions.
   */
  datatype Job = Job(
    graph: DagGraph,
    configs: map<string, NodeConfig>,
    dags: set<string>,
    exec: (NodeId, Slot, NodeInput) -> NodeOutput,
    holds: (string, Value) -> bool,
    inputs: RunInputs,
    retry: set<NodeId>,
    prefilled: map<NodeId, NodeOutput>)

  ghost predicate ValidJob(job: Job) {
    WellFormed(job.graph) && Acyclic(job.graph.edges)
  }

  /** `retry_nodes or set(graph.nodes)` */
  function Allowed(job: Job): set<NodeId> {
    if job.retry == {} then Elements(job.graph.nodes) else job.retry
  }

  /** `_node_fan_in_mode(...) == "accumulate"` */
  predicate IsAccumulate(g: DagGraph, n: NodeId)
    requires n in g.instances && n in g.reverse
  {
    || g.instances[n].fanInMode == Accumulate
    || (g.instances[n].fanInMode == Barrier
        && exists u {:trigger u in g.reverse[n]} ::
            u in g.reverse[n] && (u, n) in g.fanInModes
            && (g.fanInModes[(u, n)] == Stream || g.fanInModes[(u, n)] == Accumulate))
  }

  /** The permit a node takes before it is dispatched; a node with a loop leaves it to its iterations. */
  function PermitOf(g: DagGraph, n: NodeId): Option<string>
    requires n in g.instances
  {
    if g.instances[n].hasLoop then None else g.instances[n].resource
  }

  predicate SourceRole(job: Job, u: NodeId)
    requires u in job.graph.instances
  {
    var typ := job.graph.instances[u].typ;
    typ in job.configs && job.configs[typ].role == Source
  }

  /** Whether the condition on the edge, if there is one, lets the payload through. */
  predicate Passes(job: Job, u: NodeId, v: NodeId, payload: Value) {
    (u, v) in job.graph.conditions ==> job.holds(job.graph.conditions[(u, v)], payload)
  }

  /** `_routed_edges` */
  function RoutedEdges(job: Job, u: NodeId, payload: Value): set<Edge>
    requires u in job.graph.edges
  {
    set v | v in job.graph.edges[u] && Passes(job, u, v, payload) :: (u, v)
  }

  function OptionalEdges(job: Job, u: NodeId): set<Edge>
    requires u in job.graph.edges
  {
    set v | v in job.graph.edges[u] && (u, v) in job.graph.optional :: (u, v)
  }

  /** `_source_failure_can_be_skipped` */
  predicate SourceFailureCanBeSkipped(job: Job, u: NodeId, n: NodeId, outputs: map<NodeId, NodeOutput>,
      routed: set<Edge>)
    requires u in job.graph.instances && n in job.graph.reverse
  {
    && SourceRole(job, u)
    && exists other {:trigger other in job.graph.reverse[n]} ::
         && other in job.graph.reverse[n] && other != u
         && other in outputs && outputs[other].ok && outputs[other].payload != Null
         && (other, n) in routed
  }

  /** `all(upstream in outputs for upstream in upstreams)` */
  predicate AllArrived(ups: seq<NodeId>, outputs: map<NodeId, NodeOutput>) {
    forall u {:trigger u in ups} :: u in ups ==> u in outputs
  }

  /** The loop of `_ready` over the upstreams. */
  predicate ReadyFrom(job: Job, ups: seq<NodeId>, n: NodeId, outputs: map<NodeId, NodeOutput>, routed: set<Edge>)
    requires n in job.graph.reverse && AllArrived(ups, outputs)
    requires forall u {:trigger u in ups} :: u in ups ==> u in job.graph.instances
  {
    if ups == [] then true
    else
      var u := ups[0];
      var rest := ups[1..];
      assert u in ups && forall w :: w in rest ==> w in ups;
      if outputs[u].ok then
        (u, n) in routed && ReadyFrom(job, rest, n, outputs, routed)
      else
        && ((u, n) in job.graph.optional || SourceFailureCanBeSkipped(job, u, n, outputs, routed))
        && ReadyFrom(job, rest, n, outputs, routed)
  }

  /** `_ready` */
  predicate Ready(job: Job, n: NodeId, outputs: map<NodeId, NodeOutput>, routed: set<Edge>)
    requires WellFormed(job.graph) && n in job.graph.reverse
  {
    var ups := job.graph.reverse[n];
    ups == [] || (AllArrived(ups, outputs) && ReadyFrom(job, ups, n, outputs, routed))
  }

  /** `_blocking_required_failures` */
  function BlockingFailures(job: Job, ups: seq<NodeId>, n: NodeId, outputs: map<NodeId, NodeOutput>,
      routed: set<Edge>): seq<NodeId>
    requires n in job.graph.reverse
    requires forall u {:trigger u in ups} :: u in ups ==> u in job.graph.instances
  {
    if ups == [] then []
    else
      var u := ups[0];
      var rest := ups[1..];
      assert u in ups && forall w :: w in rest ==> w in ups;
      var blocks := u in outputs && !outputs[u].ok && (u, n) !in job.graph.optional
          && !SourceFailureCanBeSkipped(job, u, n, outputs, routed);
      (if blocks then [u] else []) + BlockingFailures(job, rest, n, outputs, routed)
  }

  /** `_blocked_by_required_failure` */
  predicate Blocked(job: Job, n: NodeId, outputs: map<NodeId, NodeOutput>, routed: set<Edge>)
    requires WellFormed(job.graph) && n in job.graph.reverse
  {
    var ups := job.graph.reverse[n];
    ups != [] && AllArrived(ups, outputs) && BlockingFailures(job, ups, n, outputs, routed) != []
  }

  function FailureLines(blocking: seq<NodeId>, outputs: map<NodeId, NodeOutput>): seq<string> {
    if blocking == [] then []
    else [blocking[0] + ": " + (if blocking[0] in outputs then ErrorText(outputs[blocking[0]]) else "node failed")]
         + FailureLines(blocking[1..], outputs)
  }

  /** The output of a node that never runs because a required upstream failed. */
  function UpstreamFailed(n: NodeId, blocking: seq<NodeId>, outputs: map<NodeId, NodeOutput>): NodeOutput {
    NodeOutput(n, false, Null, map[], Some("required upstream failed: " + Join("; ", FailureLines(blocking, outputs))))
  }

  /** What a fan-out edge contributes: the items of a list, or the payload itself. */
  function FanItems(payload: Value): seq<Value> {
    if payload.List? then payload.items else if payload != Null then [payload] else []
  }

  /** `_fan_out_payloads`: nothing when no routed fan-out edge brings a successful output. */
  function FanOutPayloads(job: Job, ups: seq<NodeId>, n: NodeId, outputs: map<NodeId, NodeOutput>,
      routed: set<Edge>): Option<seq<Value>> {
    if ups == [] then None
    else
      var u := ups[|ups| - 1];
      var before := FanOutPayloads(job, ups[..|ups| - 1], n, outputs, routed);
      if (u, n) in job.graph.fanOut && (u, n) in routed && u in outputs && outputs[u].ok then
        Some((if before.Some? then before.value else []) + FanItems(outputs[u].payload))
      else before
  }

  /** The `payloads[name]` lookups of `_collect_upstream_payloads` all succeed. */
  ghost predicate LookupsSucceed(ups: seq<NodeId>, n: NodeId, outputs: map<NodeId, NodeOutput>,
      payloads: map<NodeId, Value>, routed: set<Edge>) {
    forall u {:trigger u in ups} ::
        u in ups && u in outputs && (u, n) in routed && outputs[u].ok && outputs[u].payload != Null ==> u in payloads
  }

  function UpstreamValues(ups: seq<NodeId>, n: NodeId, outputs: map<NodeId, NodeOutput>, payloads: map<NodeId, Value>,
      routed: set<Edge>): seq<Value>
    requires LookupsSucceed(ups, n, outputs, payloads, routed)
  {
    if ups == [] then []
    else
      var u := ups[|ups| - 1];
      var front := ups[..|ups| - 1];
      assert u in ups && forall w :: w in front ==> w in ups;
      UpstreamValues(front, n, outputs, payloads, routed)
      + if u in outputs && (u, n) in routed && outputs[u].ok && outputs[u].payload != Null then [payloads[u]] else []
  }

  /** The end of `_collect_upstream_payloads`. */
  function Gather(values: seq<Value>): Value {
    if |values| == 1 then values[0] else List(Flatten(values))
  }

  /** `_merge` */
  function MergeInputs(base: Value, override: Value): Value {
    if base.Dict? && override.Dict? then Dict(base.fields + override.fields) else override
  }

  /** The end of `_get_node_input`: the temporary input given for this run, if any. */
  function WithOverride(inputs: RunInputs, n: NodeId, current: Value): Value {
    if n !in inputs.nodeInputs then current
    else if n in inputs.appendNodes then MergeInputs(current, inputs.nodeInputs[n])
    else inputs.nodeInputs[n]
  }

  function SourceBase(job: Job, n: NodeId): Value
    requires n in job.graph.instances
  {
    if job.inputs.shared != Null then job.inputs.shared else job.graph.instances[n].defaultEntity
  }

  /** `_get_node_input` */
  function InputPayload(job: Job, n: NodeId, outputs: map<NodeId, NodeOutput>, payloads: map<NodeId, Value>,
      routed: set<Edge>): Value
    requires n in job.graph.reverse && n in job.graph.instances
    requires LookupsSucceed(job.graph.reverse[n], n, outputs, payloads, routed)
  {
    var ups := job.graph.reverse[n];
    WithOverride(job.inputs, n, if ups == [] then SourceBase(job, n)
        else Gather(UpstreamValues(ups, n, outputs, payloads, routed)))
  }

  /** `_edge_input_fact`, as `_metadata` calls it. */
  function FactOf(job: Job, u: NodeId, n: NodeId, outputs: map<NodeId, NodeOutput>): EdgeFact {
    var optional := (u, n) in job.graph.optional;
    if u !in outputs then EdgeFact(u, n, optional, "unknown", false, None)
    else
      var o := outputs[u];
      if o.ok then EdgeFact(u, n, optional, if o.payload != Null then "available" else "empty", o.payload != Null, None)
      else if "runtime_status" in o.metadata
          && o.metadata["runtime_status"] == Text("unknown") then EdgeFact(u, n, optional, "unknown", false, None)
      else EdgeFact(u, n, optional, "failed", false, Some(ErrorText(o)))
  }

  /** `_metadata` without its `warnings` entry. */
  function Facts(job: Job, ups: seq<NodeId>, n: NodeId, outputs: map<NodeId, NodeOutput>): (facts: seq<EdgeFact>)
    ensures |facts| == |ups|
  {
    seq(|ups|, i requires 0 <= i < |ups| => FactOf(job, ups[i], n, outputs))
  }

  function FanOutResults(job: Job, n: NodeId, values: seq<Value>, facts: seq<EdgeFact>): (results: seq<NodeOutput>)
    requires n in job.graph.reverse
    ensures |results| == |values|
  {
    seq(|values|, i requires 0 <= i < |values| =>
        job.exec(n, FanOutItem(i), NodeInput(values[i], job.graph.reverse[n], facts)))
  }

  /** What the task of a dispatched node returns: `_run_fan_out_node`, or `_run_node`. */
  function TaskResult(job: Job, n: NodeId, fan: Option<seq<Value>>, payload: Value, facts: seq<EdgeFact>): NodeOutput
    requires n in job.graph.reverse
  {
    if fan.Some? then Merge(FanOutMerge, n, FanOutResults(job, n, fan.value, facts))
    else job.exec(n, Whole, NodeInput(payload, job.graph.reverse[n], facts))
  }

  // ----- The end of the run -----

  datatype RunResult = RunResult(outputs: map<NodeId, NodeOutput>, failures: map<NodeId, string>, payload: Value)

  /** `_is_sub_dag_instance` */
  predicate IsSubDagInstance(job: Job, n: NodeId)
    requires n in job.graph.instances
  {
    var i := job.graph.instances[n];
    (i.typ == "dag" && i.dagRef.Some? && i.dagRef.value in job.dags) || i.typ in job.dags
  }

  function SinkPayloads(g: DagGraph, nodes: seq<NodeId>, payloads: map<NodeId, Value>): seq<Value>
    requires forall n :: n in nodes ==> n in g.edges
  {
    if nodes == [] then []
    else
      assert nodes[0] in nodes && forall n :: n in nodes[1..] ==> n in nodes;
      (if g.edges[nodes[0]] == [] && nodes[0] in payloads then [payloads[nodes[0]]] else [])
          + SinkPayloads(g, nodes[1..], payloads)
  }

  function Sinks(g: DagGraph, nodes: seq<NodeId>): (sinks: seq<NodeId>)
    requires forall n :: n in nodes ==> n in g.edges
  {
    if nodes == [] then []
    else
      assert nodes[0] in nodes && forall n :: n in nodes[1..] ==> n in nodes;
      (if g.edges[nodes[0]] == [] then [nodes[0]] else []) + Sinks(g, nodes[1..])
  }

  /** `_last_payload` */
  function LastPayload(g: DagGraph, payloads: map<NodeId, Value>): Value
    requires WellFormed(g)
  {
    var sinks := Sinks(g, g.nodes);
    if sinks == [] then Null
    else if |sinks| == 1 then (if sinks[0] in payloads then payloads[sinks[0]] else Null)
    else List(SinkPayloads(g, g.nodes, payloads))
  }

  predicate IsStartNode(job: Job, n: NodeId)
    requires WellFormed(job.graph)
  {
    n in job.graph.reverse && n in Allowed(job) && job.graph.reverse[n] == []
  }

  /** "all source nodes failed" */
  predicate AllSourcesFailed(job: Job, outputs: map<NodeId, NodeOutput>)
    requires WellFormed(job.graph)
  {
    && (exists n :: n in job.graph.nodes && IsStartNode(job, n))
    && (forall n :: n in job.graph.nodes && IsStartNode(job, n) ==>
          n in outputs && !outputs[n].ok && !IsSubDagInstance(job, n))
  }

  /** What `run` returns after the loop, or nothing where it raises. */
  function FinishRun(job: Job, outputs: map<NodeId, NodeOutput>, failures: map<NodeId, string>,
      payloads: map<NodeId, Value>, stopped: bool): Option<RunResult>
    requires WellFormed(job.graph)
  {
    if !stopped && AllSourcesFailed(job, outputs) then None
    else Some(RunResult(outputs, failures, LastPayload(job.graph, payloads)))
  }

  // ----- The three tests fit together -----

  lemma {:induction false} BlockingMembers(job: Job, ups: seq<NodeId>, n: NodeId, outputs: map<NodeId, NodeOutput>,
      routed: set<Edge>, u: NodeId)
    requires n in job.graph.reverse
    requires forall w {:trigger w in ups} :: w in ups ==> w in job.graph.instances
    ensures u in BlockingFailures(job, ups, n, outputs, routed) <==>
              && u in ups && u in outputs && !outputs[u].ok && (u, n) !in job.graph.optional
              && !SourceFailureCanBeSkipped(job, u, n, outputs, routed)
  {
    if ups != [] {
      var rest := ups[1..];
      assert ups[0] in ups && forall w :: w in rest ==> w in ups;
      BlockingMembers(job, rest, n, outputs, routed, u);
      assert ups == [ups[0]] + rest;
    }
  }

  /** The verdict on one upstream that `_ready` asks for. */
  predicate LetsRun(job: Job, u: NodeId, n: NodeId, outputs: map<NodeId, NodeOutput>, routed: set<Edge>)
    requires u in job.graph.instances && n in job.graph.reverse && u in outputs
  {
    if outputs[u].ok then (u, n) in routed
    else (u, n) in job.graph.optional || SourceFailureCanBeSkipped(job, u, n, outputs, routed)
  }

  lemma {:induction false} ReadyFromMeansAll(job: Job, ups: seq<NodeId>, n: NodeId, outputs: map<NodeId, NodeOutput>,
      routed: set<Edge>)
    requires n in job.graph.reverse && AllArrived(ups, outputs)
    requires forall u {:trigger u in ups} :: u in ups ==> u in job.graph.instances
    ensures ReadyFrom(job, ups, n, outputs, routed) <==>
              forall u {:trigger u in ups} :: u in ups ==> LetsRun(job, u, n, outputs, routed)
  {
    if ups != [] {
      var rest := ups[1..];
      assert ups[0] in ups && forall w :: w in rest ==> w in ups;
      ReadyFromMeansAll(job, rest, n, outputs, routed);
      assert ups == [ups[0]] + rest;
    }
  }

  /**
   Once all upstreams of a node have outputs, exactly one of three things holds: it is ready, it is
   blocked by a required failure, or it is neither because a successful upstream did not route to it.
   */
  lemma ReadyBlockedOrUnrouted(job: Job, n: NodeId, outputs: map<NodeId, NodeOutput>, routed: set<Edge>)
    requires WellFormed(job.graph) && n in job.graph.reverse && AllArrived(job.graph.reverse[n], outputs)
    ensures !(Ready(job, n, outputs, routed) && Blocked(job, n, outputs, routed))
    ensures !Ready(job, n, outputs, routed) && !Blocked(job, n, outputs, routed) ==>
              exists u {:trigger u in job.graph.reverse[n]} ::
                  u in job.graph.reverse[n] && outputs[u].ok && (u, n) !in routed
  {
    var ups := job.graph.reverse[n];
    if ups != [] {
      ReadyFromMeansAll(job, ups, n, outputs, routed);
      var blocking := BlockingFailures(job, ups, n, outputs, routed);
      if blocking != [] {
        BlockingMembers(job, ups, n, outputs, routed, blocking[0]);
        assert !LetsRun(job, blocking[0], n, outputs, routed);
      } else if !Ready(job, n, outputs, routed) {
        var u :| u in ups && !LetsRun(job, u, n, outputs, routed);
        BlockingMembers(job, ups, n, outputs, routed, u);
      }
    }
  }
}
