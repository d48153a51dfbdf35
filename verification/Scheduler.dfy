/**
 `DagRunner.run` as a state machine. A step is an atomic stretch of the coroutine or of a task:
 dispatching one node, one task reading its inputs and finishing, one finished task being taken
 over, one output being stored, and so on, in any order the event loop may choose.
 */
module Scheduler {
  import opened Wrappers
  import opened Graphs
  import opened DagModels
  import opened Helpers
  import opened Jobs

  /** A task: created with its fan-out payloads fixed, or finished. */
  datatype Task = Created(fan: Option<seq<Value>>) | Finished(out: NodeOutput)

  /** A stream item: its payload is fixed when it is launched. */
  datatype StreamTask = StreamTask(upstream: NodeId, payload: Value, out: Option<NodeOutput>)

  datatype Done = Done(node: NodeId, out: NodeOutput)

  datatype Core = Core(
    outputs: map<NodeId, NodeOutput>,
    payloads: map<NodeId, Value>,
    failures: map<NodeId, string>,
    routed: set<Edge>,
    started: set<NodeId>,
    running: map<NodeId, Task>,
    queue: seq<Done>)

  /**
   `scanning` is set between storing a successful output and launching stream items for it.
   `unscanned` is bookkeeping of the model: the nodes whose outputs no scan has seen yet.
   */
  datatype Streams = Streams(
    tasks: map<NodeId, seq<StreamTask>>,
    accumulated: set<Edge>,
    scanning: bool,
    unscanned: set<NodeId>)

  datatype Key = NodeKey(node: NodeId) | StreamKey(node: NodeId, upstream: NodeId)

  /** The permits this run holds, and the ones still free in each semaphore. */
  datatype Ledger = Ledger(acquired: map<Key, string>, free: map<string, nat>)

  datatype State = State(core: Core, streams: Streams, ledger: Ledger, stopped: bool)

  // ----- Permits -----

  function Free(l: Ledger, r: string): nat {
    if r in l.free then l.free[r] else 0
  }

  /** `_resource_available` */
  predicate Available(l: Ledger, permit: Option<string>) {
    permit.None? || Free(l, permit.value) > 0
  }

  /** `_acquire_resource`, when it succeeds. */
  function Acquire(l: Ledger, key: Key, permit: Option<string>): Ledger
    requires Available(l, permit)
  {
    if permit.None? then l
    else Ledger(l.acquired[key := permit.value], l.free[permit.value := Free(l, permit.value) - 1])
  }

  /** `_release_resource`: gives a permit back if the key holds one. */
  function Release(l: Ledger, key: Key): Ledger {
    if key !in l.acquired then l
    else Ledger(l.acquired - {key}, l.free[l.acquired[key] := Free(l, l.acquired[key]) + 1])
  }

  // ----- Outputs -----

  /** `_store_result`, without the release of the permit. */
  function StoreCore(job: Job, c: Core, n: NodeId, out: NodeOutput): Core
    requires n in job.graph.edges
  {
    if out.ok then
      c.(outputs := c.outputs[n := out], payloads := c.payloads[n := out.payload],
         routed := c.routed + RoutedEdges(job, n, out.payload))
    else
      c.(outputs := c.outputs[n := out], failures := c.failures[n := ErrorText(out)],
         routed := c.routed + OptionalEdges(job, n))
  }

  function StoreResult(job: Job, s: State, n: NodeId, out: NodeOutput): State
    requires n in job.graph.edges
  {
    s.(core := StoreCore(job, s.core, n, out),
       streams := s.streams.(unscanned := s.streams.unscanned + {n}),
       ledger := Release(s.ledger, NodeKey(n)))
  }

  /** The effect of `prefilled_outputs`. */
  function PrefilledCore(job: Job): Core {
    var outputs := map n | n in job.prefilled && n in job.graph.instances :: job.prefilled[n];
    var useful := set n | n in outputs && outputs[n].ok && outputs[n].payload != Null;
    Core(outputs, map n | n in useful :: outputs[n].payload, map[],
         set n, v | n in useful && n in job.graph.edges && v in job.graph.edges[n]
             && Passes(job, n, v, outputs[n].payload) :: (n, v),
         outputs.Keys, map[], [])
  }

  function InitialState(job: Job, free: map<string, nat>, stopped: bool): State {
    var core := PrefilledCore(job);
    State(core, Streams(map[], {}, false, core.outputs.Keys), Ledger(map[], free), stopped)
  }

  // ----- The steps -----

  datatype Step =
    | Dispatch(node: NodeId)                       // `_start_ready_nodes`: a ready node
    | Block(node: NodeId)                          // `_start_ready_nodes`: a required upstream failed
    | Execute(node: NodeId)                        // a task reads its input and finishes
    | Pop(node: NodeId)                            // a finished task leaves `running`
    | Store                                        // the head of the queue is stored
    | Scan                                         // `_run_accumulate_downstreams`
    | StreamDone(node: NodeId, index: nat)         // a stream item finishes and gives its permit back
    | MergeStreams(node: NodeId)                   // `_complete_accumulate_tasks`, one node
    | SetFree(free: map<string, nat>)              // other runs take and release permits
    | Stop

  function Queued(c: Core): set<NodeId> {
    set d | d in c.queue :: d.node
  }

  /** Not started yet and allowed to: the first test of both start loops. */
  predicate Startable(job: Job, c: Core, n: NodeId) {
    n in job.graph.instances && n in job.graph.reverse && n in job.graph.edges && n !in c.started && n in Allowed(job)
        && n !in c.running
  }

  ghost predicate Enabled(job: Job, s: State, step: Step)
    requires WellFormed(job.graph)
  {
    var c, st := s.core, s.streams;
    match step
    case Dispatch(n) =>
      && !st.scanning && Startable(job, c, n) && !IsAccumulate(job.graph, n)
      && Ready(job, n, c.outputs, c.routed) && Available(s.ledger, PermitOf(job.graph, n))
    case Block(n) =>
      && !st.scanning && Startable(job, c, n) && !IsAccumulate(job.graph, n)
      && !Ready(job, n, c.outputs, c.routed) && Blocked(job, n, c.outputs, c.routed)
    case Execute(n) =>
      && n in c.running && c.running[n].Created? && n in job.graph.instances && n in job.graph.reverse
      && LookupsSucceed(job.graph.reverse[n], n, c.outputs, c.payloads, c.routed)
    case Pop(n) => n in c.running && c.running[n].Finished?
    case Store => !st.scanning && c.queue != [] && c.queue[0].node in job.graph.edges
    case Scan => st.scanning
    case StreamDone(n, i) => n in st.tasks && i < |st.tasks[n]| && st.tasks[n][i].out.None? && n in job.graph.reverse
    case MergeStreams(n) =>
      && !st.scanning && n in job.graph.edges && n in st.tasks && n !in c.outputs
      && AllArrived(job.graph.reverse[n], c.outputs) && AllStreamsDone(st.tasks[n])
    case SetFree(_) => true
    case Stop => true
  }

  predicate AllStreamsDone(tasks: seq<StreamTask>) {
    tasks != [] && forall t :: t in tasks ==> t.out.Some?
  }

  function StreamResults(tasks: seq<StreamTask>): (results: seq<NodeOutput>)
    requires AllStreamsDone(tasks)
    ensures |results| == |tasks|
  {
    seq(|tasks|, i requires 0 <= i < |tasks| => tasks[i].out.value)
  }

  function DispatchNode(job: Job, s: State, n: NodeId): State
    requires Startable(job, s.core, n) && Available(s.ledger, PermitOf(job.graph, n))
  {
    var c := s.core;
    s.(core := c.(running := c.running[n := Created(FanOutPayloads(job, job.graph.reverse[n], n, c.outputs, c.routed))],
                  started := c.started + {n}),
       ledger := Acquire(s.ledger, NodeKey(n), PermitOf(job.graph, n)))
  }

  /** The start-up loop: dispatch, in order, the nodes without upstreams whose permit is free. */
  function StartUp(job: Job, s: State, nodes: seq<NodeId>): State {
    if nodes == [] then s
    else
      var n := nodes[|nodes| - 1];
      var before := StartUp(job, s, nodes[..|nodes| - 1]);
      if Startable(job, before.core, n) && job.graph.reverse[n] == []
          && Available(before.ledger, PermitOf(job.graph, n)) then
        DispatchNode(job, before, n)
      else before
  }

  /** The state in which the main loop is entered. */
  function StartState(job: Job, free: map<string, nat>, stopped: bool): State {
    StartUp(job, InitialState(job, free, stopped), job.graph.nodes)
  }

  function BlockNode(job: Job, s: State, n: NodeId): State
    requires WellFormed(job.graph) && n in job.graph.edges
  {
    var c := s.core;
    var blocking := BlockingFailures(job, job.graph.reverse[n], n, c.outputs, c.routed);
    var stored := StoreResult(job, s, n, UpstreamFailed(n, blocking, c.outputs));
    stored.(core := stored.core.(started := stored.core.started + {n}))
  }

  function ExecuteNode(job: Job, c: Core, n: NodeId): Core
    requires n in c.running && c.running[n].Created? && n in job.graph.instances && n in job.graph.reverse
    requires LookupsSucceed(job.graph.reverse[n], n, c.outputs, c.payloads, c.routed)
  {
    c.(running := c.running[n := Finished(TaskResult(job, n, c.running[n].fan,
        InputPayload(job, n, c.outputs, c.payloads, c.routed), Facts(job, job.graph.reverse[n], n, c.outputs)))])
  }

  function Popped(c: Core, n: NodeId): Core
    requires n in c.running && c.running[n].Finished?
  {
    c.(running := c.running - {n}, queue := c.queue + [Done(n, c.running[n].out)])
  }

  function StoreHead(job: Job, s: State): State
    requires s.core.queue != [] && s.core.queue[0].node in job.graph.edges
  {
    var head := s.core.queue[0];
    var stored := StoreResult(job, s.(core := s.core.(queue := s.core.queue[1..])), head.node, head.out);
    stored.(streams := stored.streams.(scanning := head.out.ok))
  }

  /** Launching the stream item of one edge, if it can be launched now. */
  predicate Launchable(job: Job, s: State, u: NodeId, d: NodeId) {
    && d in job.graph.instances && d in job.graph.reverse && d !in s.core.outputs && d in Allowed(job)
        && IsAccumulate(job.graph, d)
    && u in s.core.outputs && (u, d) in s.core.routed && (u, d) !in s.streams.accumulated
    && Available(s.ledger, job.graph.instances[d].resource)
  }

  function Launch(job: Job, s: State, u: NodeId, d: NodeId): State {
    if !Launchable(job, s, u, d) then s
    else
      var st := s.streams;
      var earlier := if d in st.tasks then st.tasks[d] else [];
      s.(streams := st.(tasks := st.tasks[d := earlier + [StreamTask(u, s.core.outputs[u].payload, None)]],
                        accumulated := st.accumulated + {(u, d)}),
         ledger := Acquire(s.ledger, StreamKey(d, u), job.graph.instances[d].resource))
  }

  /** The inner loop of `_run_accumulate_downstreams`. */
  function LaunchFrom(job: Job, s: State, ups: seq<NodeId>, d: NodeId): State {
    if ups == [] then s else Launch(job, LaunchFrom(job, s, ups[..|ups| - 1], d), ups[|ups| - 1], d)
  }

  /** Its outer loop. */
  function LaunchAll(job: Job, s: State, nodes: seq<NodeId>): State
    requires forall d :: d in nodes ==> d in job.graph.reverse
  {
    if nodes == [] then s
    else
      var d := nodes[|nodes| - 1];
      assert d in nodes && forall x :: x in nodes[..|nodes| - 1] ==> x in nodes;
      LaunchFrom(job, LaunchAll(job, s, nodes[..|nodes| - 1]), job.graph.reverse[d], d)
  }

  /** A scan does nothing once the run has been told to stop. */
  function ScanStep(job: Job, s: State): State
    requires WellFormed(job.graph)
  {
    if s.stopped then s.(streams := s.streams.(scanning := false))
    else
      var launched := LaunchAll(job, s, job.graph.nodes);
      launched.(streams := launched.streams.(scanning := false, unscanned := {}))
  }

  function FinishStream(job: Job, s: State, d: NodeId, i: nat): State
    requires d in s.streams.tasks && i < |s.streams.tasks[d]| && d in job.graph.reverse
  {
    var tasks := s.streams.tasks[d];
    var ups := job.graph.reverse[d];
    var out := job.exec(d, StreamItem, NodeInput(tasks[i].payload, ups, Facts(job, ups, d, s.core.outputs)));
    s.(streams := s.streams.(tasks := s.streams.tasks[d := tasks[i := tasks[i].(out := Some(out))]]),
       ledger := Release(s.ledger, StreamKey(d, tasks[i].upstream)))
  }

  function MergeNode(job: Job, s: State, d: NodeId): State
    requires d in s.streams.tasks && AllStreamsDone(s.streams.tasks[d]) && d in job.graph.edges
  {
    var merged := Merge(StreamMerge, d, StreamResults(s.streams.tasks[d]));
    var stored := StoreResult(job, s.(streams := s.streams.(tasks := s.streams.tasks - {d})), d, merged);
    stored.(core := stored.core.(started := stored.core.started + {d}))
  }

  ghost function Apply(job: Job, s: State, step: Step): State
    requires WellFormed(job.graph) && Enabled(job, s, step)
  {
    var c := s.core;
    match step
    case Dispatch(n) => DispatchNode(job, s, n)
    case Block(n) => BlockNode(job, s, n)
    case Execute(n) => s.(core := ExecuteNode(job, c, n))
    case Pop(n) => s.(core := Popped(c, n))
    case Store => StoreHead(job, s)
    case Scan => ScanStep(job, s)
    case StreamDone(n, i) => FinishStream(job, s, n, i)
    case MergeStreams(n) => MergeNode(job, s, n)
    case SetFree(free) => s.(ledger := s.ledger.(free := free))
    case Stop => s.(stopped := true)
  }

  /** The steps can be taken one after the other from `s`. */
  ghost predicate Legal(job: Job, s: State, steps: seq<Step>)
    requires WellFormed(job.graph)
    decreases |steps|
  {
    steps == [] || (Enabled(job, s, steps[0]) && Legal(job, Apply(job, s, steps[0]), steps[1..]))
  }

  ghost function After(job: Job, s: State, steps: seq<Step>): State
    requires WellFormed(job.graph) && Legal(job, s, steps)
    decreases |steps|
  {
    if steps == [] then s else After(job, Apply(job, s, steps[0]), steps[1..])
  }

  /** One more step at the front of a legal run. */
  lemma StepFirst(job: Job, s: State, step: Step, rest: seq<Step>)
    requires WellFormed(job.graph) && Enabled(job, s, step) && Legal(job, Apply(job, s, step), rest)
    ensures Legal(job, s, [step] + rest) && After(job, s, [step] + rest) == After(job, Apply(job, s, step), rest)
  {
    assert ([step] + rest)[1..] == rest;
  }

  lemma {:induction false} RunsCompose(job: Job, s: State, first: seq<Step>, second: seq<Step>)
    requires WellFormed(job.graph) && Legal(job, s, first) && Legal(job, After(job, s, first), second)
    ensures Legal(job, s, first + second) && After(job, s, first + second) == After(job, After(job, s, first), second)
    decreases |first|
  {
    if first == [] {
      assert first + second == second;
    } else {
      RunsCompose(job, Apply(job, s, first[0]), first[1..], second);
      assert (first + second)[1..] == first[1..] + second;
    }
  }

  // ----- When the main loop goes on -----

  /** `_has_startable` or `_has_blocked_startable`: a ready node, whether or not its permit is free. */
  predicate HasReady(job: Job, c: Core)
    requires WellFormed(job.graph)
  {
    exists n {:trigger Startable(job, c, n)} ::
        n in job.graph.instances && Startable(job, c, n) && !IsAccumulate(job.graph, n)
        && Ready(job, n, c.outputs, c.routed)
  }

  /** `_has_required_failure` */
  predicate HasRequiredFailure(job: Job, c: Core)
    requires WellFormed(job.graph)
  {
    exists n {:trigger Startable(job, c, n)} ::
        n in job.graph.instances && Startable(job, c, n) && !IsAccumulate(job.graph, n)
        && Blocked(job, n, c.outputs, c.routed)
  }

  /** `_pending_accumulate_tasks` is not empty. */
  predicate HasPendingStream(st: Streams) {
    exists d, t :: d in st.tasks && t in st.tasks[d] && t.out.None?
  }

  /** `_has_blocked_accumulate` */
  predicate HasBlockedAccumulate(job: Job, s: State)
    requires WellFormed(job.graph)
  {
    exists d, u {:trigger u in job.graph.reverse[d]} ::
      && d in job.graph.reverse && Startable(job, s.core, d) && u in job.graph.reverse[d] && IsAccumulate(job.graph, d)
      && u in s.core.outputs && (u, d) in s.core.routed && (u, d) !in s.streams.accumulated
      && !Available(s.ledger, job.graph.instances[d].resource)
  }

  /** `_can_continue` */
  predicate CanContinue(job: Job, s: State)
    requires WellFormed(job.graph)
  {
    || s.core.running != map[]
    || HasPendingStream(s.streams)
    || HasReady(job, s.core)
    || HasRequiredFailure(job, s.core)
    || HasBlockedAccumulate(job, s)
  }

  /** The loop has ended of its own accord: nothing is on its way and nothing is left to do. */
  ghost predicate Exited(job: Job, s: State)
    requires WellFormed(job.graph)
  {
    !s.streams.scanning && s.core.queue == [] && !CanContinue(job, s)
  }
}
