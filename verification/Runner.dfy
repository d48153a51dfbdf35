/** `DagRunner.run` and its helpers as imperative code over the runner's dictionaries, tied to the state machine. */
module Runner {
  import opened Wrappers
  import opened Graphs
  import opened DagModels
  import opened Helpers
  import opened Jobs
  import opened Layers
  import opened Reference
  import opened Scheduler
  import opened LocalView
  import opened Invariants
  import opened StreamItems
  import opened Safety
  import opened Admission
  import opened Confluence
  import opened Permits
  import opened Traces

  /**
   What the event loop delivers to one turn of the main loop: permits as other runs leave them,
   whether the run has been told to stop, and the tasks and stream items that have finished.
   */
  datatype Wake = Wake(free: map<string, nat>, stop: bool, tasks: seq<NodeId>, items: seq<(NodeId, nat)>)

  class DagRun {
    const job: Job
    var outputs: map<NodeId, NodeOutput>
    var payloads: map<NodeId, Value>
    var failures: map<NodeId, string>
    var routed: set<Edge>
    var started: set<NodeId>
    var running: map<NodeId, Task>
    var queue: seq<Done>
    var streamTasks: map<NodeId, seq<StreamTask>>
    var accumulated: set<Edge>
    var acquired: map<Key, string>
    var free: map<string, nat>
    var stopped: bool
    var scanning: bool
    var unscanned: set<NodeId>

    /** The fields as one state of the state machine. */
    function View(): State
      reads this
    {
      State(Core(outputs, payloads, failures, routed, started, running, queue),
            Streams(streamTasks, accumulated, scanning, unscanned),
            Ledger(acquired, free), stopped)
    }

    /** The dictionaries of a run with its prefilled outputs, before the start-up loop. */
    constructor (job: Job, free: map<string, nat>, stopped: bool)
      requires WellFormed(job.graph)
      ensures this.job == job && View() == InitialState(job, free, stopped)
    {
      this.job := job;
      outputs, payloads, failures, routed := map[], map[], map[], {};
      started, running, queue := {}, map[], [];
      streamTasks, accumulated, scanning, unscanned := map[], {}, false, {};
      acquired, this.free, this.stopped := map[], free, stopped;
      new;
      Prefill();
    }

    /** The loop over `prefilled_outputs`. */
    method Prefill()
      requires WellFormed(job.graph) && outputs == map[] && payloads == map[] && routed == {}
      modifies this`outputs, this`payloads, this`routed, this`started, this`unscanned
      ensures outputs == PrefilledCore(job).outputs && payloads == PrefilledCore(job).payloads
          && routed == PrefilledCore(job).routed
      ensures started == outputs.Keys && unscanned == outputs.Keys
    {
      var todo := job.prefilled.Keys;
      PrefilledNothing(job);
      while todo != {}
        invariant todo <= job.prefilled.Keys
        invariant outputs == PrefilledOutputs(job, job.prefilled.Keys - todo)
        invariant payloads == PrefilledPayloads(job, job.prefilled.Keys - todo)
        invariant routed == PrefilledRoutes(job, job.prefilled.Keys - todo)
      {
        var node :| node in todo;
        PrefilledOneMore(job, job.prefilled.Keys - todo, node);
        assert job.prefilled.Keys - (todo - {node}) == job.prefilled.Keys - todo + {node};
        if node in job.graph.instances {
          var output := job.prefilled[node];
          outputs := outputs[node := output];
          if output.ok && output.payload != Null {
            payloads := payloads[node := output.payload];
            routed := routed + RoutedEdges(job, node, output.payload);
          }
        }
        todo := todo - {node};
      }
      assert job.prefilled.Keys - {} == job.prefilled.Keys;
      PrefilledEverything(job);
      started := outputs.Keys;
      unscanned := outputs.Keys;
    }

    /** `_acquire_resource` */
    method AcquireResource(key: Key, permit: Option<string>) returns (ok: bool)
      modifies this`acquired, this`free
      ensures ok == Available(old(View()).ledger, permit)
      ensures View() == old(View()).(ledger := if ok then Acquire(old(View()).ledger, key, permit)
          else old(View()).ledger)
    {
      if permit.None? {
        return true;
      }
      var r := permit.value;
      var count := if r in free then free[r] else 0;
      if count <= 0 {
        return false;
      }
      free := free[r := count - 1];
      acquired := acquired[key := r];
      return true;
    }

    /** `_release_resource` */
    method ReleaseResource(key: Key)
      modifies this`acquired, this`free
      ensures View() == old(View()).(ledger := Release(old(View()).ledger, key))
    {
      if key in acquired {
        var r := acquired[key];
        acquired := acquired - {key};
        free := free[r := (if r in free then free[r] else 0) + 1];
      }
    }

    /** `_release_all`, on the exception paths: the ledger ends empty and every permit is given back once. */
    method ReleaseEverything()
      modifies this`acquired, this`free
      ensures acquired == map[]
      ensures forall r :: Free(View().ledger, r) == Balance(old(View()).ledger, r)
    {
      var todo := acquired.Keys;
      while todo != {}
        invariant todo == acquired.Keys
        invariant forall r :: Balance(View().ledger, r) == Balance(old(View()).ledger, r)
      {
        var key :| key in todo;
        forall r ensures Balance(Release(View().ledger, key), r) == Balance(View().ledger, r) {
          ReleaseBalanced(View().ledger, key, r);
        }
        ReleaseResource(key);
        todo := todo - {key};
      }
      forall r ensures HeldOn(View().ledger, r) == {} {
      }
    }

    /** `_store_result`, after the release of the permit. */
    method RecordOutput(node: NodeId, output: NodeOutput)
      requires node in job.graph.edges
      modifies this`outputs, this`payloads, this`failures, this`routed, this`unscanned
      ensures View().core == StoreCore(job, old(View()).core, node, output)
      ensures unscanned == old(unscanned) + {node}
    {
      outputs := outputs[node := output];
      unscanned := unscanned + {node};
      if output.ok {
        payloads := payloads[node := output.payload];
        routed := routed + RoutedEdges(job, node, output.payload);
        return;
      }
      failures := failures[node := ErrorText(output)];
      routed := routed + OptionalEdges(job, node);
    }

    /** `_store_result` */
    method StoreOutput(node: NodeId, output: NodeOutput)
      requires node in job.graph.edges
      modifies this
      ensures View() == StoreResult(job, old(View()), node, output)
    {
      ReleaseResource(NodeKey(node));
      RecordOutput(node, output);
    }

    /** Dispatching a node: its permit, `_start_node`, and its entry in `started`. */
    method TryStart(node: NodeId)
      requires WellFormed(job.graph) && Startable(job, View().core, node)
      modifies this
      ensures View() == if Available(old(View()).ledger, PermitOf(job.graph, node)) then DispatchNode(job, old(View()),
          node) else old(View())
    {
      var instance := job.graph.instances[node];
      if !instance.hasLoop {
        var ok := AcquireResource(NodeKey(node), instance.resource);
        if !ok {
          return;
        }
      }
      running := running[node := Created(FanOutPayloads(job, job.graph.reverse[node], node, outputs, routed))];
      started := started + {node};
    }

    /** The start-up loop of `run`. */
    method StartSources()
      requires WellFormed(job.graph)
      modifies this
      ensures View() == StartUp(job, old(View()), job.graph.nodes)
    {
      var nodes := job.graph.nodes;
      for i := 0 to |nodes|
        invariant View() == StartUp(job, old(View()), nodes[..i])
      {
        var node := nodes[i];
        assert nodes[..i + 1][..i] == nodes[..i];
        if Startable(job, View().core, node) && job.graph.reverse[node] == [] {
          TryStart(node);
        }
      }
      assert nodes[..|nodes|] == nodes;
    }

    /** One turn of the loop of `_start_ready_nodes`. */
    method StartOrBlockNode(node: NodeId)
      requires WellFormed(job.graph)
      modifies this
      ensures View() == StartOrBlock(job, old(View()), node)
    {
      ghost var s := View();
      if node !in job.graph.instances || node !in job.graph.reverse || node !in job.graph.edges
         || node in started || node !in Allowed(job) || node in running {
        return;
      }
      if IsAccumulate(job.graph, node) {
        return;
      }
      if Ready(job, node, outputs, routed) {
        TryStart(node);
      } else if Blocked(job, node, outputs, routed) {
        var blocking := BlockingFailures(job, job.graph.reverse[node], node, outputs, routed);
        StoreOutput(node, UpstreamFailed(node, blocking, outputs));
        started := started + {node};
      }
    }

    /** `_start_ready_nodes` */
    method StartReadyNodes()
      requires WellFormed(job.graph)
      modifies this
      ensures View() == StartReady(job, old(View()))
    {
      if stopped {
        return;
      }
      var nodes := job.graph.nodes;
      for i := 0 to |nodes|
        invariant View() == StartPass(job, old(View()), nodes[..i])
      {
        assert nodes[..i + 1][..i] == nodes[..i];
        StartOrBlockNode(nodes[i]);
      }
      assert nodes[..|nodes|] == nodes;
    }

    /** The next completed node leaves the queue and is stored. */
    method StoreNext() returns (ok: bool)
      requires WellFormed(job.graph) && queue != [] && queue[0].node in job.graph.edges
      modifies this
      ensures View() == StoreHead(job, old(View())) && ok == View().streams.scanning
    {
      var done := queue[0];
      queue := queue[1..];
      StoreOutput(done.node, done.out);
      scanning := done.out.ok;
      return scanning;
    }

    /** Launching the stream item of one edge, unless it has been launched or its permit is taken. */
    method LaunchEdge(u: NodeId, node: NodeId)
      requires node in job.graph.instances && node in job.graph.reverse && Accumulating(job, outputs, node)
      modifies this`streamTasks, this`accumulated, this`acquired, this`free
      ensures View() == Launch(job, old(View()), u, node)
    {
      if u !in outputs || (u, node) !in routed || (u, node) in accumulated {
        return;
      }
      var ok := AcquireResource(StreamKey(node, u), job.graph.instances[node].resource);
      if !ok {
        return;
      }
      accumulated := accumulated + {(u, node)};
      var earlier := if node in streamTasks then streamTasks[node] else [];
      streamTasks := streamTasks[node := earlier + [StreamTask(u, outputs[u].payload, None)]];
    }

    /** The inner loop of `_run_accumulate_downstreams`. */
    method LaunchFor(node: NodeId)
      requires WellFormed(job.graph) && node in job.graph.reverse
      modifies this`streamTasks, this`accumulated, this`acquired, this`free
      ensures View() == LaunchFrom(job, old(View()), job.graph.reverse[node], node)
    {
      ghost var s := View();
      var ups := job.graph.reverse[node];
      if !Accumulating(job, outputs, node) {
        LaunchUnfit(job, s, ups, node);
        return;
      }
      for i := 0 to |ups|
        invariant View() == LaunchFrom(job, s, ups[..i], node)
      {
        assert ups[..i + 1][..i] == ups[..i];
        LaunchEdge(ups[i], node);
      }
      assert ups[..|ups|] == ups;
    }

    /** The launching part of `_run_accumulate_downstreams`. */
    method LaunchStreams()
      requires WellFormed(job.graph)
      modifies this
      ensures View() == ScanStep(job, old(View()))
    {
      var nodes := job.graph.nodes;
      if !stopped {
        for i := 0 to |nodes|
          invariant View() == LaunchAll(job, old(View()), nodes[..i])
        {
          assert nodes[..i + 1][..i] == nodes[..i];
          LaunchFor(nodes[i]);
        }
        assert nodes[..|nodes|] == nodes;
        unscanned := {};
      }
      scanning := false;
    }

    /** The loop body of `_complete_accumulate_tasks`. */
    method CompleteStreams(node: NodeId) returns (completed: bool)
      requires WellFormed(job.graph) && node in job.graph.edges && node in streamTasks
      modifies this
      ensures View() == CompleteOne(job, old(View()), node) && completed == Completable(job, old(View()), node)
    {
      if node in outputs {
        streamTasks := streamTasks - {node};
        return false;
      }
      if !AllArrived(job.graph.reverse[node], outputs) {
        return false;
      }
      var tasks := streamTasks[node];
      if !AllStreamsDone(tasks) {
        return false;
      }
      streamTasks := streamTasks - {node};
      StoreOutput(node, Merge(StreamMerge, node, StreamResults(tasks)));
      started := started + {node};
      return true;
    }

    /** `_complete_accumulate_tasks` */
    method CompleteAccumulateTasks(ghost s: State) returns (completed: bool)
      requires WellFormed(job.graph) && OnTrack(job, s, View()) && !scanning
      modifies this
      ensures OnTrack(job, s, View()) && Steady(old(View()), View())
      ensures !completed ==> View() == old(View()) && forall d {:trigger d in streamTasks} ::
          d in streamTasks ==> !Completable(job, View(), d)
    {
      completed := false;
      var todo := streamTasks.Keys;
      while todo != {}
        invariant OnTrack(job, s, View()) && Steady(old(View()), View())
        invariant todo <= streamTasks.Keys
        invariant !completed ==> View() == old(View()) && forall d {:trigger d in streamTasks} ::
            d in streamTasks && d !in todo ==> !Completable(job, View(), d)
      {
        var node :| node in todo;
        CompleteOneLeads(job, s, View(), node);
        var one := CompleteStreams(node);
        completed := completed || one;
        todo := todo - {node};
      }
    }

    /** A task reads its inputs and finishes. */
    method FinishTask(node: NodeId)
      requires WellFormed(job.graph) && Enabled(job, View(), Execute(node))
      modifies this`running
      ensures View() == Apply(job, old(View()), Execute(node))
    {
      var result := TaskResult(job, node, running[node].fan, InputPayload(job, node, outputs, payloads, routed),
          Facts(job, job.graph.reverse[node], node, outputs));
      running := running[node := Finished(result)];
    }

    /** `_run_stream_node_releasing`: a stream item finishes and gives its permit back. */
    method FinishStreamItem(node: NodeId, index: nat)
      requires WellFormed(job.graph) && Enabled(job, View(), StreamDone(node, index))
      modifies this`streamTasks, this`acquired, this`free
      ensures View() == Apply(job, old(View()), StreamDone(node, index))
    {
      var tasks, ups := streamTasks[node], job.graph.reverse[node];
      var out := job.exec(node, StreamItem, NodeInput(tasks[index].payload, ups, Facts(job, ups, node, outputs)));
      streamTasks := streamTasks[node := tasks[index := tasks[index].(out := Some(out))]];
      ReleaseResource(StreamKey(node, tasks[index].upstream));
    }

    /** One finished stream item is delivered. */
    method DeliverItem(ghost s: State, node: NodeId, index: nat)
      requires WellFormed(job.graph) && OnTrack(job, s, View())
      modifies this`streamTasks, this`acquired, this`free
      ensures OnTrack(job, s, View())
    {
      if node in streamTasks && index < |streamTasks[node]| && streamTasks[node][index].out.None? {
        ItemCanFinish(job, s, View(), node, index);
        Onward(job, s, View(), StreamDone(node, index));
        FinishStreamItem(node, index);
      }
    }

    /** One finished task is delivered. */
    method DeliverTask(ghost s: State, node: NodeId)
      requires WellFormed(job.graph) && OnTrack(job, s, View())
      modifies this`running
      ensures OnTrack(job, s, View())
    {
      if node in running && running[node].Created? {
        TaskCanRun(job, s, View(), node);
        Onward(job, s, View(), Execute(node));
        FinishTask(node);
      }
    }

    /** What happens while the main loop waits. */
    method Await(ghost s: State, wake: Wake)
      requires WellFormed(job.graph) && OnTrack(job, s, View())
      modifies this`free, this`stopped, this`running, this`streamTasks, this`acquired
      ensures OnTrack(job, s, View())
    {
      Onward(job, s, View(), SetFree(wake.free));
      free := wake.free;
      if wake.stop {
        Onward(job, s, View(), Stop);
        stopped := true;
      }
      for i := 0 to |wake.items|
        invariant OnTrack(job, s, View())
      {
        DeliverItem(s, wake.items[i].0, wake.items[i].1);
      }
      for i := 0 to |wake.tasks|
        invariant OnTrack(job, s, View())
      {
        DeliverTask(s, wake.tasks[i]);
      }
    }

    /** The finished tasks leave `running` and are queued. */
    method TakeOver(ghost s: State, done: seq<NodeId>)
      requires WellFormed(job.graph) && OnTrack(job, s, View())
      modifies this`running, this`queue
      ensures OnTrack(job, s, View())
    {
      for i := 0 to |done|
        invariant OnTrack(job, s, View())
      {
        TakeOverOne(s, done[i]);
      }
    }

    method TakeOverOne(ghost s: State, node: NodeId)
      requires WellFormed(job.graph) && OnTrack(job, s, View())
      modifies this`running, this`queue
      ensures OnTrack(job, s, View())
    {
      if node in running && running[node].Finished? {
        Onward(job, s, View(), Pop(node));
        queue := queue + [Done(node, running[node].out)];
        running := running - {node};
      }
    }

    /** `_start_ready_nodes`, in a run that began in `s`. */
    method StartMore(ghost s: State)
      requires WellFormed(job.graph) && OnTrack(job, s, View()) && !scanning
      modifies this
      ensures OnTrack(job, s, View()) && Steady(old(View()), View())
    {
      ghost var before := View();
      StartReadyLeads(job, before);
      StartReadySteady(job, before, job.graph.nodes);
      StartReadyNodes();
      LeadsOn(job, s, before, View());
    }

    /** `_run_accumulate_downstreams`, in a run that began in `s`. */
    method RunAccumulateDownstreams(ghost s: State)
      requires WellFormed(job.graph) && OnTrack(job, s, View()) && scanning
      modifies this
      ensures OnTrack(job, s, View()) && queue == old(queue) && !scanning
    {
      Onward(job, s, View(), Scan);
      ScanCore(job, View());
      LaunchStreams();
      if !stopped {
        var _ := CompleteAccumulateTasks(s);
      }
    }

    /** The completed nodes are stored one by one, each followed by what it makes possible. */
    method DrainQueue(ghost s: State) returns (launched: bool)
      requires WellFormed(job.graph) && OnTrack(job, s, View()) && !scanning
      modifies this
      ensures OnTrack(job, s, View()) && !scanning && queue == []
    {
      launched := false;
      while queue != []
        invariant OnTrack(job, s, View()) && !scanning
        decreases |queue|
      {
        HeadIsNode(job, s, View());
        Onward(job, s, View(), Store);
        var ok := StoreNext();
        if ok {
          RunAccumulateDownstreams(s);
          launched := true;
        }
        StartMore(s);
      }
    }

    /** The rest of a turn of the main loop, once it has waited for finished tasks. */
    method HandleCompleted(ghost s: State, done: seq<NodeId>)
      requires WellFormed(job.graph) && OnTrack(job, s, View()) && !scanning
      modifies this
      ensures OnTrack(job, s, View()) && !scanning && queue == []
    {
      TakeOver(s, done);
      var completed := CompleteAccumulateTasks(s);
      var launched := DrainQueue(s);
      if completed || launched {
        StartMore(s);
      }
    }

    /** Waiting for what is delivered, unless nothing is under way but the permits of others, and handling it. */
    method Turn(ghost s: State, wake: Wake)
      requires WellFormed(job.graph) && OnTrack(job, s, View()) && !scanning && queue == []
      modifies this
      ensures OnTrack(job, s, View()) && !scanning && queue == []
    {
      var idle := running == map[] && !HasPendingStream(View().streams);
      Await(s, wake);
      if !idle {
        HandleCompleted(s, wake.tasks);
      }
    }

    /**
     `run`: refuses a graph with a cycle; otherwise the start-up loop and the main loop, driven by what the
     event loop delivers. The run has ended unless the deliveries stop short of it. When it has ended without
     being told to stop, nothing is left to do, no permit is held, and on a barrier-only graph outputs and
     result are the reference's exactly if the start-up loop admitted the accumulating sources.
     */
    method Run(deliveries: seq<Wake>) returns (cyclic: bool, ended: bool, result: Option<RunResult>)
      requires WellFormed(job.graph) && View() == InitialState(job, free, stopped)
      modifies this
      ensures cyclic <==> !ValidJob(job)
      ensures cyclic ==> !ended && View() == old(View())
      ensures !cyclic ==> OnTrack(job, StartState(job, old(free), old(stopped)), View())
      ensures ended ==>
          running == map[] && queue == [] && result == FinishRun(job, outputs, failures, payloads, stopped)
      ensures ended && !stopped ==> Exited(job, View()) && acquired == map[]
      ensures ended && !stopped && BarrierOnly(job) ==>
          (outputs == Outcome(job) <==> AllAdmitted(job, old(free), job.graph.reverse.Keys))
      ensures ended && !stopped && BarrierOnly(job) ==>
          (result == ReferenceResult(job) <==> AllAdmitted(job, old(free), job.graph.reverse.Keys))
    {
      cyclic, ended, result := false, false, None;
      var layers := TopologicalLayers(job.graph);
      if layers.None? {
        cyclic := true;
        return;
      }
      ghost var s := StartState(job, free, stopped);
      StartIsOnTrack(job, free, stopped);
      StartSources();
      var i := 0;
      while CanContinue(job, View())
        invariant i <= |deliveries|
        invariant OnTrack(job, s, View()) && !scanning && queue == []
        decreases |deliveries| - i
      {
        if stopped && running == map[] {
          break;
        }
        if running == map[] {
          StartMore(s);
        }
        if i == |deliveries| {
          return;
        }
        Turn(s, deliveries[i]);
        i := i + 1;
      }
      ended := true;
      result := FinishRun(job, outputs, failures, payloads, stopped);
      if !stopped {
        RunHasEnded(job, old(free), old(stopped), View());
      }
    }
  }

  // ----- Filling in outputs, one at a time -----

  ghost function PrefilledOutputs(job: Job, done: set<NodeId>): map<NodeId, NodeOutput> {
    map n | n in done && n in job.prefilled && n in job.graph.instances :: job.prefilled[n]
  }

  ghost predicate Useful(job: Job, n: NodeId) {
    n in job.prefilled && n in job.graph.instances && job.prefilled[n].ok && job.prefilled[n].payload != Null
  }

  ghost function PrefilledPayloads(job: Job, done: set<NodeId>): map<NodeId, Value> {
    map n | n in done && Useful(job, n) :: job.prefilled[n].payload
  }

  ghost function PrefilledRoutes(job: Job, done: set<NodeId>): set<Edge> {
    set n, v | n in done && Useful(job, n) && n in job.graph.edges && v in job.graph.edges[n]
        && Passes(job, n, v, job.prefilled[n].payload) :: (n, v)
  }

  lemma PrefilledNothing(job: Job)
    ensures PrefilledOutputs(job, job.prefilled.Keys - job.prefilled.Keys) == map[]
    ensures PrefilledPayloads(job, job.prefilled.Keys - job.prefilled.Keys) == map[]
    ensures PrefilledRoutes(job, job.prefilled.Keys - job.prefilled.Keys) == {}
  {
  }

  lemma PrefilledOneMore(job: Job, done: set<NodeId>, n: NodeId)
    requires WellFormed(job.graph) && n in job.prefilled
    ensures PrefilledOutputs(job, done + {n})
        == if n in job.graph.instances then PrefilledOutputs(job, done)[n := job.prefilled[n]]
        else PrefilledOutputs(job, done)
    ensures PrefilledPayloads(job, done + {n})
        == if Useful(job, n) then PrefilledPayloads(job, done)[n := job.prefilled[n].payload]
        else PrefilledPayloads(job, done)
    ensures PrefilledRoutes(job, done + {n}) ==
              if Useful(job, n) then PrefilledRoutes(job, done) + RoutedEdges(job, n, job.prefilled[n].payload)
                  else PrefilledRoutes(job, done)
  {
    PrefilledOneRoute(job, done, n);
  }

  lemma PrefilledOneRoute(job: Job, done: set<NodeId>, n: NodeId)
    requires WellFormed(job.graph) && n in job.prefilled
    ensures PrefilledRoutes(job, done + {n}) ==
              if Useful(job, n) then PrefilledRoutes(job, done) + RoutedEdges(job, n, job.prefilled[n].payload)
                  else PrefilledRoutes(job, done)
  {
  }

  lemma PrefilledEverything(job: Job)
    requires WellFormed(job.graph)
    ensures var c := PrefilledCore(job);
      && c.outputs == PrefilledOutputs(job, job.prefilled.Keys)
      && c.payloads == PrefilledPayloads(job, job.prefilled.Keys)
      && c.routed == PrefilledRoutes(job, job.prefilled.Keys)
  {
  }

  // ----- Stream items -----

  /** The tests on the downstream node in `_run_accumulate_downstreams`. */
  predicate Accumulating(job: Job, outputs: map<NodeId, NodeOutput>, d: NodeId)
    requires d in job.graph.instances && d in job.graph.reverse
  {
    d !in outputs && d in Allowed(job) && IsAccumulate(job.graph, d)
  }

  lemma {:induction false} LaunchUnfit(job: Job, s: State, ups: seq<NodeId>, d: NodeId)
    requires WellFormed(job.graph) && d in job.graph.reverse && !Accumulating(job, s.core.outputs, d)
    ensures LaunchFrom(job, s, ups, d) == s
  {
    if ups != [] {
      LaunchUnfit(job, s, ups[..|ups| - 1], d);
    }
  }

  lemma ItemCanFinish(job: Job, s: State, t: State, d: NodeId, i: nat)
    requires WellFormed(job.graph) && OnTrack(job, s, t)
    requires d in t.streams.tasks && i < |t.streams.tasks[d]| && t.streams.tasks[d][i].out.None?
    ensures Enabled(job, t, StreamDone(d, i))
  {
    TrackIsSound(job, s, t);
    assert ItemsOk(job, t.core, t.streams, d);
  }

  // ----- The main loop -----

  lemma TaskCanRun(job: Job, s: State, t: State, n: NodeId)
    requires WellFormed(job.graph) && OnTrack(job, s, t) && n in t.core.running && t.core.running[n].Created?
    ensures Enabled(job, t, Execute(n))
  {
    TrackIsSound(job, s, t);
    assert Flying(job, t.core.outputs, n);
    ValuesAreFeeds(job, t.core, n, job.graph.reverse[n]);
  }

  lemma HeadIsNode(job: Job, s: State, t: State)
    requires WellFormed(job.graph) && OnTrack(job, s, t) && t.core.queue != [] && !t.streams.scanning
    ensures Enabled(job, t, Store)
  {
    TrackIsSound(job, s, t);
    UnqueueMembers(t.core);
  }

  lemma {:induction false} StartUpSteady(job: Job, s: State, nodes: seq<NodeId>)
    ensures Steady(s, StartUp(job, s, nodes))
  {
    if nodes != [] {
      StartUpSteady(job, s, nodes[..|nodes| - 1]);
    }
  }

  lemma StartIsOnTrack(job: Job, free: map<string, nat>, stopped: bool)
    requires WellFormed(job.graph)
    ensures var s := StartState(job, free, stopped);
      OnTrack(job, s, s) && !s.streams.scanning && s.core.queue == []
  {
    StartUpSteady(job, InitialState(job, free, stopped), job.graph.nodes);
    StartIsSound(job, free, stopped);
    LeadsNowhere(job, StartState(job, free, stopped));
  }

  lemma RunHasEnded(job: Job, free: map<string, nat>, stopped: bool, end: State)
    requires ValidJob(job) && OnTrack(job, StartState(job, free, stopped), end) && Exited(job, end) && !end.stopped
    ensures end.ledger.acquired == map[]
    ensures BarrierOnly(job) ==>
              && (end.core.outputs == Outcome(job) <==> AllAdmitted(job, free, job.graph.reverse.Keys))
              && (FinishRun(job, end.core.outputs, end.core.failures, end.core.payloads, false) == ReferenceResult(job)
                  <==> AllAdmitted(job, free, job.graph.reverse.Keys))
  {
    var steps := EndedUnstopped(job, StartState(job, free, stopped), end);
    RunReturnsPermits(job, free, stopped, steps);
    if BarrierOnly(job) {
      OutputsConfluent(job, free, stopped, steps);
      StartUpStopped(job, InitialState(job, free, stopped), job.graph.nodes);
      RunsReturnReferenceResult(job, free, steps);
    }
  }

  lemma {:induction false} StartUpStopped(job: Job, s: State, nodes: seq<NodeId>)
    ensures StartUp(job, s, nodes).stopped == s.stopped
  {
    if nodes != [] {
      StartUpStopped(job, s, nodes[..|nodes| - 1]);
    }
  }
}
