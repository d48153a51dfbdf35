/** Every reachable state of the scheduler is sound, whatever the graph and the schedule. */
module Safety {
  import opened Graphs
  import opened DagModels
  import opened Helpers
  import opened Jobs
  import opened Scheduler
  import opened Invariants
  import opened StreamItems

  ghost predicate Inv(job: Job, s: State)
    requires WellFormed(job.graph)
  {
    CoreInv(job, s.core) && StreamsOk(job, s.core, s.streams)
  }

  lemma PlacedPrefilled(job: Job, c: Core)
    requires Places(job, c)
    ensures PrefilledPlaced(job, c)
  {
  }

  // ----- The start -----

  lemma StreamsUnaffected(job: Job, c: Core, c': Core, st: Streams)
    requires WellFormed(job.graph) && StreamsOk(job, c, st) && c'.outputs == c.outputs && c'.routed == c.routed
    ensures StreamsOk(job, c', st)
  {
    forall d | d in st.tasks ensures ItemsOk(job, c', st, d) {
      assert ItemsOk(job, c, st, d);
      forall t | t in st.tasks[d] ensures ItemOk(job, c', st.accumulated, d, t) {
        assert ItemOk(job, c, st.accumulated, d, t);
      }
    }
    forall u, d | (u, d) in st.accumulated ensures AccumulatedOk(job, c', st, u, d) {
      assert AccumulatedOk(job, c, st, u, d);
    }
    forall u, d | Accumulates(job, c', d) && u in job.graph.reverse[d] && u in c'.outputs && (u, d) in c'.routed
        && u !in st.unscanned
      ensures (u, d) in st.accumulated
    {
      assert Accumulates(job, c, d);
    }
  }

  lemma SourceIsReady(job: Job, s: State, n: NodeId)
    requires WellFormed(job.graph) && n in job.graph.reverse && job.graph.reverse[n] == []
    ensures Ready(job, n, s.core.outputs, s.core.routed) && !IsMerged(job.graph, n)
  {
  }

  lemma {:induction false} StartUpKeeps(job: Job, s: State, nodes: seq<NodeId>)
    requires WellFormed(job.graph) && Inv(job, s)
    ensures Inv(job, StartUp(job, s, nodes))
  {
    if nodes != [] {
      var n := nodes[|nodes| - 1];
      var before := StartUp(job, s, nodes[..|nodes| - 1]);
      StartUpKeeps(job, s, nodes[..|nodes| - 1]);
      if Startable(job, before.core, n) && job.graph.reverse[n] == []
          && Available(before.ledger, PermitOf(job.graph, n)) {
        SourceIsReady(job, before, n);
        DispatchKeeps(job, before, n);
        StreamsUnaffected(job, before.core, DispatchNode(job, before, n).core, before.streams);
      }
    }
  }

  lemma StartIsSound(job: Job, free: map<string, nat>, stopped: bool)
    requires WellFormed(job.graph)
    ensures Inv(job, StartState(job, free, stopped))
  {
    PrefilledKeeps(job);
    StartUpKeeps(job, InitialState(job, free, stopped), job.graph.nodes);
  }

  // ----- The steps -----

  /** A node that has not been started has no stream items unless it is merged from them. */
  lemma NoItems(job: Job, s: State, n: NodeId)
    requires WellFormed(job.graph) && Inv(job, s) && n in job.graph.reverse && !IsMerged(job.graph, n)
    ensures s.streams.tasks - {n} == s.streams.tasks
  {
    assert n in s.streams.tasks ==> ItemsOk(job, s.core, s.streams, n);
  }

  lemma BlockSafe(job: Job, s: State, n: NodeId)
    requires WellFormed(job.graph) && Inv(job, s) && Enabled(job, s, Block(n))
    ensures Inv(job, BlockNode(job, s, n))
  {
    var c := s.core;
    BlockKeeps(job, s, n);
    NoItems(job, s, n);
    var out := UpstreamFailed(n, BlockingFailures(job, job.graph.reverse[n], n, c.outputs, c.routed), c.outputs);
    OutputKeeps(job, c, s.streams, n, out, s.streams.(unscanned := s.streams.unscanned + {n}));
    StreamsUnaffected(job, StoreCore(job, c, n, out), BlockNode(job, s, n).core, BlockNode(job, s, n).streams);
  }

  lemma StoreSafe(job: Job, s: State)
    requires WellFormed(job.graph) && Inv(job, s) && Enabled(job, s, Store)
    ensures Inv(job, StoreHead(job, s))
  {
    var head := s.core.queue[0];
    StoreHeadKeeps(job, s);
    UnqueueKeeps(job, s.core);
    NoItems(job, s, head.node);
    var st' := StoreHead(job, s).streams;
    OutputKeeps(job, s.core, s.streams, head.node, head.out, st'.(scanning := s.streams.scanning));
    StreamsUnaffected(job, StoreCore(job, s.core, head.node, head.out), StoreHead(job, s).core,
        st'.(scanning := s.streams.scanning));
    FlagUnread(job, StoreHead(job, s).core, st'.(scanning := s.streams.scanning), st');
  }

  lemma FlagUnread(job: Job, c: Core, st: Streams, st': Streams)
    requires WellFormed(job.graph) && StreamsOk(job, c, st) && st' == st.(scanning := st'.scanning)
    ensures StreamsOk(job, c, st')
  {
    SameTasks(job, c, st, st');
  }

  /** The node that a merge gives its output to has not been started. */
  lemma MergedNotStarted(job: Job, c: Core, d: NodeId)
    requires WellFormed(job.graph) && CoreInv(job, c) && d in job.graph.reverse && IsMerged(job.graph, d)
        && d !in c.outputs
    ensures d !in c.started
  {
    assert d in c.running ==> Flying(job, c.outputs, d);
    forall q | q in c.queue ensures q.node != d {
      assert Flying(job, c.outputs, q.node);
    }
  }

  lemma MergeSafe(job: Job, s: State, d: NodeId)
    requires WellFormed(job.graph) && Inv(job, s) && Enabled(job, s, MergeStreams(d))
    ensures Inv(job, MergeNode(job, s, d))
  {
    var c := s.core;
    var out := Merge(StreamMerge, d, StreamResults(s.streams.tasks[d]));
    assert ItemsOk(job, c, s.streams, d);
    MergedNotStarted(job, c, d);
    StoreKeeps(job, c, d, out);
    assert MergeNode(job, s, d).core == Stored(job, c, d, out);
    OutputKeeps(job, c, s.streams, d, out, MergeNode(job, s, d).streams);
    StreamsUnaffected(job, StoreCore(job, c, d, out), MergeNode(job, s, d).core, MergeNode(job, s, d).streams);
  }

  lemma StepSafe(job: Job, s: State, step: Step)
    requires WellFormed(job.graph) && Inv(job, s) && Enabled(job, s, step)
    ensures Inv(job, Apply(job, s, step))
  {
    match step
    case Dispatch(n) =>
      DispatchKeeps(job, s, n);
      StreamsUnaffected(job, s.core, DispatchNode(job, s, n).core, s.streams);
    case Block(n) => BlockSafe(job, s, n);
    case Execute(n) =>
      ExecuteKeeps(job, s.core, n);
      StreamsUnaffected(job, s.core, ExecuteNode(job, s.core, n), s.streams);
    case Pop(n) =>
      PopKeeps(job, s.core, n);
      StreamsUnaffected(job, s.core, Popped(s.core, n), s.streams);
    case Store => StoreSafe(job, s);
    case Scan =>
      PlacedPrefilled(job, s.core);
      ScanKeeps(job, s);
    case StreamDone(n, i) =>
      FinishKeeps(job, s.core, s.streams, n, i, FinishStream(job, s, n, i).streams.tasks[n][i].out.value);
    case MergeStreams(n) => MergeSafe(job, s, n);
    case SetFree(_) =>
    case Stop =>
  }

  lemma {:induction false} RunSafe(job: Job, s: State, steps: seq<Step>)
    requires WellFormed(job.graph) && Inv(job, s) && Legal(job, s, steps)
    ensures Inv(job, After(job, s, steps))
    decreases |steps|
  {
    if steps != [] {
      StepSafe(job, s, steps[0]);
      RunSafe(job, Apply(job, s, steps[0]), steps[1..]);
    }
  }

  // ----- What scans and steps leave alone -----

  lemma {:induction false} LaunchAllCore(job: Job, s: State, nodes: seq<NodeId>)
    requires forall d :: d in nodes ==> d in job.graph.reverse
    ensures LaunchAll(job, s, nodes).core == s.core && LaunchAll(job, s, nodes).stopped == s.stopped
  {
    if nodes != [] {
      var d := nodes[|nodes| - 1];
      assert d in nodes && forall x :: x in nodes[..|nodes| - 1] ==> x in nodes;
      LaunchAllCore(job, s, nodes[..|nodes| - 1]);
      LaunchFromCore(job, LaunchAll(job, s, nodes[..|nodes| - 1]), job.graph.reverse[d], d);
    }
  }

  lemma {:induction false} LaunchFromCore(job: Job, s: State, ups: seq<NodeId>, d: NodeId)
    ensures LaunchFrom(job, s, ups, d).core == s.core && LaunchFrom(job, s, ups, d).stopped == s.stopped
  {
    if ups != [] {
      LaunchFromCore(job, s, ups[..|ups| - 1], d);
    }
  }

  lemma ScanCore(job: Job, s: State)
    requires WellFormed(job.graph)
    ensures ScanStep(job, s).core == s.core && ScanStep(job, s).stopped == s.stopped
  {
    LaunchAllCore(job, s, job.graph.nodes);
  }

  lemma StartedGrows(job: Job, s: State, step: Step)
    requires WellFormed(job.graph) && Enabled(job, s, step)
    ensures s.core.started <= Apply(job, s, step).core.started
  {
    if step.Scan? {
      ScanCore(job, s);
    }
  }

  lemma {:induction false} RunStarted(job: Job, s: State, steps: seq<Step>)
    requires WellFormed(job.graph) && Legal(job, s, steps)
    ensures s.core.started <= After(job, s, steps).core.started
    decreases |steps|
  {
    if steps != [] {
      StartedGrows(job, s, steps[0]);
      RunStarted(job, Apply(job, s, steps[0]), steps[1..]);
    }
  }
}
