/** Accumulating nodes: a stream edge runs at most once, and exactly which results a merge leaves out. */
module StreamOnce {
  import opened Wrappers
  import opened Graphs
  import opened DagModels
  import opened Jobs
  import Reference
  import LocalView
  import opened Scheduler
  import opened Invariants
  import opened StreamItems
  import opened Safety
  import opened Confluence
  import opened Permits

  // ----- At most once -----

  /** The edge has been launched and none of its items is under way any more. */
  ghost predicate EdgeOver(st: Streams, u: NodeId, d: NodeId) {
    (u, d) in st.accumulated && !HasOpenItem(st, d, u)
  }

  lemma OverAfterLaunch(job: Job, s: State, v: NodeId, e: NodeId, u: NodeId, d: NodeId)
    requires EdgeOver(s.streams, u, d)
    ensures EdgeOver(Launch(job, s, v, e).streams, u, d)
  {
    if Launchable(job, s, v, e) {
      var t := StreamTask(v, s.core.outputs[v].payload, None);
      var before := if e in s.streams.tasks then s.streams.tasks[e] else [];
      assert forall x :: x in before + [t] <==> x in before || x == t;
    }
  }

  lemma {:induction false} OverAfterLaunchFrom(job: Job, s: State, ups: seq<NodeId>, e: NodeId, u: NodeId, d: NodeId)
    requires EdgeOver(s.streams, u, d)
    ensures EdgeOver(LaunchFrom(job, s, ups, e).streams, u, d)
  {
    if ups != [] {
      OverAfterLaunchFrom(job, s, ups[..|ups| - 1], e, u, d);
      OverAfterLaunch(job, LaunchFrom(job, s, ups[..|ups| - 1], e), ups[|ups| - 1], e, u, d);
    }
  }

  lemma {:induction false} OverAfterLaunchAll(job: Job, s: State, nodes: seq<NodeId>, u: NodeId, d: NodeId)
    requires EdgeOver(s.streams, u, d)
    requires forall e :: e in nodes ==> e in job.graph.reverse
    ensures EdgeOver(LaunchAll(job, s, nodes).streams, u, d)
  {
    if nodes != [] {
      var e := nodes[|nodes| - 1];
      assert e in nodes && forall x :: x in nodes[..|nodes| - 1] ==> x in nodes;
      OverAfterLaunchAll(job, s, nodes[..|nodes| - 1], u, d);
      OverAfterLaunchFrom(job, LaunchAll(job, s, nodes[..|nodes| - 1]), job.graph.reverse[e], e, u, d);
    }
  }

  lemma OverAfterFinish(job: Job, s: State, e: NodeId, i: nat, u: NodeId, d: NodeId)
    requires e in s.streams.tasks && i < |s.streams.tasks[e]| && e in job.graph.reverse && EdgeOver(s.streams, u, d)
    ensures EdgeOver(FinishStream(job, s, e, i).streams, u, d)
  {
    var before := s.streams.tasks[e];
    OpenAfterUpdate(before, FinishStream(job, s, e, i).streams.tasks[e], i, u);
  }

  lemma OpenAfterUpdate(before: seq<StreamTask>, after: seq<StreamTask>, i: nat, u: NodeId)
    requires |after| == |before| && i < |before| && after[i].out.Some? && after == before[i := after[i]]
    ensures OpenIn(after, u) ==> OpenIn(before, u)
  {
    if OpenIn(after, u) {
      var t :| t in after && t.upstream == u && t.out.None?;
      var j :| 0 <= j < |after| && after[j] == t;
      assert before[j] in before;
    }
  }

  lemma OverStays(job: Job, s: State, step: Step, u: NodeId, d: NodeId)
    requires WellFormed(job.graph) && Enabled(job, s, step) && EdgeOver(s.streams, u, d)
    ensures EdgeOver(Apply(job, s, step).streams, u, d)
  {
    match step
    case Scan =>
      if !s.stopped {
        OverAfterLaunchAll(job, s, job.graph.nodes, u, d);
      }
    case StreamDone(e, i) => OverAfterFinish(job, s, e, i, u, d);
    case _ =>
  }

  lemma FinishedIsOver(job: Job, s: State, d: NodeId, i: nat)
    requires WellFormed(job.graph) && Inv(job, s) && Enabled(job, s, StreamDone(d, i))
    ensures EdgeOver(FinishStream(job, s, d, i).streams, s.streams.tasks[d][i].upstream, d)
  {
    var tasks := s.streams.tasks[d];
    assert ItemsOk(job, s.core, s.streams, d);
    assert tasks[i] in tasks;
    OpenItemsAfter(tasks, FinishStream(job, s, d, i).streams.tasks[d], i, tasks[i].upstream);
  }

  /** The step executes the stream item of the edge. */
  ghost predicate Runs(s: State, step: Step, u: NodeId, d: NodeId) {
    step.StreamDone? && step.node == d && d in s.streams.tasks && step.index < |s.streams.tasks[d]|
        && s.streams.tasks[d][step.index].upstream == u
  }

  lemma OverIsNotRun(job: Job, s: State, step: Step, u: NodeId, d: NodeId)
    requires WellFormed(job.graph) && Enabled(job, s, step) && EdgeOver(s.streams, u, d)
    ensures !Runs(s, step, u, d)
  {
    assert forall i ::
        d in s.streams.tasks && 0 <= i < |s.streams.tasks[d]| ==> s.streams.tasks[d][i] in s.streams.tasks[d];
  }

  lemma {:induction false} OverNeverRuns(job: Job, s: State, steps: seq<Step>, u: NodeId, d: NodeId, j: nat)
    requires WellFormed(job.graph) && Legal(job, s, steps) && j < |steps| && EdgeOver(s.streams, u, d)
    ensures LegalPrefix(job, s, steps, j) && !Runs(After(job, s, steps[..j]), steps[j], u, d)
    decreases |steps|
  {
    if j == 0 {
      assert steps[..0] == [];
      OverIsNotRun(job, s, steps[0], u, d);
    } else {
      OverStays(job, s, steps[0], u, d);
      OverNeverRuns(job, Apply(job, s, steps[0]), steps[1..], u, d, j - 1);
      PrefixStep(steps, j);
    }
  }

  lemma PrefixStep(steps: seq<Step>, j: nat)
    requires 0 < j <= |steps|
    ensures steps[..j][1..] == steps[1..][..j - 1] && steps[..j][0] == steps[0]
  {
  }

  /** Prefixes of a legal run are legal. */
  ghost predicate LegalPrefix(job: Job, s: State, steps: seq<Step>, j: nat)
    requires WellFormed(job.graph) && j <= |steps|
  {
    Legal(job, s, steps[..j])
  }

  lemma {:induction false} PrefixLegal(job: Job, s: State, steps: seq<Step>, j: nat)
    requires WellFormed(job.graph) && Legal(job, s, steps) && j <= |steps|
    ensures LegalPrefix(job, s, steps, j)
    decreases |steps|
  {
    if j > 0 {
      PrefixLegal(job, Apply(job, s, steps[0]), steps[1..], j - 1);
      PrefixStep(steps, j);
    }
  }

  /** Once the first step has executed the item, no later step does. */
  lemma ExecutedOnce(job: Job, s: State, steps: seq<Step>, u: NodeId, d: NodeId, j: nat)
    requires WellFormed(job.graph) && Inv(job, s) && Legal(job, s, steps) && 0 < j < |steps| && Runs(s, steps[0], u, d)
    ensures Legal(job, Apply(job, s, steps[0]), steps[1..])
    ensures LegalPrefix(job, Apply(job, s, steps[0]), steps[1..], j - 1)
    ensures !Runs(After(job, Apply(job, s, steps[0]), steps[1..][..j - 1]), steps[j], u, d)
  {
    FinishedIsOver(job, s, d, steps[0].index);
    OverNeverRuns(job, Apply(job, s, steps[0]), steps[1..], u, d, j - 1);
  }

  /** The state before step `j` is reached through the state after the first step. */
  lemma AfterFirst(job: Job, s: State, steps: seq<Step>, j: nat)
    requires WellFormed(job.graph) && Legal(job, s, steps) && 0 < j <= |steps|
    ensures LegalPrefix(job, s, steps, j) && LegalPrefix(job, Apply(job, s, steps[0]), steps[1..], j - 1)
    ensures After(job, s, steps[..j]) == After(job, Apply(job, s, steps[0]), steps[1..][..j - 1])
  {
    PrefixLegal(job, s, steps, j);
    PrefixLegal(job, Apply(job, s, steps[0]), steps[1..], j - 1);
    PrefixStep(steps, j);
  }

  /** In any run, the stream item of an edge is executed at most once. */
  lemma {:induction false} StreamEdgeRunsOnce(job: Job, s: State, steps: seq<Step>, u: NodeId, d: NodeId, i: nat,
      j: nat)
    requires WellFormed(job.graph) && Inv(job, s) && Legal(job, s, steps) && i < j < |steps|
    requires LegalPrefix(job, s, steps, i) && Runs(After(job, s, steps[..i]), steps[i], u, d)
    ensures LegalPrefix(job, s, steps, j) && !Runs(After(job, s, steps[..j]), steps[j], u, d)
    decreases |steps|
  {
    AfterFirst(job, s, steps, j);
    if i == 0 {
      assert steps[..0] == [];
      ExecutedOnce(job, s, steps, u, d, j);
    } else {
      AfterFirst(job, s, steps, i);
      StepSafe(job, s, steps[0]);
      StreamEdgeRunsOnce(job, Apply(job, s, steps[0]), steps[1..], u, d, i - 1, j - 1);
    }
  }

  // ----- What a merge covers -----

  /** The merge has exactly one result of the upstream. */
  ghost predicate ContributesOnce(tasks: seq<StreamTask>, u: NodeId) {
    && (exists i :: 0 <= i < |tasks| && tasks[i].upstream == u)
    && (forall i, j ::
        0 <= i < |tasks| && 0 <= j < |tasks| && tasks[i].upstream == u && tasks[j].upstream == u ==> i == j)
  }

  /**
   When an accumulating node without a resource is merged, all its upstreams have outputs, and a routed
   upstream contributed exactly one result if a scan has seen its output, and none otherwise.
   */
  lemma MergeCoversScanned(job: Job, s: State, d: NodeId, u: NodeId)
    requires WellFormed(job.graph) && Inv(job, s) && Enabled(job, s, MergeStreams(d))
    requires job.graph.instances[d].resource.None?
    requires u in job.graph.reverse[d] && (u, d) in s.core.routed
    ensures u in s.core.outputs
    ensures if u in s.streams.unscanned then forall t :: t in s.streams.tasks[d] ==> t.upstream != u
            else ContributesOnce(s.streams.tasks[d], u)
  {
    var st := s.streams;
    var tasks := st.tasks[d];
    assert ItemsOk(job, s.core, st, d);
    assert Accumulates(job, s.core, d);
    if u in st.unscanned {
      forall t | t in tasks ensures t.upstream != u {
        assert ItemOk(job, s.core, st.accumulated, d, t);
        assert AccumulatedOk(job, s.core, st, t.upstream, d);
      }
    } else {
      assert (u, d) in st.accumulated && AccumulatedOk(job, s.core, st, u, d);
      var t :| t in tasks && t.upstream == u;
      var i :| 0 <= i < |tasks| && tasks[i] == t;
    }
  }

  /** Outside a scan, a successful output that no scan has seen is one that was merged from stream items. */
  ghost predicate UnscannedAreMerged(job: Job, s: State)
    requires WellFormed(job.graph)
  {
    !s.stopped && !s.streams.scanning && s.streams.accumulated != {} ==>
      forall u {:trigger u in s.streams.unscanned} ::
        u in s.streams.unscanned && u in s.core.outputs && u in job.graph.reverse && s.core.outputs[u].ok ==>
            IsMerged(job.graph, u)
  }

  lemma UnscannedStep(job: Job, s: State, step: Step)
    requires WellFormed(job.graph) && Inv(job, s) && UnscannedAreMerged(job, s) && Enabled(job, s, step)
    ensures UnscannedAreMerged(job, Apply(job, s, step))
  {
    match step
    case Scan => ScanCore(job, s);
    case MergeStreams(d) => UnscannedMerge(job, s, d);
    case _ =>
  }

  lemma UnscannedMerge(job: Job, s: State, d: NodeId)
    requires WellFormed(job.graph) && Inv(job, s) && UnscannedAreMerged(job, s) && Enabled(job, s, MergeStreams(d))
    ensures UnscannedAreMerged(job, MergeNode(job, s, d))
  {
    assert ItemsOk(job, s.core, s.streams, d);
  }

  lemma {:induction false} UnscannedRun(job: Job, s: State, steps: seq<Step>)
    requires WellFormed(job.graph) && Inv(job, s) && UnscannedAreMerged(job, s) && Legal(job, s, steps)
    ensures UnscannedAreMerged(job, After(job, s, steps))
    decreases |steps|
  {
    if steps != [] {
      UnscannedStep(job, s, steps[0]);
      StepSafe(job, s, steps[0]);
      UnscannedRun(job, Apply(job, s, steps[0]), steps[1..]);
    }
  }

  lemma {:induction false} StartUpStreams(job: Job, s: State, nodes: seq<NodeId>)
    ensures StartUp(job, s, nodes).streams == s.streams
  {
    if nodes != [] {
      StartUpStreams(job, s, nodes[..|nodes| - 1]);
    }
  }

  /**
   A merge has the result of a routed upstream exactly if the edge is among the accumulated ones, which it is
   exactly if the upstream was scanned.
   */
  lemma MergeHasAccumulated(job: Job, s: State, d: NodeId, u: NodeId)
    requires WellFormed(job.graph) && Inv(job, s) && Enabled(job, s, MergeStreams(d))
    requires job.graph.instances[d].resource.None?
    requires u in job.graph.reverse[d] && (u, d) in s.core.routed
    ensures ContributesOnce(s.streams.tasks[d], u) <==> (u, d) in s.streams.accumulated
    ensures (u, d) in s.streams.accumulated <==> u !in s.streams.unscanned
  {
    MergeCoversScanned(job, s, d, u);
    assert ItemsOk(job, s.core, s.streams, d);
    assert Accumulates(job, s.core, d);
    assert (u, d) in s.streams.accumulated ==> AccumulatedOk(job, s.core, s.streams, u, d);
  }

  /** Before a merge something has been accumulated. */
  lemma SomethingAccumulated(job: Job, s: State, d: NodeId)
    requires WellFormed(job.graph) && Inv(job, s) && Enabled(job, s, MergeStreams(d))
    ensures var t := s.streams.tasks[d][0];
      t.upstream in job.graph.reverse[d] && (t.upstream, d) in s.streams.accumulated && t.upstream in s.core.outputs
      && t.upstream !in s.streams.unscanned
  {
    assert ItemsOk(job, s.core, s.streams, d);
    var t := s.streams.tasks[d][0];
    assert t in s.streams.tasks[d] && ItemOk(job, s.core, s.streams.accumulated, d, t);
    assert AccumulatedOk(job, s.core, s.streams, t.upstream, d);
  }

  lemma ReachedState(job: Job, free: map<string, nat>, steps: seq<Step>)
    requires ValidJob(job) && Legal(job, StartState(job, free, false), steps)
    ensures var s := After(job, StartState(job, free, false), steps);
      Inv(job, s) && UnscannedAreMerged(job, s)
  {
    var start := StartState(job, free, false);
    StartIsSound(job, free, false);
    StartUpStreams(job, InitialState(job, free, false), job.graph.nodes);
    RunSafe(job, start, steps);
    UnscannedRun(job, start, steps);
  }

  /**
   In a run that is not stopped, a merge of an accumulating node without a resource misses a successful routed
   upstream exactly when their edge is not among the accumulated ones, and this happens only to an upstream that
   is itself an accumulating node, merged since the last scan.
   */
  lemma MergeMissesExactly(job: Job, free: map<string, nat>, steps: seq<Step>, d: NodeId, u: NodeId)
    requires ValidJob(job) && Legal(job, StartState(job, free, false), steps)
    requires var s := After(job, StartState(job, free, false), steps);
      !s.stopped && Enabled(job, s, MergeStreams(d))
      && u in job.graph.reverse[d] && u in s.core.outputs && s.core.outputs[u].ok && (u, d) in s.core.routed
    requires job.graph.instances[d].resource.None?
    ensures var s := After(job, StartState(job, free, false), steps);
      (ContributesOnce(s.streams.tasks[d], u) <==> (u, d) in s.streams.accumulated)
      && ((u, d) !in s.streams.accumulated ==> IsMerged(job.graph, u) && u in s.streams.unscanned)
  {
    var s := After(job, StartState(job, free, false), steps);
    ReachedState(job, free, steps);
    MergeHasAccumulated(job, s, d, u);
    SomethingAccumulated(job, s, d);
  }

  /** So where no upstream accumulates, every successful routed upstream contributes exactly once. */
  lemma PlainUpstreamsContributeOnce(job: Job, free: map<string, nat>, steps: seq<Step>, d: NodeId, u: NodeId)
    requires ValidJob(job) && Legal(job, StartState(job, free, false), steps)
    requires var s := After(job, StartState(job, free, false), steps);
      !s.stopped && Enabled(job, s, MergeStreams(d))
      && u in job.graph.reverse[d] && u in s.core.outputs && s.core.outputs[u].ok && (u, d) in s.core.routed
    requires job.graph.instances[d].resource.None? && !IsMerged(job.graph, u)
    ensures ContributesOnce(After(job, StartState(job, free, false), steps).streams.tasks[d], u)
  {
    MergeMissesExactly(job, free, steps, d, u);
  }

  // ----- Upstreams that cannot be missed -----

  /** Upstreams have outputs, and are scanned, before those below them. */
  ghost predicate UpstreamsFirst(job: Job, s: State)
    requires WellFormed(job.graph)
  {
    forall u, v {:trigger u in job.graph.reverse[v]} ::
      v in job.graph.reverse && u in job.graph.reverse[v] && v in s.core.outputs ==>
        u in s.core.outputs && (v !in s.streams.unscanned ==> u !in s.streams.unscanned)
  }

  lemma NewOutputIsLast(job: Job, s: State, s': State, n: NodeId)
    requires WellFormed(job.graph) && UpstreamsFirst(job, s) && n in job.graph.reverse && n !in s.core.outputs
    requires AllArrived(job.graph.reverse[n], s.core.outputs)
    requires s'.core.outputs.Keys == s.core.outputs.Keys + {n} && s'.streams.unscanned == s.streams.unscanned + {n}
    ensures UpstreamsFirst(job, s')
  {
    forall u, v | v in job.graph.reverse && u in job.graph.reverse[v] && v in s'.core.outputs
      ensures u in s'.core.outputs && (v !in s'.streams.unscanned ==> u !in s'.streams.unscanned)
    {
      assert v == n ==> u in job.graph.reverse[n];
    }
  }

  lemma HeadIsNext(job: Job, c: Core)
    requires WellFormed(job.graph) && CoreInv(job, c) && c.queue != []
    ensures c.queue[0].node in job.graph.reverse && c.queue[0].node !in c.outputs
    ensures AllArrived(job.graph.reverse[c.queue[0].node], c.outputs)
  {
    var n := c.queue[0].node;
    assert c.queue[0] in c.queue && n in Queued(c);
    assert Flying(job, c.outputs, n);
    forall u | u in job.graph.reverse[n] ensures u in c.outputs {
      Reference.RunsMeans(job, n, LocalView.Sees(job.graph, n, c.outputs), u);
    }
  }

  lemma BlockOrder(job: Job, s: State, n: NodeId)
    requires WellFormed(job.graph) && Inv(job, s) && UpstreamsFirst(job, s) && Enabled(job, s, Block(n))
    ensures UpstreamsFirst(job, BlockNode(job, s, n))
  {
    NewOutputIsLast(job, s, BlockNode(job, s, n), n);
  }

  lemma StoreOrder(job: Job, s: State)
    requires WellFormed(job.graph) && Inv(job, s) && UpstreamsFirst(job, s) && Enabled(job, s, Store)
    ensures UpstreamsFirst(job, StoreHead(job, s))
  {
    HeadIsNext(job, s.core);
    NewOutputIsLast(job, s, StoreHead(job, s), s.core.queue[0].node);
  }

  lemma MergeOrder(job: Job, s: State, d: NodeId)
    requires WellFormed(job.graph) && UpstreamsFirst(job, s) && Enabled(job, s, MergeStreams(d))
    ensures UpstreamsFirst(job, MergeNode(job, s, d))
  {
    NewOutputIsLast(job, s, MergeNode(job, s, d), d);
  }

  /** The step stores no output and is no scan. */
  lemma OtherOrder(job: Job, s: State, step: Step)
    requires WellFormed(job.graph) && UpstreamsFirst(job, s) && Enabled(job, s, step)
    requires !step.Block? && !step.Store? && !step.MergeStreams? && !step.Scan?
    ensures UpstreamsFirst(job, Apply(job, s, step))
  {
    var s' := Apply(job, s, step);
    assert s'.core.outputs == s.core.outputs && s'.streams.unscanned == s.streams.unscanned;
  }

  lemma ScanOrder(job: Job, s: State)
    requires WellFormed(job.graph) && UpstreamsFirst(job, s)
    ensures UpstreamsFirst(job, ScanStep(job, s))
  {
    ScanCore(job, s);
    assert ScanStep(job, s).streams.unscanned == if s.stopped then s.streams.unscanned else {};
  }

  lemma OrderStep(job: Job, s: State, step: Step)
    requires WellFormed(job.graph) && Inv(job, s) && UpstreamsFirst(job, s) && Enabled(job, s, step)
    ensures UpstreamsFirst(job, Apply(job, s, step))
  {
    match step
    case Block(n) => BlockOrder(job, s, n);
    case Store => StoreOrder(job, s);
    case MergeStreams(d) => MergeOrder(job, s, d);
    case Scan => ScanOrder(job, s);
    case _ => OtherOrder(job, s, step);
  }

  lemma {:induction false} OrderRun(job: Job, s: State, steps: seq<Step>)
    requires WellFormed(job.graph) && Inv(job, s) && UpstreamsFirst(job, s) && Legal(job, s, steps)
    ensures UpstreamsFirst(job, After(job, s, steps))
    decreases |steps|
  {
    if steps != [] {
      OrderStep(job, s, steps[0]);
      StepSafe(job, s, steps[0]);
      OrderRun(job, Apply(job, s, steps[0]), steps[1..]);
    }
  }

  lemma {:induction false} ScannedAlongWalk(job: Job, s: State, p: seq<NodeId>)
    requires WellFormed(job.graph) && UpstreamsFirst(job, s) && IsWalk(job.graph.edges, p) && p != []
    requires p[|p| - 1] in s.core.outputs && p[|p| - 1] !in s.streams.unscanned
    ensures p[0] in s.core.outputs && p[0] !in s.streams.unscanned
  {
    if |p| > 1 {
      var u, v := p[|p| - 2], p[|p| - 1];
      MirroredMembers(job.graph, u, v);
      ScannedAlongWalk(job, s, p[..|p| - 1]);
    }
  }

  lemma StartIsOrdered(job: Job, free: map<string, nat>)
    requires WellFormed(job.graph) && job.prefilled == map[]
    ensures UpstreamsFirst(job, StartState(job, free, false))
  {
    StartUpOutputs(job, InitialState(job, free, false), job.graph.nodes);
  }

  lemma {:induction false} StartUpOutputs(job: Job, s: State, nodes: seq<NodeId>)
    ensures StartUp(job, s, nodes).core.outputs == s.core.outputs
  {
    if nodes != [] {
      StartUpOutputs(job, s, nodes[..|nodes| - 1]);
    }
  }

  /** In a full run, a merge cannot miss a routed upstream from which all other upstreams of the node are reached. */
  lemma FirstUpstreamContributesOnce(job: Job, free: map<string, nat>, steps: seq<Step>, d: NodeId, u: NodeId)
    requires ValidJob(job) && job.prefilled == map[] && Legal(job, StartState(job, free, false), steps)
    requires var s := After(job, StartState(job, free, false), steps);
      Enabled(job, s, MergeStreams(d)) && u in job.graph.reverse[d] && (u, d) in s.core.routed
    requires job.graph.instances[d].resource.None?
    requires forall w {:trigger w in job.graph.reverse[d]} ::
        w in job.graph.reverse[d] && w != u ==> Reaches(job.graph.edges, u, w)
    ensures ContributesOnce(After(job, StartState(job, free, false), steps).streams.tasks[d], u)
  {
    var start := StartState(job, free, false);
    var s := After(job, start, steps);
    ReachedState(job, free, steps);
    StartIsSound(job, free, false);
    StartIsOrdered(job, free);
    OrderRun(job, start, steps);
    MergeHasAccumulated(job, s, d, u);
    SomethingAccumulated(job, s, d);
    var w := s.streams.tasks[d][0].upstream;
    if w != u {
      var p :| WalkBetween(job.graph.edges, p, u, w);
      ScannedAlongWalk(job, s, p);
    }
  }
}
