/**
 Runs end: the work is bounded, a run can always be brought to its end, and what is skipped is skipped for a
 reason.
 */
module Progress {
  import opened Wrappers
  import opened Graphs
  import opened DagModels
  import opened Jobs
  import opened Reference
  import opened Scheduler
  import opened LocalView
  import opened Invariants
  import opened StreamItems
  import opened Safety
  import opened Admission
  import opened Confluence

  // ----- The measure -----

  ghost function Unstarted(job: Job, c: Core): set<NodeId> {
    job.graph.edges.Keys - c.started
  }

  ghost function CreatedTasks(c: Core): set<NodeId> {
    set n | n in c.running && c.running[n].Created?
  }

  ghost function FinishedTasks(c: Core): set<NodeId> {
    set n | n in c.running && c.running[n].Finished?
  }

  ghost function CoreWork(job: Job, c: Core): nat {
    5 * |Unstarted(job, c)| + 4 * |CreatedTasks(c)| + 3 * |FinishedTasks(c)| + 2 * |c.queue|
  }

  /** What is left to do: every node counts until its output has been stored and scanned. */
  ghost function Work(job: Job, s: State): nat {
    CoreWork(job, s.core) + if s.streams.scanning then 1 else 0
  }

  /** A step of the run itself, not of its surroundings. */
  predicate IsWork(step: Step) {
    !step.SetFree? && !step.Stop?
  }

  lemma NoItemsOnBarriers(job: Job, s: State)
    requires WellFormed(job.graph) && Inv(job, s) && BarrierOnly(job)
    ensures s.streams.tasks == map[]
  {
    forall d ensures d !in s.streams.tasks {
      assert d in s.streams.tasks ==> ItemsOk(job, s.core, s.streams, d);
      assert d in job.graph.reverse ==> BarrierNode(job, d);
    }
  }

  lemma StartOne(job: Job, c: Core, n: NodeId, started: set<NodeId>)
    requires n in job.graph.edges && n !in c.started && started == c.started + {n}
    ensures |job.graph.edges.Keys - started| == |Unstarted(job, c)| - 1
  {
    assert Unstarted(job, c) == (job.graph.edges.Keys - started) + {n};
  }

  lemma DispatchWork(job: Job, s: State, n: NodeId)
    requires WellFormed(job.graph) && Startable(job, s.core, n) && Available(s.ledger, PermitOf(job.graph, n))
    ensures Work(job, DispatchNode(job, s, n)) < Work(job, s)
  {
    var c, c' := s.core, DispatchNode(job, s, n).core;
    StartOne(job, c, n, c'.started);
    CreateOne(c, c', n);
  }

  lemma CreateOne(c: Core, c': Core, n: NodeId)
    requires n !in c.running && exists fan :: c'.running == c.running[n := Created(fan)]
    ensures |CreatedTasks(c')| == |CreatedTasks(c)| + 1 && FinishedTasks(c') == FinishedTasks(c)
  {
    assert CreatedTasks(c') == CreatedTasks(c) + {n};
  }

  lemma BlockWork(job: Job, s: State, n: NodeId)
    requires WellFormed(job.graph) && Startable(job, s.core, n)
    ensures Work(job, BlockNode(job, s, n)) < Work(job, s)
  {
    var c, c' := s.core, BlockNode(job, s, n).core;
    StartOne(job, c, n, c'.started);
    assert CreatedTasks(c') == CreatedTasks(c) && FinishedTasks(c') == FinishedTasks(c);
  }

  lemma ExecuteWork(job: Job, c: Core, n: NodeId)
    requires n in c.running && c.running[n].Created? && n in job.graph.instances && n in job.graph.reverse
    requires LookupsSucceed(job.graph.reverse[n], n, c.outputs, c.payloads, c.routed)
    ensures CoreWork(job, ExecuteNode(job, c, n)) < CoreWork(job, c)
  {
    var c' := ExecuteNode(job, c, n);
    assert CreatedTasks(c) == CreatedTasks(c') + {n};
    assert FinishedTasks(c') == FinishedTasks(c) + {n};
  }

  lemma PopWork(job: Job, c: Core, n: NodeId)
    requires n in c.running && c.running[n].Finished?
    ensures CoreWork(job, Popped(c, n)) < CoreWork(job, c)
  {
    var c' := Popped(c, n);
    assert CreatedTasks(c') == CreatedTasks(c);
    assert FinishedTasks(c) == FinishedTasks(c') + {n};
  }

  lemma StoreWork(job: Job, s: State)
    requires !s.streams.scanning && s.core.queue != [] && s.core.queue[0].node in job.graph.edges
    ensures Work(job, StoreHead(job, s)) < Work(job, s)
  {
    var c, c' := s.core, StoreHead(job, s).core;
    assert CreatedTasks(c') == CreatedTasks(c) && FinishedTasks(c') == FinishedTasks(c);
  }

  /** A step of the run leaves strictly less to do; its surroundings leave as much. */
  ghost predicate WorkOk(job: Job, s: State, step: Step)
    requires WellFormed(job.graph) && Enabled(job, s, step)
  {
    if IsWork(step) then Work(job, Apply(job, s, step)) < Work(job, s)
    else Work(job, Apply(job, s, step)) == Work(job, s)
  }

  lemma DispatchStep(job: Job, s: State, n: NodeId)
    requires WellFormed(job.graph) && Enabled(job, s, Dispatch(n))
    ensures WorkOk(job, s, Dispatch(n))
  {
    DispatchWork(job, s, n);
  }

  lemma BlockStep(job: Job, s: State, n: NodeId)
    requires WellFormed(job.graph) && Enabled(job, s, Block(n))
    ensures WorkOk(job, s, Block(n))
  {
    BlockWork(job, s, n);
  }

  lemma ExecuteStep(job: Job, s: State, n: NodeId)
    requires WellFormed(job.graph) && Enabled(job, s, Execute(n))
    ensures WorkOk(job, s, Execute(n))
  {
    ExecuteWork(job, s.core, n);
  }

  lemma PopStep(job: Job, s: State, n: NodeId)
    requires WellFormed(job.graph) && Enabled(job, s, Pop(n))
    ensures WorkOk(job, s, Pop(n))
  {
    PopWork(job, s.core, n);
  }

  lemma StoreStep(job: Job, s: State)
    requires WellFormed(job.graph) && Enabled(job, s, Store)
    ensures WorkOk(job, s, Store)
  {
    StoreWork(job, s);
  }

  lemma ScanStepWork(job: Job, s: State)
    requires WellFormed(job.graph) && Enabled(job, s, Scan)
    ensures WorkOk(job, s, Scan)
  {
    ScanWork(job, s);
  }

  lemma OutsideStep(job: Job, s: State, step: Step)
    requires WellFormed(job.graph) && Enabled(job, s, step) && !IsWork(step)
    ensures WorkOk(job, s, step)
  {
  }

  /** On a barrier-only graph every step of the run leaves strictly less to do. */
  lemma StepWork(job: Job, s: State, step: Step)
    requires WellFormed(job.graph) && Inv(job, s) && BarrierOnly(job) && Enabled(job, s, step)
    ensures WorkOk(job, s, step)
  {
    match step
    case Dispatch(n) => DispatchStep(job, s, n);
    case Block(n) => BlockStep(job, s, n);
    case Execute(n) => ExecuteStep(job, s, n);
    case Pop(n) => PopStep(job, s, n);
    case Store => StoreStep(job, s);
    case Scan => ScanStepWork(job, s);
    case StreamDone(_, _) => NoStreamStep(job, s, step);
    case MergeStreams(_) => NoStreamStep(job, s, step);
    case SetFree(_) => OutsideStep(job, s, step);
    case Stop => OutsideStep(job, s, step);
  }

  lemma NoStreamStep(job: Job, s: State, step: Step)
    requires WellFormed(job.graph) && Inv(job, s) && BarrierOnly(job) && Enabled(job, s, step)
    ensures !step.StreamDone? && !step.MergeStreams?
  {
    NoItemsOnBarriers(job, s);
  }

  lemma ScanWork(job: Job, s: State)
    requires WellFormed(job.graph) && s.streams.scanning
    ensures Work(job, ScanStep(job, s)) < Work(job, s)
  {
    ScanCore(job, s);
  }

  ghost function WorkSteps(steps: seq<Step>): nat {
    if steps == [] then 0 else (if IsWork(steps[0]) then 1 else 0) + WorkSteps(steps[1..])
  }

  lemma {:induction false} RunWork(job: Job, s: State, steps: seq<Step>)
    requires WellFormed(job.graph) && Inv(job, s) && BarrierOnly(job) && Legal(job, s, steps)
    ensures WorkSteps(steps) + Work(job, After(job, s, steps)) <= Work(job, s)
    decreases |steps|
  {
    if steps != [] {
      StepWork(job, s, steps[0]);
      StepSafe(job, s, steps[0]);
      RunWork(job, Apply(job, s, steps[0]), steps[1..]);
    }
  }

  lemma {:induction false} StartUpWork(job: Job, s: State, nodes: seq<NodeId>)
    requires WellFormed(job.graph)
    ensures Work(job, StartUp(job, s, nodes)) <= Work(job, s)
  {
    if nodes != [] {
      var n, before := nodes[|nodes| - 1], StartUp(job, s, nodes[..|nodes| - 1]);
      StartUpWork(job, s, nodes[..|nodes| - 1]);
      if Startable(job, before.core, n) && job.graph.reverse[n] == []
          && Available(before.ledger, PermitOf(job.graph, n)) {
        DispatchWork(job, before, n);
      }
    }
  }

  /** A run of a barrier-only graph takes at most five steps for each node. */
  lemma RunsAreBounded(job: Job, free: map<string, nat>, stopped: bool, steps: seq<Step>)
    requires ValidJob(job) && BarrierOnly(job) && Legal(job, StartState(job, free, stopped), steps)
    ensures WorkSteps(steps) <= 5 * |job.graph.edges|
  {
    var initial := InitialState(job, free, stopped);
    StartIsSound(job, free, stopped);
    StartUpWork(job, initial, job.graph.nodes);
    RunWork(job, StartState(job, free, stopped), steps);
    assert CreatedTasks(initial.core) == {} && FinishedTasks(initial.core) == {};
    assert |Unstarted(job, initial.core)| <= |job.graph.edges.Keys| by {
      SubsetCardinality(Unstarted(job, initial.core), job.graph.edges.Keys);
    }
  }

  // ----- A run can always be ended -----

  function ResourcesOf(g: DagGraph): set<string> {
    set n | n in g.instances && g.instances[n].resource.Some? :: g.instances[n].resource.value
  }

  /** One permit of every resource the graph names. */
  function Ample(g: DagGraph): map<string, nat> {
    map r | r in ResourcesOf(g) :: 1
  }

  lemma AmpleSuffices(g: DagGraph, acquired: map<Key, string>, n: NodeId)
    requires n in g.instances
    ensures Available(Ledger(acquired, Ample(g)), PermitOf(g, n))
        && Available(Ledger(acquired, Ample(g)), g.instances[n].resource)
  {
  }

  /** While the loop goes on, a step of the run is possible, at the latest once permits have come free. */
  lemma SomethingToDo(job: Job, s: State) returns (step: Step)
    requires WellFormed(job.graph) && Inv(job, s) && BarrierOnly(job) && !Exited(job, s)
    requires s.ledger.free == Ample(job.graph)
    ensures Enabled(job, s, step) && IsWork(step)
  {
    var c := s.core;
    NoItemsOnBarriers(job, s);
    if s.streams.scanning {
      step := Scan;
    } else if c.queue != [] {
      UnqueuePlaces(job, c);
      step := Store;
    } else if c.running != map[] {
      var n :| n in c.running;
      assert Flying(job, c.outputs, n);
      ValuesAreFeeds(job, c, n, job.graph.reverse[n]);
      step := if c.running[n].Created? then Execute(n) else Pop(n);
    } else if HasReady(job, c) {
      var n :| n in job.graph.instances && Startable(job, c, n) && !IsAccumulate(job.graph, n)
          && Ready(job, n, c.outputs, c.routed);
      AmpleSuffices(job.graph, s.ledger.acquired, n);
      step := Dispatch(n);
    } else if HasRequiredFailure(job, c) {
      var n :| n in job.graph.instances && Startable(job, c, n) && !IsAccumulate(job.graph, n)
          && Blocked(job, n, c.outputs, c.routed);
      ReadyBlockedOrUnrouted(job, n, c.outputs, c.routed);
      step := Block(n);
    } else {
      NoBlockedAccumulate(job, s);
      assert false;
    }
  }

  lemma NoBlockedAccumulate(job: Job, s: State)
    requires WellFormed(job.graph) && BarrierOnly(job)
    ensures !HasBlockedAccumulate(job, s)
  {
    forall d, u | d in job.graph.reverse && u in job.graph.reverse[d]
        ensures d in job.graph.instances && !IsAccumulate(job.graph, d) {
      assert BarrierNode(job, d);
    }
  }

  /** From every sound state some schedule leads to the end of the loop. */
  lemma {:induction false} CanBeEnded(job: Job, s: State) returns (steps: seq<Step>)
    requires WellFormed(job.graph) && Inv(job, s) && BarrierOnly(job)
    ensures Legal(job, s, steps) && Exited(job, After(job, s, steps))
    decreases Work(job, s)
  {
    if Exited(job, s) {
      steps := [];
    } else {
      var ample := Apply(job, s, SetFree(Ample(job.graph)));
      StepSafe(job, s, SetFree(Ample(job.graph)));
      NoBlockedAccumulate(job, s);
      var step := SomethingToDo(job, ample);
      StepWork(job, ample, step);
      StepSafe(job, ample, step);
      var rest := CanBeEnded(job, Apply(job, ample, step));
      StepFirst(job, ample, step, rest);
      StepFirst(job, s, SetFree(Ample(job.graph)), [step] + rest);
      steps := [SetFree(Ample(job.graph))] + ([step] + rest);
    }
  }

  /**
   Some run ends, whatever the permits; it has the reference outcome exactly if the accumulating sources are
   admitted.
   */
  lemma OutcomeIsReached(job: Job, free: map<string, nat>) returns (steps: seq<Step>)
    requires ValidJob(job) && BarrierOnly(job)
    ensures Legal(job, StartState(job, free, false), steps)
        && Exited(job, After(job, StartState(job, free, false), steps))
    ensures After(job, StartState(job, free, false), steps).core.outputs == Outcome(job)
        <==> AllAdmitted(job, free, job.graph.reverse.Keys)
  {
    StartIsSound(job, free, false);
    steps := CanBeEnded(job, StartState(job, free, false));
    OutputsConfluent(job, free, false, steps);
  }

  // ----- Why a node has no output -----

  /**
   At the end of the loop, an allowed node without output has an upstream without one, or a successful
   upstream that did not route to it, or it is an accumulating source that the start-up loop passed over.
   */
  lemma SkipIsJustified(job: Job, s: State, n: NodeId)
    requires ValidJob(job) && Inv(job, s) && Exited(job, s)
    requires n in job.graph.reverse && BarrierNode(job, n) && n in Allowed(job) && n !in s.core.outputs
    ensures (exists u {:trigger u in job.graph.reverse[n]} :: u in job.graph.reverse[n]
              && (u !in s.core.outputs || (s.core.outputs[u].ok && (u, n) !in s.core.routed)))
            || (IsMarkedSource(job, n) && n !in s.core.started)
  {
    var c := s.core;
    if AllArrived(job.graph.reverse[n], c.outputs) && !(IsMarkedSource(job, n) && n !in c.started) {
      ReadyBlockedOrUnrouted(job, n, c.outputs, c.routed);
      if Ready(job, n, c.outputs, c.routed) || Blocked(job, n, c.outputs, c.routed) {
        NothingLeft(job, s, n);
        assert false;
      }
    }
  }

  /**
   A full run of a barrier-only graph without conditions that has started its accumulating sources gives every
   node an output.
   */
  lemma {:induction false} UnconditionalRunCovers(job: Job, s: State, n: NodeId)
    requires ValidJob(job) && Inv(job, s) && Exited(job, s) && BarrierOnly(job)
    requires MarkedSourcesStarted(job, s.core, job.graph.reverse.Keys)
    requires job.graph.conditions == map[] && job.retry == {} && job.prefilled == map[] && n in job.graph.reverse
    ensures n in s.core.outputs
    decreases Rank(job.graph.edges)[n]
  {
    if n !in s.core.outputs {
      UpstreamRanksLower(job.graph, n);
      forall u | u in job.graph.reverse[n] ensures u in s.core.outputs {
        UnconditionalRunCovers(job, s, u);
      }
      SkipIsJustified(job, s, n);
      var u :| u in job.graph.reverse[n] && s.core.outputs[u].ok && (u, n) !in s.core.routed;
      RoutedFromUpstream(job, s.core, n, u);
      assert false;
    }
  }

  // ----- Each node is dispatched at most once -----

  lemma {:induction false} StartedNotDispatched(job: Job, s: State, steps: seq<Step>, n: NodeId, j: nat)
    requires WellFormed(job.graph) && Legal(job, s, steps) && n in s.core.started && j < |steps|
    ensures steps[j] != Dispatch(n) && steps[j] != Block(n)
    decreases |steps|
  {
    StartedGrows(job, s, steps[0]);
    if j > 0 {
      StartedNotDispatched(job, Apply(job, s, steps[0]), steps[1..], n, j - 1);
    }
  }

  /** No run dispatches a node twice, or dispatches it and also marks it blocked. */
  lemma {:induction false} DispatchedOnce(job: Job, s: State, steps: seq<Step>, n: NodeId, i: nat, j: nat)
    requires WellFormed(job.graph) && Legal(job, s, steps) && i < j < |steps|
    requires steps[i] == Dispatch(n) || steps[i] == Block(n)
    ensures steps[j] != Dispatch(n) && steps[j] != Block(n)
    decreases |steps|
  {
    if i == 0 {
      StartedNotDispatched(job, Apply(job, s, steps[0]), steps[1..], n, j - 1);
    } else {
      DispatchedOnce(job, Apply(job, s, steps[0]), steps[1..], n, i - 1, j - 1);
    }
  }
}
