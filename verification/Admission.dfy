/**
 Which sources the start-up loop dispatches. A source in accumulate mode has no other chance: the main
 loop passes it over, so it runs exactly if it is admitted here.
 */
module Admission {
  import opened Wrappers
  import opened Graphs
  import opened DagModels
  import opened Jobs
  import opened Reference
  import opened Scheduler
  import opened Invariants
  import opened StreamItems
  import opened Safety

  /** A source that the start-up loop has to dispatch. */
  predicate IsSourceToStart(job: Job, n: NodeId) {
    n in job.graph.instances && n in job.graph.reverse && job.graph.reverse[n] == [] && n in Allowed(job)
        && n !in job.prefilled
  }

  /** How many of the nodes are sources to start that need a permit of the resource. */
  function Takers(job: Job, nodes: seq<NodeId>, r: string): nat {
    if nodes == [] then 0
    else
      var n := nodes[|nodes| - 1];
      Takers(job, nodes[..|nodes| - 1], r)
          + if IsSourceToStart(job, n) && PermitOf(job.graph, n) == Some(r) then 1 else 0
  }

  /** The nodes listed before the last mention of `n`. */
  function Before(nodes: seq<NodeId>, n: NodeId): seq<NodeId> {
    if nodes == [] then []
    else if nodes[|nodes| - 1] == n then nodes[..|nodes| - 1]
    else Before(nodes[..|nodes| - 1], n)
  }

  predicate AdmittedAmong(job: Job, free: map<string, nat>, nodes: seq<NodeId>, n: NodeId)
    requires n in job.graph.instances
  {
    var permit := PermitOf(job.graph, n);
    permit.None? || Takers(job, Before(nodes, n), permit.value) < Free(Ledger(map[], free), permit.value)
  }

  /**
   The source needs no permit, or there are more permits than sources before it that need one of the same
   resource.
   */
  predicate Admitted(job: Job, free: map<string, nat>, n: NodeId)
    requires n in job.graph.instances
  {
    AdmittedAmong(job, free, job.graph.nodes, n)
  }

  /** A source in accumulate mode that the start-up loop has to dispatch. */
  predicate IsMarkedSource(job: Job, n: NodeId)
    requires n in job.graph.instances && n in job.graph.reverse
  {
    IsSourceToStart(job, n) && IsAccumulate(job.graph, n)
  }

  ghost predicate AllAdmitted(job: Job, free: map<string, nat>, region: set<NodeId>)
    requires WellFormed(job.graph) && region <= job.graph.reverse.Keys
  {
    forall n {:trigger n in region} :: n in region && IsMarkedSource(job, n) ==> Admitted(job, free, n)
  }

  ghost predicate MarkedSourcesStarted(job: Job, c: Core, region: set<NodeId>)
    requires WellFormed(job.graph) && region <= job.graph.reverse.Keys
  {
    forall n {:trigger n in region} :: n in region && IsMarkedSource(job, n) ==> n in c.started
  }

  // ----- The start-up loop admits exactly these -----

  /** The permits left after the sources among the nodes have taken theirs. */
  function Left(job: Job, free: map<string, nat>, nodes: seq<NodeId>, r: string): nat {
    var all, taken := Free(Ledger(map[], free), r), Takers(job, nodes, r);
    if taken < all then all - taken else 0
  }

  ghost predicate PermitsLeft(job: Job, free: map<string, nat>, s: State, nodes: seq<NodeId>) {
    forall r {:trigger Left(job, free, nodes, r)} :: Free(s.ledger, r) == Left(job, free, nodes, r)
  }

  ghost predicate StartedAmong(job: Job, free: map<string, nat>, s: State, nodes: seq<NodeId>)
    requires forall n {:trigger n in nodes} :: n in nodes ==> n in job.graph.instances
  {
    && s.core.running.Keys <= s.core.started
    && forall n {:trigger n in s.core.started} :: n in s.core.started <==>
         (n in job.prefilled && n in job.graph.instances)
         || (n in nodes && IsSourceToStart(job, n) && AdmittedAmong(job, free, nodes, n))
  }

  /** Whether the start-up loop dispatches the next node. */
  lemma NextIsDispatched(job: Job, free: map<string, nat>, s: State, front: seq<NodeId>, n: NodeId)
    requires WellFormed(job.graph) && n in job.graph.reverse && n !in front
        && (forall m {:trigger m in front} :: m in front ==> m in job.graph.instances)
    requires PermitsLeft(job, free, s, front) && StartedAmong(job, free, s, front)
    ensures Startable(job, s.core, n) && job.graph.reverse[n] == [] <==> IsSourceToStart(job, n)
    ensures Available(s.ledger, PermitOf(job.graph, n)) <==> AdmittedAmong(job, free, front + [n], n)
  {
    var permit := PermitOf(job.graph, n);
    assert (front + [n])[..|front|] == front;
    if permit.Some? {
      assert Free(s.ledger, permit.value) == Left(job, free, front, permit.value);
    }
  }

  lemma NextPermits(job: Job, free: map<string, nat>, s: State, s': State, front: seq<NodeId>, n: NodeId)
    requires WellFormed(job.graph) && n in job.graph.reverse && PermitsLeft(job, free, s, front)
    requires var permit := PermitOf(job.graph, n);
      s'.ledger == if IsSourceToStart(job, n) && Available(s.ledger, permit) then Acquire(s.ledger, NodeKey(n), permit)
          else s.ledger
    ensures PermitsLeft(job, free, s', front + [n])
  {
    assert (front + [n])[..|front|] == front;
    forall r ensures Free(s'.ledger, r) == Left(job, free, front + [n], r) {
      assert Free(s.ledger, r) == Left(job, free, front, r);
    }
  }

  lemma NextStarted(job: Job, free: map<string, nat>, s: State, s': State, front: seq<NodeId>, n: NodeId)
    requires WellFormed(job.graph) && n in job.graph.reverse && n !in front
        && (forall m {:trigger m in front} :: m in front ==> m in job.graph.instances)
    requires StartedAmong(job, free, s, front) && s'.core.running.Keys <= s'.core.started
    requires s'.core.started == s.core.started
        + if IsSourceToStart(job, n) && AdmittedAmong(job, free, front + [n], n) then {n} else {}
    ensures StartedAmong(job, free, s', front + [n])
  {
    var nodes := front + [n];
    assert nodes[..|front|] == front;
    forall m ensures m in nodes <==> m in front || m == n {
    }
    forall m | m != n ensures Before(nodes, m) == Before(front, m) {
    }
  }

  lemma {:induction false} StartUpAdmits(job: Job, free: map<string, nat>, stopped: bool, nodes: seq<NodeId>)
    requires WellFormed(job.graph) && Distinct(nodes)
        && (forall n {:trigger n in nodes} :: n in nodes ==> n in job.graph.reverse)
    ensures PermitsLeft(job, free, StartUp(job, InitialState(job, free, stopped), nodes), nodes)
    ensures StartedAmong(job, free, StartUp(job, InitialState(job, free, stopped), nodes), nodes)
  {
    var initial := InitialState(job, free, stopped);
    if nodes != [] {
      var front, n := nodes[..|nodes| - 1], nodes[|nodes| - 1];
      assert nodes == front + [n] && n in nodes && forall m :: m in front ==> m in nodes;
      StartUpAdmits(job, free, stopped, front);
      var s, s' := StartUp(job, initial, front), StartUp(job, initial, nodes);
      NextIsDispatched(job, free, s, front, n);
      NextPermits(job, free, s, s', front, n);
      NextStarted(job, free, s, s', front, n);
    }
  }

  /** The start-up loop starts a source exactly if it is admitted. */
  lemma StartAdmits(job: Job, free: map<string, nat>, stopped: bool, n: NodeId)
    requires WellFormed(job.graph) && n in job.graph.reverse && IsSourceToStart(job, n)
    ensures n in StartState(job, free, stopped).core.started <==> Admitted(job, free, n)
  {
    StartUpAdmits(job, free, stopped, job.graph.nodes);
    assert n in job.graph.nodes;
  }

  lemma AdmittedStayStarted(job: Job, free: map<string, nat>, stopped: bool, steps: seq<Step>, region: set<NodeId>)
    requires WellFormed(job.graph) && region <= job.graph.reverse.Keys && AllAdmitted(job, free, region)
    requires Legal(job, StartState(job, free, stopped), steps)
    ensures MarkedSourcesStarted(job, After(job, StartState(job, free, stopped), steps).core, region)
  {
    RunStarted(job, StartState(job, free, stopped), steps);
    forall n | n in region && IsMarkedSource(job, n) ensures n in StartState(job, free, stopped).core.started {
      StartAdmits(job, free, stopped, n);
    }
  }

  // ----- The others never run -----

  /** A step starts a node only by dispatching it, blocking it, or merging its stream items. */
  lemma OnlyStarts(job: Job, s: State, step: Step, n: NodeId)
    requires WellFormed(job.graph) && Enabled(job, s, step) && n !in s.core.started
        && n in Apply(job, s, step).core.started
    ensures step == Dispatch(n) || step == Block(n) || step == MergeStreams(n)
  {
    if step.Scan? {
      ScanCore(job, s);
    }
  }

  lemma MergedHasUpstreams(job: Job, s: State, d: NodeId)
    requires WellFormed(job.graph) && Inv(job, s) && d in s.streams.tasks
    ensures d in job.graph.reverse && job.graph.reverse[d] != []
  {
    assert ItemsOk(job, s.core, s.streams, d);
  }

  lemma PassedOverStep(job: Job, s: State, step: Step, n: NodeId)
    requires WellFormed(job.graph) && Inv(job, s) && Enabled(job, s, step) && n !in s.core.started
    requires n in job.graph.reverse && job.graph.reverse[n] == [] && IsAccumulate(job.graph, n)
    ensures n !in Apply(job, s, step).core.started
  {
    if n in Apply(job, s, step).core.started {
      OnlyStarts(job, s, step, n);
      if step.MergeStreams? {
        MergedHasUpstreams(job, s, step.node);
      }
    }
  }

  lemma {:induction false} PassedOver(job: Job, s: State, steps: seq<Step>, n: NodeId)
    requires WellFormed(job.graph) && Inv(job, s) && Legal(job, s, steps) && n !in s.core.started
    requires n in job.graph.reverse && job.graph.reverse[n] == [] && IsAccumulate(job.graph, n)
    ensures n !in After(job, s, steps).core.started
    decreases |steps|
  {
    if steps != [] {
      PassedOverStep(job, s, steps[0], n);
      StepSafe(job, s, steps[0]);
      PassedOver(job, Apply(job, s, steps[0]), steps[1..], n);
    }
  }

  lemma SourceRuns(job: Job, n: NodeId, outs: map<NodeId, NodeOutput>)
    requires WellFormed(job.graph) && n in job.graph.reverse && job.graph.reverse[n] == []
    ensures VerdictOn(job, n, outs) == Runs
  {
  }

  /**
   An accumulating source that is not admitted never gets an output, even if permits come free later, although
   the reference gives it one.
   */
  lemma NotAdmittedNeverRuns(job: Job, free: map<string, nat>, stopped: bool, steps: seq<Step>, n: NodeId)
    requires ValidJob(job) && n in job.graph.reverse && n in job.graph.instances && IsMarkedSource(job, n)
        && !Admitted(job, free, n)
    requires Legal(job, StartState(job, free, stopped), steps)
    ensures Evaluate(job, n).Some? && n !in After(job, StartState(job, free, stopped), steps).core.outputs
  {
    StartAdmits(job, free, stopped, n);
    StartIsSound(job, free, stopped);
    PassedOver(job, StartState(job, free, stopped), steps, n);
    RunSafe(job, StartState(job, free, stopped), steps);
    SourceRuns(job, n, UpstreamOutputs(job, n));
  }

  // ----- Two sources, one permit -----

  ghost function MarkedSource(id: NodeId): Instance {
    Instance(id, "plain", None, false, Accumulate, false, Some("r"), Null)
  }

  /** Two accumulating sources "a" and "b" that share a resource. */
  ghost function Rivals(): Job {
    Job(DagGraph("rivals", ["a", "b"], map["a" := MarkedSource("a"), "b" := MarkedSource("b")],
          map["a" := [], "b" := []], map["a" := [], "b" := []], {}, {}, {}, map[], map[]),
        map[], {}, (n: NodeId, slot: Slot, input: NodeInput) => NodeOutput(n, true, Num(1), map[], None),
            (c: string, v: Value) => true,
        RunInputs(Null, map[], {}), {}, map[])
  }

  lemma RivalsAreValid()
    ensures ValidJob(Rivals()) && Elements(Rivals().graph.nodes) == {"a", "b"}
  {
    var g := Rivals().graph;
    assert Elements(g.nodes) == {"a", "b"};
    forall u, v | u in g.edges && v in g.reverse ensures SameCount(g.edges, g.reverse, u, v) {
    }
    RankMeansAcyclic(g.edges, map["a" := 0, "b" := 0]);
  }

  /**
   With one permit the start-up loop admits "a" and not "b", which then never runs, although the reference gives
   it an output.
   */
  lemma RivalNeverRuns(steps: seq<Step>)
    requires WellFormed(Rivals().graph) && Legal(Rivals(), StartState(Rivals(), map["r" := 1], false), steps)
    ensures ValidJob(Rivals()) && Evaluate(Rivals(), "b").Some?
    ensures "b" !in After(Rivals(), StartState(Rivals(), map["r" := 1], false), steps).core.outputs
  {
    var job := Rivals();
    RivalsAreValid();
    var nodes := job.graph.nodes;
    assert nodes[..1] == ["a"] && ["a"][..0] == [];
    assert Takers(job, [], "r") == 0;
    assert Takers(job, ["a"], "r") == 1;
    assert Before(nodes, "b") == ["a"];
    NotAdmittedNeverRuns(job, map["r" := 1], false, steps, "b");
  }
}
