/** Stretches of the runner's code as sequences of scheduler steps. */
module Traces {
  import opened Graphs
  import opened DagModels
  import opened Jobs
  import opened Scheduler
  import opened Invariants
  import opened StreamItems
  import opened Safety
  import opened Confluence

  /** Some legal sequence of steps leads from one state to the other. */
  ghost predicate Leads(job: Job, s: State, s': State)
    requires WellFormed(job.graph)
  {
    exists steps :: Legal(job, s, steps) && After(job, s, steps) == s'
  }

  lemma LeadsNowhere(job: Job, s: State)
    requires WellFormed(job.graph)
    ensures Leads(job, s, s)
  {
    assert Legal(job, s, []) && After(job, s, []) == s;
  }

  lemma LeadsByStep(job: Job, s: State, step: Step)
    requires WellFormed(job.graph) && Enabled(job, s, step)
    ensures Leads(job, s, Apply(job, s, step))
  {
    StepFirst(job, s, step, []);
    assert Legal(job, s, [step] + []) && After(job, s, [step] + []) == Apply(job, s, step);
  }

  lemma LeadsOn(job: Job, s: State, t: State, u: State)
    requires WellFormed(job.graph) && Leads(job, s, t) && Leads(job, t, u)
    ensures Leads(job, s, u)
  {
    var first :| Legal(job, s, first) && After(job, s, first) == t;
    var second :| Legal(job, t, second) && After(job, t, second) == u;
    RunsCompose(job, s, first, second);
    assert Legal(job, s, first + second) && After(job, s, first + second) == u;
  }

  /** Sound states lead to sound states. */
  lemma LeadsSafely(job: Job, s: State, t: State)
    requires WellFormed(job.graph) && Inv(job, s) && Leads(job, s, t)
    ensures Inv(job, t)
  {
    var steps :| Legal(job, s, steps) && After(job, s, steps) == t;
    RunSafe(job, s, steps);
  }

  /** `t` is a state of some run that began in the sound state `s`. */
  ghost predicate OnTrack(job: Job, s: State, t: State)
    requires WellFormed(job.graph)
  {
    Inv(job, s) && Leads(job, s, t)
  }

  lemma TrackIsSound(job: Job, s: State, t: State)
    requires WellFormed(job.graph) && OnTrack(job, s, t)
    ensures Inv(job, t)
  {
    LeadsSafely(job, s, t);
  }

  lemma Onward(job: Job, s: State, t: State, step: Step)
    requires WellFormed(job.graph) && OnTrack(job, s, t) && Enabled(job, t, step)
    ensures OnTrack(job, s, Apply(job, t, step))
  {
    LeadsByStep(job, t, step);
    LeadsOn(job, s, t, Apply(job, t, step));
  }

  // ----- `_start_ready_nodes` -----

  /** The loop body of `_start_ready_nodes`. */
  function StartOrBlock(job: Job, s: State, n: NodeId): State
    requires WellFormed(job.graph)
  {
    if !Startable(job, s.core, n) || IsAccumulate(job.graph, n) then s
    else if Ready(job, n, s.core.outputs, s.core.routed) then
      if Available(s.ledger, PermitOf(job.graph, n)) then DispatchNode(job, s, n) else s
    else if Blocked(job, n, s.core.outputs, s.core.routed) then BlockNode(job, s, n)
    else s
  }

  function StartPass(job: Job, s: State, nodes: seq<NodeId>): State
    requires WellFormed(job.graph)
  {
    if nodes == [] then s
    else StartOrBlock(job, StartPass(job, s, nodes[..|nodes| - 1]), nodes[|nodes| - 1])
  }

  /** `_start_ready_nodes` */
  function StartReady(job: Job, s: State): State
    requires WellFormed(job.graph)
  {
    if s.stopped then s else StartPass(job, s, job.graph.nodes)
  }

  lemma {:induction false} StartPassLeads(job: Job, s: State, nodes: seq<NodeId>)
    requires WellFormed(job.graph) && !s.streams.scanning
    ensures Leads(job, s, StartPass(job, s, nodes)) && !StartPass(job, s, nodes).streams.scanning
  {
    LeadsNowhere(job, s);
    if nodes != [] {
      var before, n := StartPass(job, s, nodes[..|nodes| - 1]), nodes[|nodes| - 1];
      StartPassLeads(job, s, nodes[..|nodes| - 1]);
      if StartPass(job, s, nodes) != before {
        if Ready(job, n, before.core.outputs, before.core.routed) {
          LeadsByStep(job, before, Dispatch(n));
        } else {
          LeadsByStep(job, before, Block(n));
        }
        LeadsOn(job, s, before, StartPass(job, s, nodes));
      }
    }
  }

  lemma StartReadyLeads(job: Job, s: State)
    requires WellFormed(job.graph) && !s.streams.scanning
    ensures Leads(job, s, StartReady(job, s)) && !StartReady(job, s).streams.scanning
  {
    LeadsNowhere(job, s);
    StartPassLeads(job, s, job.graph.nodes);
  }

  /** A pass that has changed nothing so far reaches the next node in the state it began with. */
  lemma {:induction false} PassFindsWork(job: Job, s: State, nodes: seq<NodeId>, n: NodeId)
    requires WellFormed(job.graph) && n in nodes && Places(job, s.core)
    requires StartOrBlock(job, s, n) != s
    ensures s.core.started < StartPass(job, s, nodes).core.started
  {
    var front, last := nodes[..|nodes| - 1], nodes[|nodes| - 1];
    assert nodes == front + [last];
    PassStartedGrows(job, s, front);
    OneStartedGrows(job, StartPass(job, s, front), last);
    if n in front {
      PassFindsWork(job, s, front, n);
    } else if StartPass(job, s, front).core.started == s.core.started {
      PassUnchanged(job, s, front);
    }
  }

  lemma OneStartedGrows(job: Job, s: State, n: NodeId)
    requires WellFormed(job.graph)
    ensures s.core.started <= StartOrBlock(job, s, n).core.started
    ensures StartOrBlock(job, s, n) != s ==> n !in s.core.started && n in StartOrBlock(job, s, n).core.started
  {
  }

  lemma {:induction false} PassStartedGrows(job: Job, s: State, nodes: seq<NodeId>)
    requires WellFormed(job.graph)
    ensures s.core.started <= StartPass(job, s, nodes).core.started
  {
    if nodes != [] {
      PassStartedGrows(job, s, nodes[..|nodes| - 1]);
      OneStartedGrows(job, StartPass(job, s, nodes[..|nodes| - 1]), nodes[|nodes| - 1]);
    }
  }

  lemma {:induction false} PassUnchanged(job: Job, s: State, nodes: seq<NodeId>)
    requires WellFormed(job.graph) && StartPass(job, s, nodes).core.started == s.core.started
    ensures StartPass(job, s, nodes) == s
  {
    if nodes != [] {
      PassStartedGrows(job, s, nodes[..|nodes| - 1]);
      OneStartedGrows(job, StartPass(job, s, nodes[..|nodes| - 1]), nodes[|nodes| - 1]);
      PassUnchanged(job, s, nodes[..|nodes| - 1]);
    }
  }

  /** Every permit the graph asks for can be had. */
  ghost predicate AllPermitsFree(job: Job, l: Ledger) {
    forall n {:trigger job.graph.instances[n]} :: n in job.graph.instances ==>
      Available(l, PermitOf(job.graph, n)) && Available(l, job.graph.instances[n].resource)
  }

  lemma NothingBlockedByPermits(job: Job, s: State)
    requires WellFormed(job.graph) && AllPermitsFree(job, s.ledger)
    ensures !HasBlockedAccumulate(job, s)
  {
  }

  /**
   While the loop goes on with nothing running, nothing queued and no stream item under way, a call of
   `_start_ready_nodes` starts or blocks some node, provided the run is not stopped and the permits are free.
   */
  lemma StartReadyMakesProgress(job: Job, s: State)
    requires WellFormed(job.graph) && Inv(job, s) && !s.stopped && CanContinue(job, s) && AllPermitsFree(job, s.ledger)
    requires s.core.running == map[] && s.core.queue == [] && !HasPendingStream(s.streams)
    ensures s.core.started < StartReady(job, s).core.started
  {
    var c := s.core;
    NothingBlockedByPermits(job, s);
    if HasReady(job, c) {
      var n :| n in job.graph.instances && Startable(job, c, n) && !IsAccumulate(job.graph, n)
          && Ready(job, n, c.outputs, c.routed);
      assert n in job.graph.instances && Available(s.ledger, PermitOf(job.graph, n));
      PassFindsWork(job, s, job.graph.nodes, n);
    } else {
      var n :| n in job.graph.instances && Startable(job, c, n) && !IsAccumulate(job.graph, n)
          && Blocked(job, n, c.outputs, c.routed);
      ReadyBlockedOrUnrouted(job, n, c.outputs, c.routed);
      PassFindsWork(job, s, job.graph.nodes, n);
    }
  }

  // ----- `_complete_accumulate_tasks` -----

  /** All upstreams of the node have outputs and all its stream items are done. */
  predicate Completable(job: Job, s: State, d: NodeId) {
    && d in s.streams.tasks && d in job.graph.reverse && d !in s.core.outputs
    && AllArrived(job.graph.reverse[d], s.core.outputs) && AllStreamsDone(s.streams.tasks[d])
  }

  /** The loop body of `_complete_accumulate_tasks`. */
  function CompleteOne(job: Job, s: State, d: NodeId): State
    requires d in job.graph.edges
  {
    if d in s.core.outputs then s.(streams := s.streams.(tasks := s.streams.tasks - {d}))
    else if Completable(job, s, d) then MergeNode(job, s, d)
    else s
  }

  /** What stays as it is between taking over finished tasks and storing their outputs. */
  ghost predicate Steady(s: State, t: State) {
    t.core.queue == s.core.queue && t.streams.scanning == s.streams.scanning
  }

  lemma CompleteOneLeads(job: Job, s: State, t: State, d: NodeId)
    requires WellFormed(job.graph) && OnTrack(job, s, t) && !t.streams.scanning && d in t.streams.tasks
    ensures d in job.graph.edges && OnTrack(job, s, CompleteOne(job, t, d)) && Steady(t, CompleteOne(job, t, d))
    ensures CompleteOne(job, t, d) == t || Completable(job, t, d)
    ensures CompleteOne(job, t, d).streams.tasks.Keys >= t.streams.tasks.Keys - {d}
  {
    TrackIsSound(job, s, t);
    assert ItemsOk(job, t.core, t.streams, d);
    if Completable(job, t, d) {
      Onward(job, s, t, MergeStreams(d));
    }
  }

  // ----- The rest of a turn -----

  lemma {:induction false} StartReadySteady(job: Job, s: State, nodes: seq<NodeId>)
    requires WellFormed(job.graph)
    ensures Steady(s, StartPass(job, s, nodes))
  {
    if nodes != [] {
      StartReadySteady(job, s, nodes[..|nodes| - 1]);
    }
  }

  lemma {:induction false} StoppedStays(job: Job, s: State, steps: seq<Step>)
    requires WellFormed(job.graph) && Legal(job, s, steps) && s.stopped
    ensures After(job, s, steps).stopped
    decreases |steps|
  {
    if steps != [] {
      StopStep(job, s, steps[0]);
      StoppedStays(job, Apply(job, s, steps[0]), steps[1..]);
    }
  }

  lemma StopStep(job: Job, s: State, step: Step)
    requires WellFormed(job.graph) && Enabled(job, s, step) && s.stopped
    ensures Apply(job, s, step).stopped
  {
    if step.Scan? {
      ScanCore(job, s);
    }
  }

  /** A run that is not stopped when its loop has ended was never stopped. */
  lemma EndedUnstopped(job: Job, s: State, t: State) returns (steps: seq<Step>)
    requires WellFormed(job.graph) && Leads(job, s, t) && !t.stopped
    ensures Legal(job, s, steps) && After(job, s, steps) == t && !s.stopped
  {
    steps :| Legal(job, s, steps) && After(job, s, steps) == t;
    if s.stopped {
      StoppedStays(job, s, steps);
    }
  }
}
