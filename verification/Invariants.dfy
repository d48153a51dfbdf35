/** What every step of the scheduler keeps about outputs, routed edges, payloads and tasks, on any graph. */
module Invariants {
  import opened Wrappers
  import opened Graphs
  import opened DagModels
  import opened Helpers
  import opened Jobs
  import opened Reference
  import opened Scheduler
  import opened LocalView

  /** A node is in at most one place: running, queued, or stored; and it has been started exactly if it is in one. */
  ghost predicate Places(job: Job, c: Core) {
    && c.outputs.Keys <= job.graph.edges.Keys
    && c.running.Keys <= job.graph.edges.Keys - c.outputs.Keys
    && Queued(c) <= job.graph.edges.Keys - c.outputs.Keys - c.running.Keys
    && (forall i, j :: 0 <= i < j < |c.queue| ==> c.queue[i].node != c.queue[j].node)
    && c.started == c.outputs.Keys + c.running.Keys + Queued(c)
    && (forall n ::
        n in job.prefilled && n in job.graph.instances ==> n in c.outputs && c.outputs[n] == job.prefilled[n])
  }

  /** Failures are recorded for exactly the nodes of this run that failed. */
  ghost predicate FailuresOk(job: Job, c: Core) {
    forall n {:trigger n in c.failures} ::
      && (n in c.failures <==> n in c.outputs && !c.outputs[n].ok && n !in job.prefilled)
      && (n in c.failures ==> c.failures[n] == ErrorText(c.outputs[n]))
  }

  /** A node that gets its output from stream items. */
  ghost predicate IsMerged(g: DagGraph, n: NodeId)
    requires n in g.instances && n in g.reverse
  {
    IsAccumulate(g, n) && g.reverse[n] != []
  }

  /** A dispatched node: all its upstreams have outputs, and on these the reference runs it. */
  ghost predicate Flying(job: Job, outputs: map<NodeId, NodeOutput>, n: NodeId)
    requires WellFormed(job.graph)
  {
    && n in job.graph.reverse && n in Allowed(job) && n !in job.prefilled && !IsMerged(job.graph, n)
    && VerdictOn(job, n, Sees(job.graph, n, outputs)) == Runs
  }

  ghost predicate TaskOk(job: Job, outputs: map<NodeId, NodeOutput>, n: NodeId, task: Task)
    requires n in job.graph.reverse && n in job.graph.instances
  {
    var outs := Sees(job.graph, n, outputs);
    match task
    case Created(fan) => fan == FanFeeds(job, job.graph.reverse[n], n, outs)
    case Finished(out) => out == RunOutput(job, n, outs)
  }

  ghost predicate FlightsOk(job: Job, c: Core)
    requires WellFormed(job.graph)
  {
    && (forall n {:trigger c.running[n]} ::
        n in c.running ==> Flying(job, c.outputs, n) && TaskOk(job, c.outputs, n, c.running[n]))
    && (forall d {:trigger d in c.queue} ::
        d in c.queue ==> Flying(job, c.outputs, d.node) && TaskOk(job, c.outputs, d.node, Finished(d.out)))
  }

  /**
   A stored output was prefilled, merged from stream items, or is what the reference makes of the upstream
   outputs.
   */
  ghost predicate OutputOk(job: Job, outputs: map<NodeId, NodeOutput>, n: NodeId)
    requires WellFormed(job.graph) && n in outputs
  {
    && n in job.graph.reverse
    && (n in job.prefilled || (n in Allowed(job) &&
         (IsMerged(job.graph, n) || OutputFrom(job, n, Sees(job.graph, n, outputs)) == Some(outputs[n]))))
  }

  ghost predicate OutputsOk(job: Job, c: Core)
    requires WellFormed(job.graph)
  {
    forall n {:trigger OutputOk(job, c.outputs, n)} :: n in c.outputs ==> OutputOk(job, c.outputs, n)
  }

  ghost predicate CoreInv(job: Job, c: Core)
    requires WellFormed(job.graph)
  {
    && Places(job, c)
    && RoutesOk(job, c)
    && PayloadsOk(job, c)
    && FailuresOk(job, c)
    && FlightsOk(job, c)
    && OutputsOk(job, c)
  }

  // ----- Start -----

  lemma PrefilledKeeps(job: Job)
    requires WellFormed(job.graph)
    ensures CoreInv(job, PrefilledCore(job))
  {
  }

  // ----- Dispatching, executing, taking over -----

  lemma DispatchPlaces(job: Job, c: Core, n: NodeId, task: Task)
    requires Places(job, c) && n in job.graph.edges && n !in c.started
    ensures Places(job, c.(running := c.running[n := task], started := c.started + {n}))
  {
    var c' := c.(running := c.running[n := task], started := c.started + {n});
    assert Queued(c') == Queued(c);
    assert c'.running.Keys == c.running.Keys + {n};
  }

  lemma TaskFlights(job: Job, c: Core, n: NodeId, task: Task)
    requires WellFormed(job.graph) && FlightsOk(job, c) && Flying(job, c.outputs, n) && TaskOk(job, c.outputs, n, task)
    ensures FlightsOk(job, c.(running := c.running[n := task]))
  {
  }

  lemma DispatchKeeps(job: Job, s: State, n: NodeId)
    requires WellFormed(job.graph) && CoreInv(job, s.core)
    requires Startable(job, s.core, n) && Available(s.ledger, PermitOf(job.graph, n)) && !IsMerged(job.graph, n)
    requires Ready(job, n, s.core.outputs, s.core.routed)
    ensures CoreInv(job, DispatchNode(job, s, n).core)
  {
    var c := s.core;
    var task := Created(FanOutPayloads(job, job.graph.reverse[n], n, c.outputs, c.routed));
    ReadyMeansRuns(job, c, n);
    FanOutIsFeeds(job, c, n, job.graph.reverse[n]);
    DispatchPlaces(job, c, n, task);
    assert n !in job.prefilled;
    TaskFlights(job, c, n, task);
  }

  lemma ExecuteKeeps(job: Job, c: Core, n: NodeId)
    requires WellFormed(job.graph) && CoreInv(job, c)
    requires n in c.running && c.running[n].Created? && n in job.graph.reverse
    ensures LookupsSucceed(job.graph.reverse[n], n, c.outputs, c.payloads, c.routed)
      && CoreInv(job, ExecuteNode(job, c, n))
  {
    ExecutedOutput(job, c, n);
    assert Flying(job, c.outputs, n) && TaskOk(job, c.outputs, n, c.running[n]);
    var c' := ExecuteNode(job, c, n);
    TaskFlights(job, c, n, c'.running[n]);
    ExecutePlaces(job, c, n, c'.running[n]);
  }

  lemma ExecutePlaces(job: Job, c: Core, n: NodeId, task: Task)
    requires Places(job, c) && n in c.running
    ensures Places(job, c.(running := c.running[n := task]))
  {
    var c' := c.(running := c.running[n := task]);
    assert Queued(c') == Queued(c);
    assert c'.running.Keys == c.running.Keys;
  }

  lemma PopPlaces(job: Job, c: Core, n: NodeId)
    requires Places(job, c) && n in c.running && c.running[n].Finished?
    ensures Places(job, Popped(c, n))
  {
    var c' := Popped(c, n);
    assert c'.queue[|c.queue|] in c'.queue;
    assert forall d :: d in c.queue ==> d in c'.queue;
    assert Queued(c') == Queued(c) + {n};
    forall i, j | 0 <= i < j < |c'.queue| ensures c'.queue[i].node != c'.queue[j].node {
      assert c.queue[i] in c.queue && c.queue[i].node in Queued(c);
    }
  }

  lemma PopFlights(job: Job, c: Core, n: NodeId)
    requires WellFormed(job.graph) && FlightsOk(job, c) && n in c.running && c.running[n].Finished?
    ensures FlightsOk(job, Popped(c, n))
  {
    assert Flying(job, c.outputs, n) && TaskOk(job, c.outputs, n, c.running[n]);
  }

  lemma PopKeeps(job: Job, c: Core, n: NodeId)
    requires WellFormed(job.graph) && CoreInv(job, c) && n in c.running && c.running[n].Finished?
    ensures CoreInv(job, Popped(c, n))
  {
    PopPlaces(job, c, n);
    PopFlights(job, c, n);
  }

  // ----- Storing -----

  /** Storing an output for a node nobody has started. */
  ghost function Stored(job: Job, c: Core, n: NodeId, out: NodeOutput): Core
    requires n in job.graph.edges
  {
    var c' := StoreCore(job, c, n, out);
    c'.(started := c'.started + {n})
  }

  lemma StoredRoutes(job: Job, c: Core, n: NodeId, out: NodeOutput)
    requires WellFormed(job.graph) && RoutesOk(job, c) && n in job.graph.edges && n !in c.outputs && n !in job.prefilled
    ensures RoutesOk(job, Stored(job, c, n, out))
  {
    var c' := Stored(job, c, n, out);
    forall u, v ensures (u, v) in c'.routed <==>
        u in c'.outputs && u in job.graph.edges && v in job.graph.edges[u] && ShouldRoute(job, u, c'.outputs[u], v)
    {
      assert (u, v) in c.routed ==> u != n;
    }
  }

  lemma StillSees(job: Job, c: Core, n: NodeId, out: NodeOutput, m: NodeId)
    requires WellFormed(job.graph) && n !in c.outputs && m in job.graph.reverse
    requires VerdictOn(job, m, Sees(job.graph, m, c.outputs)) != Waits
    ensures Sees(job.graph, m, c.outputs[n := out]) == Sees(job.graph, m, c.outputs)
  {
    var ups := job.graph.reverse[m];
    forall u | u in ups ensures u in c.outputs {
      assert u in Sees(job.graph, m, c.outputs);
    }
  }

  lemma StoredFlights(job: Job, c: Core, n: NodeId, out: NodeOutput)
    requires WellFormed(job.graph) && FlightsOk(job, c) && n in job.graph.edges && n !in c.outputs
    ensures FlightsOk(job, Stored(job, c, n, out))
  {
    var c' := Stored(job, c, n, out);
    forall m | m in c'.running ensures Flying(job, c'.outputs, m) && TaskOk(job, c'.outputs, m, c'.running[m]) {
      assert Flying(job, c.outputs, m) && TaskOk(job, c.outputs, m, c.running[m]);
      StillSees(job, c, n, out, m);
    }
    forall d | d in c'.queue ensures Flying(job, c'.outputs, d.node)
        && TaskOk(job, c'.outputs, d.node, Finished(d.out)) {
      assert Flying(job, c.outputs, d.node) && TaskOk(job, c.outputs, d.node, Finished(d.out));
      StillSees(job, c, n, out, d.node);
    }
  }

  lemma StoredOutputs(job: Job, c: Core, n: NodeId, out: NodeOutput)
    requires WellFormed(job.graph) && OutputsOk(job, c) && n in job.graph.edges && n !in c.outputs && n in Allowed(job)
    requires IsMerged(job.graph, n) || OutputFrom(job, n, Sees(job.graph, n, c.outputs)) == Some(out)
    ensures OutputsOk(job, Stored(job, c, n, out))
  {
    var c' := Stored(job, c, n, out);
    forall m | m in c'.outputs ensures OutputOk(job, c'.outputs, m) {
      if m != n {
        assert OutputOk(job, c.outputs, m);
      }
      if m !in job.prefilled && !IsMerged(job.graph, m) {
        StillSees(job, c, n, out, m);
      }
    }
  }

  lemma StoreKeeps(job: Job, c: Core, n: NodeId, out: NodeOutput)
    requires WellFormed(job.graph) && CoreInv(job, c) && n in job.graph.edges && n !in c.started && n in Allowed(job)
    requires IsMerged(job.graph, n) || OutputFrom(job, n, Sees(job.graph, n, c.outputs)) == Some(out)
    ensures CoreInv(job, Stored(job, c, n, out))
  {
    StoredRoutes(job, c, n, out);
    StoredFlights(job, c, n, out);
    StoredOutputs(job, c, n, out);
    StoredPlaces(job, c, n, out);
    StoredTables(job, c, n, out);
  }

  lemma StoredPlaces(job: Job, c: Core, n: NodeId, out: NodeOutput)
    requires Places(job, c) && n in job.graph.edges && n !in c.started
    requires n !in job.prefilled
    ensures Places(job, Stored(job, c, n, out))
  {
    assert Queued(Stored(job, c, n, out)) == Queued(c);
  }

  lemma StoredTables(job: Job, c: Core, n: NodeId, out: NodeOutput)
    requires PayloadsOk(job, c) && FailuresOk(job, c)
    requires n in job.graph.edges && n !in c.outputs && n !in job.prefilled
    ensures PayloadsOk(job, Stored(job, c, n, out)) && FailuresOk(job, Stored(job, c, n, out))
  {
  }

  ghost function Unqueued(c: Core): Core
    requires c.queue != []
  {
    c.(queue := c.queue[1..], started := c.started - {c.queue[0].node})
  }

  lemma UnqueueMembers(c: Core)
    requires c.queue != []
    requires forall i, j :: 0 <= i < j < |c.queue| ==> c.queue[i].node != c.queue[j].node
    ensures forall d {:trigger d in c.queue[1..]} :: d in c.queue[1..] ==> d in c.queue && d.node != c.queue[0].node
    ensures Queued(c) == Queued(Unqueued(c)) + {c.queue[0].node} && c.queue[0].node !in Queued(Unqueued(c))
  {
    var rest := c.queue[1..];
    assert c.queue == [c.queue[0]] + rest;
    forall d | d in rest ensures d in c.queue && d.node != c.queue[0].node {
      var j :| 0 <= j < |rest| && rest[j] == d;
      assert c.queue[j + 1] == d;
    }
  }

  lemma UnqueuePlaces(job: Job, c: Core)
    requires Places(job, c) && c.queue != []
    ensures Places(job, Unqueued(c)) && c.queue[0].node in job.graph.edges && c.queue[0].node !in Unqueued(c).started
    ensures Unqueued(c).started + {c.queue[0].node} == c.started
  {
    UnqueueMembers(c);
  }

  /** Taking the head off the queue leaves a state in which its node has not been started. */
  lemma UnqueueKeeps(job: Job, c: Core)
    requires WellFormed(job.graph) && CoreInv(job, c) && c.queue != []
    ensures var head := c.queue[0];
      && CoreInv(job, Unqueued(c)) && head.node in job.graph.edges && head.node !in Unqueued(c).started
      && Flying(job, c.outputs, head.node) && TaskOk(job, c.outputs, head.node, Finished(head.out))
      && Unqueued(c).started + {head.node} == c.started
  {
    UnqueuePlaces(job, c);
    UnqueueMembers(c);
    assert c.queue[0] in c.queue;
  }

  lemma StoreHeadKeeps(job: Job, s: State)
    requires WellFormed(job.graph) && CoreInv(job, s.core) && s.core.queue != []
    ensures s.core.queue[0].node in job.graph.edges && CoreInv(job, StoreHead(job, s).core)
  {
    var c := s.core;
    var head := c.queue[0];
    UnqueueKeeps(job, c);
    StoreKeeps(job, Unqueued(c), head.node, head.out);
    assert StoreHead(job, s).core == Stored(job, Unqueued(c), head.node, head.out);
  }

  lemma BlockKeeps(job: Job, s: State, n: NodeId)
    requires WellFormed(job.graph) && CoreInv(job, s.core) && Startable(job, s.core, n)
    requires Blocked(job, n, s.core.outputs, s.core.routed)
    ensures CoreInv(job, BlockNode(job, s, n).core)
  {
    var c := s.core;
    var out := UpstreamFailed(n, BlockingFailures(job, job.graph.reverse[n], n, c.outputs, c.routed), c.outputs);
    BlockedOutput(job, c, n);
    StoreKeeps(job, c, n, out);
    assert BlockNode(job, s, n).core == Stored(job, c, n, out);
  }
}
