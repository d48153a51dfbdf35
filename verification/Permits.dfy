/** The permits a run holds: who holds them, that none is lost or given back twice, and that none is left at the end. */
module Permits {
  import opened Wrappers
  import opened Graphs
  import opened DagModels
  import opened Jobs
  import opened Scheduler
  import opened Invariants
  import opened StreamItems
  import opened Safety

  /** A dispatched node whose output has not been stored yet. */
  ghost predicate InFlight(c: Core, n: NodeId) {
    n in c.running || n in Queued(c)
  }

  ghost predicate OpenIn(tasks: seq<StreamTask>, u: NodeId) {
    exists t :: t in tasks && t.upstream == u && t.out.None?
  }

  ghost predicate HasOpenItem(st: Streams, d: NodeId, u: NodeId) {
    d in st.tasks && OpenIn(st.tasks[d], u)
  }

  /** The permit that belongs to a key in the current state. */
  ghost function PermitDue(job: Job, c: Core, st: Streams, key: Key): Option<string> {
    match key
    case NodeKey(n) => if InFlight(c, n) && n in job.graph.instances then PermitOf(job.graph, n) else None
    case StreamKey(d, u) => if HasOpenItem(st, d, u) && d in job.graph.instances then job.graph.instances[d].resource
        else None
  }

  /** `acquired` holds exactly the permits that are due: of nodes in flight, and of stream items under way. */
  ghost predicate LedgerOk(job: Job, s: State) {
    forall key {:trigger key in s.ledger.acquired} ::
      var due := PermitDue(job, s.core, s.streams, key);
      (key in s.ledger.acquired <==> due.Some?) && (due.Some? ==> s.ledger.acquired[key] == due.value)
  }

  ghost function HeldOn(l: Ledger, r: string): set<Key> {
    set key | key in l.acquired && l.acquired[key] == r
  }

  /** The permits of a resource that are free or held by this run. */
  ghost function Balance(l: Ledger, r: string): nat {
    Free(l, r) + |HeldOn(l, r)|
  }

  // ----- Conservation -----

  lemma TakeOne(l: Ledger, key: Key, r: string, permit: string)
    requires key !in l.acquired
    ensures HeldOn(l.(acquired := l.acquired[key := permit]), r)
        == if permit == r then HeldOn(l, r) + {key} else HeldOn(l, r)
  {
  }

  lemma AcquireBalanced(l: Ledger, key: Key, permit: Option<string>, r: string)
    requires Available(l, permit) && key !in l.acquired
    ensures Balance(Acquire(l, key, permit), r) == Balance(l, r)
  {
    if permit.Some? {
      TakeOne(l, key, r, permit.value);
      assert HeldOn(Acquire(l, key, permit), r) == HeldOn(l.(acquired := l.acquired[key := permit.value]), r);
    }
  }

  lemma ReleaseBalanced(l: Ledger, key: Key, r: string)
    ensures Balance(Release(l, key), r) == Balance(l, r)
  {
    if key in l.acquired {
      var l' := Release(l, key);
      if l.acquired[key] == r {
        assert HeldOn(l, r) == HeldOn(l', r) + {key};
      } else {
        assert HeldOn(l', r) == HeldOn(l, r);
      }
    }
  }

  // ----- The ledger follows the state -----

  lemma DispatchLedger(job: Job, s: State, n: NodeId)
    requires WellFormed(job.graph) && LedgerOk(job, s) && Places(job, s.core)
    requires Startable(job, s.core, n) && Available(s.ledger, PermitOf(job.graph, n))
    ensures LedgerOk(job, DispatchNode(job, s, n)) && NodeKey(n) !in s.ledger.acquired
  {
    var s' := DispatchNode(job, s, n);
    assert !InFlight(s.core, n);
    assert Queued(s'.core) == Queued(s.core);
    assert PermitDue(job, s.core, s.streams, NodeKey(n)).None?;
    forall key ensures PermitDue(job, s'.core, s'.streams, key) ==
        if key == NodeKey(n) then PermitOf(job.graph, n) else PermitDue(job, s.core, s.streams, key)
    {
    }
  }

  /** A node stops being in flight and its permit goes back. */
  lemma StoreLedger(job: Job, s: State, s': State, n: NodeId)
    requires LedgerOk(job, s)
    requires s'.ledger == Release(s.ledger, NodeKey(n)) && !InFlight(s'.core, n)
    requires forall m {:trigger InFlight(s'.core, m)} :: m != n ==> (InFlight(s'.core, m) <==> InFlight(s.core, m))
    requires forall d, u {:trigger HasOpenItem(s'.streams, d, u)} ::
        HasOpenItem(s'.streams, d, u) <==> HasOpenItem(s.streams, d, u)
    ensures LedgerOk(job, s')
  {
    forall key ensures PermitDue(job, s'.core, s'.streams, key) ==
        if key == NodeKey(n) then None else PermitDue(job, s.core, s.streams, key)
    {
    }
  }

  lemma SameDues(job: Job, s: State, s': State)
    requires LedgerOk(job, s) && s'.ledger.acquired == s.ledger.acquired
    requires forall m {:trigger InFlight(s'.core, m)} :: InFlight(s'.core, m) <==> InFlight(s.core, m)
    requires forall d, u {:trigger HasOpenItem(s'.streams, d, u)} ::
        HasOpenItem(s'.streams, d, u) <==> HasOpenItem(s.streams, d, u)
    ensures LedgerOk(job, s')
  {
    forall key ensures PermitDue(job, s'.core, s'.streams, key) == PermitDue(job, s.core, s.streams, key) {
    }
  }

  lemma HeadLedger(job: Job, s: State)
    requires WellFormed(job.graph) && LedgerOk(job, s) && Places(job, s.core) && s.core.queue != []
        && s.core.queue[0].node in job.graph.edges
    ensures LedgerOk(job, StoreHead(job, s))
  {
    var head := s.core.queue[0];
    UnqueueMembers(s.core);
    assert Queued(StoreHead(job, s).core) == Queued(Unqueued(s.core));
    assert head in s.core.queue && head.node in Queued(s.core);
    StoreLedger(job, s, StoreHead(job, s), head.node);
  }

  lemma BlockLedger(job: Job, s: State, n: NodeId)
    requires WellFormed(job.graph) && LedgerOk(job, s) && Places(job, s.core) && Startable(job, s.core, n)
    ensures LedgerOk(job, BlockNode(job, s, n))
  {
    assert Queued(BlockNode(job, s, n).core) == Queued(s.core);
    StoreLedger(job, s, BlockNode(job, s, n), n);
  }

  lemma MergeLedger(job: Job, s: State, d: NodeId)
    requires WellFormed(job.graph) && Inv(job, s) && LedgerOk(job, s) && Enabled(job, s, MergeStreams(d))
    ensures LedgerOk(job, MergeNode(job, s, d))
  {
    assert ItemsOk(job, s.core, s.streams, d);
    MergedNotStarted(job, s.core, d);
    MergeDues(job, s, d);
  }

  lemma MergeDues(job: Job, s: State, d: NodeId)
    requires Places(job, s.core) && LedgerOk(job, s) && d in s.streams.tasks && AllStreamsDone(s.streams.tasks[d])
    requires d in job.graph.edges && d !in s.core.started
    ensures LedgerOk(job, MergeNode(job, s, d))
  {
    var s' := MergeNode(job, s, d);
    assert Queued(s'.core) == Queued(s.core);
    forall e, u ensures HasOpenItem(s'.streams, e, u) <==> HasOpenItem(s.streams, e, u) {
      assert e != d ==> (e in s'.streams.tasks <==> e in s.streams.tasks);
    }
    StoreLedger(job, s, s', d);
  }

  lemma FinishLedger(job: Job, s: State, d: NodeId, i: nat)
    requires WellFormed(job.graph) && Inv(job, s) && LedgerOk(job, s) && Enabled(job, s, StreamDone(d, i))
    ensures LedgerOk(job, FinishStream(job, s, d, i))
  {
    assert ItemsOk(job, s.core, s.streams, d);
    FinishDues(job, s, d, i);
  }

  lemma FinishDues(job: Job, s: State, d: NodeId, i: nat)
    requires LedgerOk(job, s) && d in job.graph.reverse && d in s.streams.tasks && i < |s.streams.tasks[d]|
    requires s.streams.tasks[d][i].out.None?
    requires forall j, k ::
        0 <= j < k < |s.streams.tasks[d]| ==> s.streams.tasks[d][j].upstream != s.streams.tasks[d][k].upstream
    ensures LedgerOk(job, FinishStream(job, s, d, i))
  {
    var s' := FinishStream(job, s, d, i);
    var u := s.streams.tasks[d][i].upstream;
    forall e, w ensures HasOpenItem(s'.streams, e, w) <==> HasOpenItem(s.streams, e, w) && !(e == d && w == u) {
      if e == d {
        OpenItemsAfter(s.streams.tasks[d], s'.streams.tasks[d], i, w);
      }
    }
    forall key ensures PermitDue(job, s'.core, s'.streams, key) ==
        if key == StreamKey(d, u) then None else PermitDue(job, s.core, s.streams, key)
    {
    }
  }

  lemma OpenItemsAfter(before: seq<StreamTask>, after: seq<StreamTask>, i: nat, w: NodeId)
    requires i < |before| && before[i].out.None?
    requires exists out :: after == before[i := before[i].(out := Some(out))]
    requires forall j, k :: 0 <= j < k < |before| ==> before[j].upstream != before[k].upstream
    ensures OpenIn(after, w) <==> OpenIn(before, w) && w != before[i].upstream
  {
    if OpenIn(after, w) {
      var t :| t in after && t.upstream == w && t.out.None?;
      var j :| 0 <= j < |after| && after[j] == t;
      assert before[j] in before;
    }
    if OpenIn(before, w) && w != before[i].upstream {
      var t :| t in before && t.upstream == w && t.out.None?;
      var j :| 0 <= j < |before| && before[j] == t;
      assert after[j] in after;
    }
  }

  lemma LaunchLedger(job: Job, s: State, u: NodeId, d: NodeId)
    requires LedgerOk(job, s) && NoStaleItem(s.streams)
    ensures LedgerOk(job, Launch(job, s, u, d)) && NoStaleItem(Launch(job, s, u, d).streams)
    ensures Launchable(job, s, u, d) ==> StreamKey(d, u) !in s.ledger.acquired
  {
    if Launchable(job, s, u, d) {
      var s' := Launch(job, s, u, d);
      var t := StreamTask(u, s.core.outputs[u].payload, None);
      var before := if d in s.streams.tasks then s.streams.tasks[d] else [];
      assert s'.streams.tasks[d] == before + [t];
      assert PermitDue(job, s.core, s.streams, StreamKey(d, u)).None?;
      forall e, w ensures HasOpenItem(s'.streams, e, w) <==> HasOpenItem(s.streams, e, w) || (e == d && w == u) {
        if HasOpenItem(s.streams, e, w) {
          var x :| x in s.streams.tasks[e] && x.upstream == w && x.out.None?;
          assert x in s'.streams.tasks[e];
        }
        if e == d && w == u {
          assert t in s'.streams.tasks[d];
        }
      }
      forall key ensures PermitDue(job, s'.core, s'.streams, key) ==
          if key == StreamKey(d, u) then job.graph.instances[d].resource else PermitDue(job, s.core, s.streams, key)
      {
      }
    }
  }

  /** An item under way belongs to an accumulated edge. */
  ghost predicate NoStaleItem(st: Streams) {
    forall d, u {:trigger HasOpenItem(st, d, u)} :: HasOpenItem(st, d, u) ==> (u, d) in st.accumulated
  }

  lemma ItemsNotStale(job: Job, c: Core, st: Streams)
    requires WellFormed(job.graph) && TasksOk(job, c, st)
    ensures NoStaleItem(st)
  {
    forall d, u | HasOpenItem(st, d, u) ensures (u, d) in st.accumulated {
      var t :| t in st.tasks[d] && t.upstream == u && t.out.None?;
      assert ItemsOk(job, c, st, d) && ItemOk(job, c, st.accumulated, d, t);
    }
  }

  ghost predicate SameBalances(l: Ledger, l': Ledger) {
    forall r :: Balance(l', r) == Balance(l, r)
  }

  lemma {:induction false} LaunchFromLedger(job: Job, s: State, ups: seq<NodeId>, d: NodeId)
    requires LedgerOk(job, s) && NoStaleItem(s.streams)
    ensures var s' := LaunchFrom(job, s, ups, d);
      LedgerOk(job, s') && NoStaleItem(s'.streams) && SameBalances(s.ledger, s'.ledger)
  {
    if ups != [] {
      var u, before := ups[|ups| - 1], LaunchFrom(job, s, ups[..|ups| - 1], d);
      LaunchFromLedger(job, s, ups[..|ups| - 1], d);
      LaunchLedger(job, before, u, d);
      if Launchable(job, before, u, d) {
        forall r ensures Balance(Launch(job, before, u, d).ledger, r) == Balance(before.ledger, r) {
          AcquireBalanced(before.ledger, StreamKey(d, u), job.graph.instances[d].resource, r);
        }
      }
    }
  }

  lemma {:induction false} LaunchAllLedger(job: Job, s: State, nodes: seq<NodeId>)
    requires LedgerOk(job, s) && NoStaleItem(s.streams)
    requires forall d :: d in nodes ==> d in job.graph.reverse
    ensures var s' := LaunchAll(job, s, nodes);
      LedgerOk(job, s') && NoStaleItem(s'.streams) && SameBalances(s.ledger, s'.ledger)
  {
    if nodes != [] {
      var d := nodes[|nodes| - 1];
      assert d in nodes && forall x :: x in nodes[..|nodes| - 1] ==> x in nodes;
      LaunchAllLedger(job, s, nodes[..|nodes| - 1]);
      LaunchFromLedger(job, LaunchAll(job, s, nodes[..|nodes| - 1]), job.graph.reverse[d], d);
    }
  }

  lemma ScanLedger(job: Job, s: State)
    requires WellFormed(job.graph) && Inv(job, s) && LedgerOk(job, s)
    ensures LedgerOk(job, ScanStep(job, s)) && SameBalances(s.ledger, ScanStep(job, s).ledger)
  {
    ItemsNotStale(job, s.core, s.streams);
    if s.stopped {
      SameDues(job, s, ScanStep(job, s));
    } else {
      LaunchAllLedger(job, s, job.graph.nodes);
      var launched := LaunchAll(job, s, job.graph.nodes);
      SameDues(job, launched, ScanStep(job, s));
    }
  }

  lemma StepLedger(job: Job, s: State, step: Step)
    requires WellFormed(job.graph) && Inv(job, s) && LedgerOk(job, s) && Enabled(job, s, step)
    ensures LedgerOk(job, Apply(job, s, step))
  {
    match step
    case Dispatch(n) => DispatchLedger(job, s, n);
    case Block(n) => BlockLedger(job, s, n);
    case Execute(n) => SameDues(job, s, s.(core := ExecuteNode(job, s.core, n)));
    case Pop(n) => PopLedger(job, s, n);
    case Store => HeadLedger(job, s);
    case Scan => ScanLedger(job, s);
    case StreamDone(n, i) => FinishLedger(job, s, n, i);
    case MergeStreams(n) => MergeLedger(job, s, n);
    case SetFree(_) =>
    case Stop =>
  }

  lemma PopLedger(job: Job, s: State, n: NodeId)
    requires LedgerOk(job, s) && n in s.core.running && s.core.running[n].Finished?
    ensures LedgerOk(job, s.(core := Popped(s.core, n)))
  {
    PopQueued(s.core, n);
    SameDues(job, s, s.(core := Popped(s.core, n)));
  }

  lemma PopQueued(c: Core, n: NodeId)
    requires n in c.running && c.running[n].Finished?
    ensures Queued(Popped(c, n)) == Queued(c) + {n}
  {
    var c' := Popped(c, n);
    assert c'.queue[|c.queue|] in c'.queue;
    assert forall d :: d in c.queue ==> d in c'.queue;
  }

  /** No step of the run changes how many permits of a resource are free or held by it. */
  lemma StepBalanced(job: Job, s: State, step: Step, r: string)
    requires WellFormed(job.graph) && Inv(job, s) && LedgerOk(job, s) && Enabled(job, s, step) && !step.SetFree?
    ensures Balance(Apply(job, s, step).ledger, r) == Balance(s.ledger, r)
  {
    match step
    case Dispatch(n) =>
      DispatchLedger(job, s, n);
      AcquireBalanced(s.ledger, NodeKey(n), PermitOf(job.graph, n), r);
    case Block(n) => ReleaseBalanced(s.ledger, NodeKey(n), r);
    case Store => ReleaseBalanced(s.ledger, NodeKey(s.core.queue[0].node), r);
    case Scan => ScanLedger(job, s);
    case StreamDone(n, i) => ReleaseBalanced(s.ledger, StreamKey(n, s.streams.tasks[n][i].upstream), r);
    case MergeStreams(n) => ReleaseBalanced(s.ledger, NodeKey(n), r);
    case _ =>
  }

  // ----- Whole runs -----

  lemma {:induction false} StartUpLedger(job: Job, s: State, nodes: seq<NodeId>)
    requires WellFormed(job.graph) && Inv(job, s) && LedgerOk(job, s)
    ensures LedgerOk(job, StartUp(job, s, nodes)) && SameBalances(s.ledger, StartUp(job, s, nodes).ledger)
  {
    if nodes != [] {
      var n, before := nodes[|nodes| - 1], StartUp(job, s, nodes[..|nodes| - 1]);
      StartUpLedger(job, s, nodes[..|nodes| - 1]);
      StartUpKeeps(job, s, nodes[..|nodes| - 1]);
      if Startable(job, before.core, n) && job.graph.reverse[n] == []
          && Available(before.ledger, PermitOf(job.graph, n)) {
        DispatchLedger(job, before, n);
        forall r ensures Balance(DispatchNode(job, before, n).ledger, r) == Balance(before.ledger, r) {
          AcquireBalanced(before.ledger, NodeKey(n), PermitOf(job.graph, n), r);
        }
      }
    }
  }

  lemma StartLedger(job: Job, free: map<string, nat>, stopped: bool)
    requires WellFormed(job.graph)
    ensures LedgerOk(job, StartState(job, free, stopped))
    ensures forall r :: Balance(StartState(job, free, stopped).ledger, r) == Free(Ledger(map[], free), r)
  {
    var initial := InitialState(job, free, stopped);
    PrefilledKeeps(job);
    assert Queued(initial.core) == {};
    StartUpLedger(job, initial, job.graph.nodes);
    forall r ensures Balance(initial.ledger, r) == Free(Ledger(map[], free), r) {
      assert HeldOn(initial.ledger, r) == {};
    }
  }

  lemma {:induction false} RunLedger(job: Job, s: State, steps: seq<Step>)
    requires WellFormed(job.graph) && Inv(job, s) && LedgerOk(job, s) && Legal(job, s, steps)
    ensures LedgerOk(job, After(job, s, steps))
    ensures (forall step :: step in steps ==> !step.SetFree?) ==> SameBalances(s.ledger, After(job, s, steps).ledger)
    decreases |steps|
  {
    if steps != [] {
      StepLedger(job, s, steps[0]);
      StepSafe(job, s, steps[0]);
      RunLedger(job, Apply(job, s, steps[0]), steps[1..]);
      if forall step :: step in steps ==> !step.SetFree? {
        assert forall step :: step in steps[1..] ==> step in steps;
        forall r ensures Balance(After(job, s, steps).ledger, r) == Balance(s.ledger, r) {
          StepBalanced(job, s, steps[0], r);
        }
      }
    }
  }

  /** With nothing on its way, nothing is held. */
  lemma QuietLedgerEmpty(job: Job, s: State)
    requires WellFormed(job.graph) && LedgerOk(job, s) && s.core.running == map[] && s.core.queue == []
        && !HasPendingStream(s.streams)
    ensures s.ledger.acquired == map[]
  {
    assert Queued(s.core) == {};
    forall key ensures PermitDue(job, s.core, s.streams, key).None? {
    }
  }

  /**
   During any run the ledger is exact; when the loop has ended it is empty, and every permit the run took is free
   again.
   */
  lemma RunReturnsPermits(job: Job, free: map<string, nat>, stopped: bool, steps: seq<Step>)
    requires ValidJob(job) && Legal(job, StartState(job, free, stopped), steps)
    ensures var end := After(job, StartState(job, free, stopped), steps);
      && LedgerOk(job, end)
      && (Exited(job, end) ==> end.ledger.acquired == map[])
      && (Exited(job, end) && (forall step :: step in steps ==> !step.SetFree?) ==>
            forall r :: Free(end.ledger, r) == Free(Ledger(map[], free), r))
  {
    var start := StartState(job, free, stopped);
    StartIsSound(job, free, stopped);
    StartLedger(job, free, stopped);
    RunLedger(job, start, steps);
    var end := After(job, start, steps);
    if Exited(job, end) {
      QuietLedgerEmpty(job, end);
      forall r ensures Balance(end.ledger, r) == Free(end.ledger, r) {
        assert HeldOn(end.ledger, r) == {};
      }
    }
  }

  // ----- The exception paths -----

  /** `_release_all` */
  function ReleaseAll(l: Ledger, keys: seq<Key>): Ledger {
    if keys == [] then l else Release(ReleaseAll(l, keys[..|keys| - 1]), keys[|keys| - 1])
  }

  lemma {:induction false} ReleaseAllSteps(l: Ledger, keys: seq<Key>, r: string)
    ensures Balance(ReleaseAll(l, keys), r) == Balance(l, r)
    ensures forall key {:trigger key in ReleaseAll(l, keys).acquired} ::
        key in ReleaseAll(l, keys).acquired <==> key in l.acquired && key !in keys
  {
    if keys != [] {
      var front, last := keys[..|keys| - 1], keys[|keys| - 1];
      assert keys == front + [last];
      ReleaseAllSteps(l, front, r);
      ReleaseBalanced(ReleaseAll(l, front), last, r);
    }
  }

  /**
   After `_release_all` every permit of the run is free, and a stream item that finishes later gives nothing back
   twice.
   */
  lemma ReleaseAllEmpties(l: Ledger, keys: seq<Key>, r: string, late: Key)
    requires forall key :: key in l.acquired ==> key in keys
    ensures ReleaseAll(l, keys).acquired == map[]
    ensures Free(ReleaseAll(l, keys), r) == Balance(l, r)
    ensures Release(ReleaseAll(l, keys), late) == ReleaseAll(l, keys)
  {
    ReleaseAllSteps(l, keys, r);
    assert HeldOn(ReleaseAll(l, keys), r) == {};
  }
}
