/** What every step keeps about the stream items of accumulating nodes. */
module StreamItems {
  import opened Wrappers
  import opened Graphs
  import opened DagModels
  import opened Jobs
  import opened Scheduler
  import opened Invariants

  /** A stream item belongs to an edge that has been marked accumulated, and carries the output of its upstream. */
  ghost predicate ItemOk(job: Job, c: Core, accumulated: set<Edge>, d: NodeId, t: StreamTask)
    requires d in job.graph.reverse
  {
    && t.upstream in job.graph.reverse[d] && (t.upstream, d) in accumulated
    && t.upstream in c.outputs && t.payload == c.outputs[t.upstream].payload
  }

  ghost predicate ItemsOk(job: Job, c: Core, st: Streams, d: NodeId)
    requires WellFormed(job.graph) && d in st.tasks
  {
    && d in job.graph.reverse && IsMerged(job.graph, d) && d in Allowed(job) && d !in c.outputs && d !in job.prefilled
    && (forall t {:trigger t in st.tasks[d]} :: t in st.tasks[d] ==> ItemOk(job, c, st.accumulated, d, t))
    && (forall i, j :: 0 <= i < j < |st.tasks[d]| ==> st.tasks[d][i].upstream != st.tasks[d][j].upstream)
  }

  ghost predicate HasItem(st: Streams, d: NodeId, u: NodeId) {
    d in st.tasks && exists t :: t in st.tasks[d] && t.upstream == u
  }

  /**
   An accumulated edge was routed when it was launched, after its upstream was scanned, and has its item until
   the node is merged.
   */
  ghost predicate AccumulatedOk(job: Job, c: Core, st: Streams, u: NodeId, d: NodeId) {
    && u in c.outputs && (u, d) in c.routed && u !in st.unscanned
    && (d in c.outputs || HasItem(st, d, u))
  }

  /** A node that waits for stream items and needs no permit for them. */
  ghost predicate Accumulates(job: Job, c: Core, d: NodeId)
    requires WellFormed(job.graph)
  {
    && d in job.graph.reverse && IsMerged(job.graph, d) && d in Allowed(job) && d !in c.outputs
    && job.graph.instances[d].resource.None?
  }

  /** Such a node has an item for every routed edge out of a scanned upstream. */
  ghost predicate ScannedOk(job: Job, c: Core, st: Streams)
    requires WellFormed(job.graph)
  {
    forall u, d {:trigger (u, d) in st.accumulated} ::
      Accumulates(job, c, d) && u in job.graph.reverse[d] && u in c.outputs && (u, d) in c.routed && u !in st.unscanned
      ==> (u, d) in st.accumulated
  }

  ghost predicate TasksOk(job: Job, c: Core, st: Streams)
    requires WellFormed(job.graph)
  {
    forall d {:trigger ItemsOk(job, c, st, d)} :: d in st.tasks ==> ItemsOk(job, c, st, d)
  }

  ghost predicate EdgesOk(job: Job, c: Core, st: Streams) {
    forall u, d {:trigger (u, d) in st.accumulated} :: (u, d) in st.accumulated ==> AccumulatedOk(job, c, st, u, d)
  }

  ghost predicate StreamsOk(job: Job, c: Core, st: Streams)
    requires WellFormed(job.graph)
  {
    && TasksOk(job, c, st) && EdgesOk(job, c, st) && ScannedOk(job, c, st)
    && st.unscanned <= c.outputs.Keys
  }

  // ----- Launching -----

  ghost function Launched(st: Streams, d: NodeId, t: StreamTask): Streams {
    st.(tasks := st.tasks[d := (if d in st.tasks then st.tasks[d] else []) + [t]], accumulated := st.accumulated
        + {(t.upstream, d)})
  }

  lemma LaunchedItems(job: Job, c: Core, st: Streams, d: NodeId, t: StreamTask)
    requires WellFormed(job.graph) && TasksOk(job, c, st) && EdgesOk(job, c, st)
    requires d in job.graph.reverse && IsMerged(job.graph, d) && d in Allowed(job) && d !in c.outputs
        && d !in job.prefilled
    requires t.upstream in job.graph.reverse[d] && t.upstream in c.outputs && t.payload == c.outputs[t.upstream].payload
    requires (t.upstream, d) !in st.accumulated
    ensures TasksOk(job, c, Launched(st, d, t))
  {
    var st' := Launched(st, d, t);
    forall e | e in st'.tasks ensures ItemsOk(job, c, st', e) {
      if e == d {
        if d in st.tasks {
          assert ItemsOk(job, c, st, d);
          ItemsExtended(job, c, st, d, t);
        }
      } else {
        assert ItemsOk(job, c, st, e);
      }
    }
  }

  lemma ItemsExtended(job: Job, c: Core, st: Streams, d: NodeId, t: StreamTask)
    requires WellFormed(job.graph) && d in st.tasks && ItemsOk(job, c, st, d)
    requires t.upstream in job.graph.reverse[d] && t.upstream in c.outputs && t.payload == c.outputs[t.upstream].payload
    requires (t.upstream, d) !in st.accumulated
    ensures ItemsOk(job, c, Launched(st, d, t), d)
  {
    var before, after := st.tasks[d], st.tasks[d] + [t];
    forall i, j | 0 <= i < j < |after| ensures after[i].upstream != after[j].upstream {
      assert before[i] in before && ItemOk(job, c, st.accumulated, d, before[i]);
    }
    forall x | x in after ensures ItemOk(job, c, Launched(st, d, t).accumulated, d, x) {
      assert x in before || x == t;
    }
  }

  lemma ItemsGrow(st: Streams, d: NodeId, t: StreamTask, e: NodeId, u: NodeId)
    requires HasItem(st, e, u) || (e == d && u == t.upstream)
    ensures HasItem(Launched(st, d, t), e, u)
  {
    var st' := Launched(st, d, t);
    if e == d && u == t.upstream {
      assert t in st'.tasks[d];
    } else {
      var x :| x in st.tasks[e] && x.upstream == u;
      assert x in st'.tasks[e];
    }
  }

  lemma LaunchedEdges(job: Job, c: Core, st: Streams, d: NodeId, t: StreamTask)
    requires EdgesOk(job, c, st)
    requires t.upstream in c.outputs && (t.upstream, d) in c.routed && t.upstream !in st.unscanned
    ensures EdgesOk(job, c, Launched(st, d, t))
  {
    var st' := Launched(st, d, t);
    forall u, e | (u, e) in st'.accumulated ensures AccumulatedOk(job, c, st', u, e) {
      if e !in c.outputs {
        assert (u, e) in st.accumulated || (u == t.upstream && e == d);
        ItemsGrow(st, d, t, e, u);
      }
    }
  }

  /** While a scan is under way, nothing counts as unscanned. */
  ghost predicate MidScan(job: Job, s: State)
    requires WellFormed(job.graph)
  {
    var st := s.streams.(unscanned := {});
    TasksOk(job, s.core, st) && EdgesOk(job, s.core, st) && PrefilledPlaced(job, s.core)
  }

  ghost predicate PrefilledPlaced(job: Job, c: Core) {
    forall n {:trigger n in job.prefilled} :: n in job.prefilled && n in job.graph.instances ==> n in c.outputs
  }

  lemma LaunchKeeps(job: Job, s: State, u: NodeId, d: NodeId)
    requires WellFormed(job.graph) && MidScan(job, s) && d in job.graph.reverse && u in job.graph.reverse[d]
    ensures var s' := Launch(job, s, u, d);
      && MidScan(job, s') && s'.core == s.core && s'.stopped == s.stopped && s'.streams.unscanned == s.streams.unscanned
      && s.streams.accumulated <= s'.streams.accumulated
      && (Accumulates(job, s.core, d) && u in s.core.outputs && (u, d) in s.core.routed ==>
          (u, d) in s'.streams.accumulated)
  {
    if Launchable(job, s, u, d) {
      var t := StreamTask(u, s.core.outputs[u].payload, None);
      var st := s.streams.(unscanned := {});
      LaunchedItems(job, s.core, st, d, t);
      LaunchedEdges(job, s.core, st, d, t);
    }
  }

  lemma {:induction false} LaunchFromKeeps(job: Job, s: State, ups: seq<NodeId>, d: NodeId)
    requires WellFormed(job.graph) && MidScan(job, s) && d in job.graph.reverse
    requires forall u {:trigger u in ups} :: u in ups ==> u in job.graph.reverse[d]
    ensures var s' := LaunchFrom(job, s, ups, d);
      && MidScan(job, s') && s'.core == s.core && s'.stopped == s.stopped && s'.streams.unscanned == s.streams.unscanned
      && s.streams.accumulated <= s'.streams.accumulated
      && (forall u {:trigger u in ups} ::
            u in ups && Accumulates(job, s.core, d) && u in s.core.outputs && (u, d) in s.core.routed
            ==> (u, d) in s'.streams.accumulated)
  {
    if ups != [] {
      var front, last := ups[..|ups| - 1], ups[|ups| - 1];
      assert ups == front + [last];
      assert last in ups && forall w :: w in front ==> w in ups;
      LaunchFromKeeps(job, s, front, d);
      LaunchKeeps(job, LaunchFrom(job, s, front, d), last, d);
    }
  }

  lemma {:induction false} LaunchAllKeeps(job: Job, s: State, nodes: seq<NodeId>)
    requires WellFormed(job.graph) && MidScan(job, s)
    requires forall d :: d in nodes ==> d in job.graph.reverse
    ensures var s' := LaunchAll(job, s, nodes);
      && MidScan(job, s') && s'.core == s.core && s'.stopped == s.stopped && s'.streams.unscanned == s.streams.unscanned
      && s.streams.accumulated <= s'.streams.accumulated
      && (forall u, d {:trigger (u, d) in s'.streams.accumulated} ::
            d in nodes && Accumulates(job, s.core, d) && u in job.graph.reverse[d]
            && u in s.core.outputs && (u, d) in s.core.routed
            ==> (u, d) in s'.streams.accumulated)
  {
    if nodes != [] {
      var front, last := nodes[..|nodes| - 1], nodes[|nodes| - 1];
      assert nodes == front + [last];
      LaunchAllKeeps(job, s, front);
      LaunchFromKeeps(job, LaunchAll(job, s, front), job.graph.reverse[last], last);
    }
  }

  lemma ScanKeeps(job: Job, s: State)
    requires WellFormed(job.graph) && StreamsOk(job, s.core, s.streams) && PrefilledPlaced(job, s.core)
    ensures ScanStep(job, s).core == s.core && StreamsOk(job, s.core, ScanStep(job, s).streams)
  {
    if s.stopped {
      SameTasks(job, s.core, s.streams, s.streams.(scanning := false));
    } else {
      SameTasks(job, s.core, s.streams, s.streams.(unscanned := {}));
      LaunchAllKeeps(job, s, job.graph.nodes);
      var launched := LaunchAll(job, s, job.graph.nodes);
      SameTasks(job, s.core, launched.streams.(unscanned := {}), ScanStep(job, s).streams);
    }
  }

  /** The stream invariants do not look at the `scanning` flag, and forgetting unscanned nodes keeps the edges sound. */
  lemma SameTasks(job: Job, c: Core, st: Streams, st': Streams)
    requires WellFormed(job.graph) && TasksOk(job, c, st) && EdgesOk(job, c, st)
    requires st'.tasks == st.tasks && st'.accumulated == st.accumulated && st'.unscanned <= st.unscanned
    ensures TasksOk(job, c, st') && EdgesOk(job, c, st')
  {
    forall d | d in st'.tasks ensures ItemsOk(job, c, st', d) {
      assert ItemsOk(job, c, st, d);
    }
    forall u, d | (u, d) in st'.accumulated ensures AccumulatedOk(job, c, st', u, d) {
      assert AccumulatedOk(job, c, st, u, d);
    }
  }

  // ----- Finishing an item -----

  lemma FinishKeeps(job: Job, c: Core, st: Streams, d: NodeId, i: nat, out: NodeOutput)
    requires WellFormed(job.graph) && StreamsOk(job, c, st) && d in st.tasks && i < |st.tasks[d]|
    ensures StreamsOk(job, c, st.(tasks := st.tasks[d := st.tasks[d][i := st.tasks[d][i].(out := Some(out))]]))
  {
    var before := st.tasks[d];
    var after := before[i := before[i].(out := Some(out))];
    var st' := st.(tasks := st.tasks[d := after]);
    forall j | 0 <= j < |after| ensures after[j].upstream == before[j].upstream
        && after[j].payload == before[j].payload {
    }
    forall e | e in st'.tasks ensures ItemsOk(job, c, st', e) {
      assert ItemsOk(job, c, st, e);
      if e == d {
        forall t | t in after ensures ItemOk(job, c, st'.accumulated, d, t) {
          var j :| 0 <= j < |after| && after[j] == t;
          assert before[j] in before;
        }
      }
    }
    forall u, e | (u, e) in st'.accumulated ensures AccumulatedOk(job, c, st', u, e) {
      assert AccumulatedOk(job, c, st, u, e);
      if HasItem(st, e, u) && e == d {
        var t :| t in before && t.upstream == u;
        var j :| 0 <= j < |before| && before[j] == t;
        assert after[j] in after;
      }
    }
  }

  // ----- Storing an output -----

  /** A new output of a node without stream items, which no scan has seen. */
  lemma OutputKeeps(job: Job, c: Core, st: Streams, n: NodeId, out: NodeOutput, st': Streams)
    requires WellFormed(job.graph) && StreamsOk(job, c, st)
    requires n in job.graph.edges && n !in c.outputs
    requires st'.tasks == st.tasks - {n} && st'.accumulated == st.accumulated && st'.unscanned == st.unscanned + {n}
    ensures StreamsOk(job, StoreCore(job, c, n, out), st')
  {
    var c' := StoreCore(job, c, n, out);
    forall e | e in st'.tasks ensures ItemsOk(job, c', st', e) {
      assert ItemsOk(job, c, st, e);
      forall t | t in st'.tasks[e] ensures ItemOk(job, c', st'.accumulated, e, t) {
        assert ItemOk(job, c, st.accumulated, e, t);
      }
    }
    forall u, e | (u, e) in st'.accumulated ensures AccumulatedOk(job, c', st', u, e) {
      assert AccumulatedOk(job, c, st, u, e);
      if e !in c'.outputs {
        var t :| t in st.tasks[e] && t.upstream == u;
        assert t in st'.tasks[e];
      }
    }
    forall u, e | Accumulates(job, c', e) && u in job.graph.reverse[e] && u in c'.outputs && (u, e) in c'.routed
        && u !in st'.unscanned
      ensures (u, e) in st'.accumulated
    {
      assert Accumulates(job, c, e);
    }
  }
}
