/**
 A run in which an accumulating node loses a result: `d` accumulates over `s` and over `a`, and `a`
 accumulates over `s`. When `a` is merged, its result is stored but no stream item is launched for
 it, so `d` is merged without it.
 */
module LostStream {
  import opened Wrappers
  import opened Graphs
  import opened DagModels
  import opened Helpers
  import opened Jobs
  import opened Scheduler
  import opened StreamOnce

  ghost function Node(id: NodeId, mode: FanInMode): Instance {
    Instance(id, "plain", None, false, mode, false, None, Null)
  }

  ghost function Diamond(): DagGraph {
    DagGraph("diamond", ["s", "a", "d"],
      map["s" := Node("s", Barrier), "a" := Node("a", Accumulate), "d" := Node("d", Accumulate)],
      map["s" := ["a", "d"], "a" := ["d"], "d" := []],
      map["s" := [], "a" := ["s"], "d" := ["s", "a"]],
      {}, {}, {}, map[], map[])
  }

  ghost function Succeed(n: NodeId): NodeOutput {
    NodeOutput(n, true, Num(1), map[], None)
  }

  ghost function DiamondJob(): Job {
    Job(Diamond(), map[], {}, (n: NodeId, slot: Slot, input: NodeInput) => Succeed(n), (c: string, v: Value) => true,
        RunInputs(Null, map[], {}), {}, map[])
  }

  lemma DiamondIsMirrored()
    ensures Mirrored(Diamond().edges, Diamond().reverse)
  {
    var g := Diamond();
    assert multiset(["a", "d"]) == multiset{"a", "d"} && multiset(["s", "a"]) == multiset{"s", "a"};
    forall u, v | u in g.edges && v in g.reverse ensures SameCount(g.edges, g.reverse, u, v) {
    }
  }

  lemma DiamondIsWellFormed()
    ensures WellFormed(Diamond())
  {
    DiamondIsMirrored();
    assert Elements(Diamond().nodes) == {"s", "a", "d"};
  }

  ghost function Item(out: Option<NodeOutput>): StreamTask {
    StreamTask("s", Num(1), out)
  }

  ghost function CoreAt(running: map<NodeId, Task>, queue: seq<Done>): Core {
    Core(map[], map[], map[], {}, {"s"}, running, queue)
  }

  ghost function CoreAfterSource(): Core {
    Core(map["s" := Succeed("s")], map["s" := Num(1)], map[], {("s", "a"), ("s", "d")}, {"s"}, map[], [])
  }

  ghost function Quiet(core: Core, streams: Streams): State {
    State(core, streams, Ledger(map[], map[]), false)
  }

  ghost function Created0(): State {
    Quiet(CoreAt(map["s" := Created(None)], []), Streams(map[], {}, false, {}))
  }

  ghost function Stored0(): State {
    Quiet(CoreAfterSource(), Streams(map[], {}, true, {"s"}))
  }

  ghost function Launched0(a: Option<NodeOutput>, d: Option<NodeOutput>): State {
    Quiet(CoreAfterSource(), Streams(map["a" := [Item(a)], "d" := [Item(d)]], {("s", "a"), ("s", "d")}, false, {}))
  }

  lemma StartsWithSource()
    ensures StartState(DiamondJob(), map[], false) == Created0()
  {
    var job := DiamondJob();
    var initial := InitialState(job, map[], false);
    assert initial.core == Core(map[], map[], map[], {}, {}, map[], []);
    assert ["s", "a", "d"][..2] == ["s", "a"] && ["s", "a"][..1] == ["s"] && ["s"][..0] == [];
    assert "s" in Elements(job.graph.nodes);
    assert StartUp(job, initial, []) == initial;
    assert StartUp(job, initial, ["s"]) == Created0();
    assert StartUp(job, initial, ["s", "a"]) == Created0();
    assert StartUp(job, initial, ["s", "a", "d"]) == Created0();
  }

  ghost function Executed0(): State {
    Quiet(CoreAt(map["s" := Finished(Succeed("s"))], []), Streams(map[], {}, false, {}))
  }

  ghost function Queued0(): State {
    Quiet(CoreAt(map[], [Done("s", Succeed("s"))]), Streams(map[], {}, false, {}))
  }

  lemma SourceSteps()
    ensures WellFormed(Diamond())
      && Enabled(DiamondJob(), Created0(), Execute("s")) && Apply(DiamondJob(), Created0(), Execute("s")) == Executed0()
      && Enabled(DiamondJob(), Executed0(), Pop("s")) && Apply(DiamondJob(), Executed0(), Pop("s")) == Queued0()
  {
    DiamondIsWellFormed();
  }

  lemma SourceStored()
    ensures WellFormed(Diamond())
      && Enabled(DiamondJob(), Queued0(), Store) && Apply(DiamondJob(), Queued0(), Store) == Stored0()
  {
    DiamondIsWellFormed();
  }

  lemma SourceIsStored()
    ensures WellFormed(Diamond()) && Legal(DiamondJob(), Created0(), [Execute("s"), Pop("s"), Store])
      && After(DiamondJob(), Created0(), [Execute("s"), Pop("s"), Store]) == Stored0()
  {
    SourceSteps();
    SourceStored();
    StepFirst(DiamondJob(), Queued0(), Store, []);
    StepFirst(DiamondJob(), Executed0(), Pop("s"), [Store] + []);
    StepFirst(DiamondJob(), Created0(), Execute("s"), [Pop("s")] + ([Store] + []));
    assert [Execute("s"), Pop("s"), Store] == [Execute("s")] + ([Pop("s")] + ([Store] + []));
  }

  /** The scan has come to `a`. */
  ghost function LaunchedA(): State {
    var s := Stored0();
    s.(streams := s.streams.(tasks := map["a" := [Item(None)]], accumulated := {("s", "a")}))
  }

  /** The scan has come to `d`. */
  ghost function LaunchedBoth(): State {
    var s := LaunchedA();
    s.(streams := s.streams.(tasks := map["a" := [Item(None)], "d" := [Item(None)]],
        accumulated := {("s", "a"), ("s", "d")}))
  }

  lemma ScanLaunchesA()
    ensures LaunchFrom(DiamondJob(), Stored0(), ["s"], "a") == LaunchedA()
  {
    var job, s := DiamondJob(), Stored0();
    assert ["s"][..0] == [] && [] + [Item(None)] == [Item(None)];
    assert LaunchFrom(job, s, [], "a") == s;
    assert "a" in Elements(job.graph.nodes);
  }

  lemma ScanLaunchesD()
    ensures LaunchFrom(DiamondJob(), LaunchedA(), ["s", "a"], "d") == LaunchedBoth()
  {
    var job, s := DiamondJob(), LaunchedA();
    assert ["s", "a"][..1] == ["s"] && ["s"][..0] == [] && [] + [Item(None)] == [Item(None)];
    assert LaunchFrom(job, s, [], "d") == s;
    assert "d" in Elements(job.graph.nodes);
    assert LaunchFrom(job, s, ["s"], "d") == LaunchedBoth();
    assert Launch(job, LaunchedBoth(), "a", "d") == LaunchedBoth();
  }

  lemma ScanLaunchesBoth()
    ensures WellFormed(Diamond()) && ScanStep(DiamondJob(), Stored0()) == Launched0(None, None)
  {
    DiamondIsWellFormed();
    var job, s := DiamondJob(), Stored0();
    assert ["s", "a", "d"][..2] == ["s", "a"] && ["s", "a"][..1] == ["s"] && ["s"][..0] == [];
    assert LaunchAll(job, s, ["s"]) == s by {
      assert LaunchAll(job, s, []) == s && LaunchFrom(job, s, [], "s") == s;
    }
    ScanLaunchesA();
    assert LaunchAll(job, s, ["s", "a"]) == LaunchedA();
    ScanLaunchesD();
    assert LaunchAll(job, s, ["s", "a", "d"]) == LaunchedBoth();
  }

  /** `a` has been merged, and its edge to `d` is routed. */
  ghost function MergedA(): State {
    var out := Merge(StreamMerge, "a", [Succeed("a")]);
    Quiet(Core(map["s" := Succeed("s"), "a" := out], map["s" := Num(1), "a" := out.payload], map[],
               {("s", "a"), ("s", "d"), ("a", "d")}, {"s", "a"}, map[], []),
          Streams(map["d" := [Item(Some(Succeed("d")))]], {("s", "a"), ("s", "d")}, false, {"a"}))
  }

  lemma FirstOutput()
    ensures OkPayloads([Succeed("a")]) == [Num(1)]
    ensures RoutedEdges(DiamondJob(), "a", List([Num(1)])) == {("a", "d")}
  {
    assert [Succeed("a")][..0] == [];
  }

  lemma FirstResults()
    ensures var s := Launched0(Some(Succeed("a")), Some(Succeed("d")));
      && AllStreamsDone(s.streams.tasks["a"]) && StreamResults(s.streams.tasks["a"]) == [Succeed("a")]
      && s.streams.tasks - {"a"} == map["d" := [Item(Some(Succeed("d")))]]
  {
  }

  lemma FirstMerge()
    ensures var s := Launched0(Some(Succeed("a")), Some(Succeed("d")));
      WellFormed(Diamond()) && Enabled(DiamondJob(), s, MergeStreams("a"))
          && MergeNode(DiamondJob(), s, "a") == MergedA()
  {
    DiamondIsWellFormed();
    FirstResults();
    FirstOutput();
  }

  ghost const LOSING_RUN: seq<Step> :=
    [Execute("s"), Pop("s"), Store, Scan, StreamDone("a", 0), StreamDone("d", 0), MergeStreams("a")]

  lemma ItemsFinish()
    ensures WellFormed(Diamond())
      && Enabled(DiamondJob(), Launched0(None, None), StreamDone("a", 0))
      && Apply(DiamondJob(), Launched0(None, None), StreamDone("a", 0)) == Launched0(Some(Succeed("a")), None)
      && Enabled(DiamondJob(), Launched0(Some(Succeed("a")), None), StreamDone("d", 0))
      && Apply(DiamondJob(), Launched0(Some(Succeed("a")), None), StreamDone("d", 0))
          == Launched0(Some(Succeed("a")), Some(Succeed("d")))
  {
    DiamondIsWellFormed();
    var a, d := Some(Succeed("a")), Some(Succeed("d"));
    var none := Launched0(None, None);
    assert [Item(None)][0 := Item(a)] == [Item(a)] && [Item(None)][0 := Item(d)] == [Item(d)];
    assert none.streams.tasks["a" := [Item(a)]] == Launched0(a, None).streams.tasks;
    assert Launched0(a, None).streams.tasks["d" := [Item(d)]] == Launched0(a, d).streams.tasks;
  }

  lemma MergeRun(s: State)
    requires s == Launched0(Some(Succeed("a")), Some(Succeed("d")))
    ensures WellFormed(Diamond()) && Legal(DiamondJob(), s, [MergeStreams("a")])
        && After(DiamondJob(), s, [MergeStreams("a")]) == MergedA()
  {
    FirstMerge();
    StepFirst(DiamondJob(), s, MergeStreams("a"), []);
    assert [MergeStreams("a")] + [] == [MergeStreams("a")];
  }

  lemma ItemsRun()
    ensures WellFormed(Diamond()) && Legal(DiamondJob(), Launched0(None, None), LOSING_RUN[4..])
        && After(DiamondJob(), Launched0(None, None), LOSING_RUN[4..]) == MergedA()
  {
    var merge := [MergeStreams("a")];
    MergeRun(Launched0(Some(Succeed("a")), Some(Succeed("d"))));
    ItemsFinish();
    StepFirst(DiamondJob(), Launched0(Some(Succeed("a")), None), StreamDone("d", 0), merge);
    StepFirst(DiamondJob(), Launched0(None, None), StreamDone("a", 0), [StreamDone("d", 0)] + merge);
    assert LOSING_RUN[4..] == [StreamDone("a", 0)] + ([StreamDone("d", 0)] + merge);
  }

  lemma TailOfRun()
    ensures WellFormed(Diamond()) && Legal(DiamondJob(), Stored0(), LOSING_RUN[3..])
        && After(DiamondJob(), Stored0(), LOSING_RUN[3..]) == MergedA()
  {
    ScanLaunchesBoth();
    ItemsRun();
    StepFirst(DiamondJob(), Stored0(), Scan, LOSING_RUN[4..]);
    assert LOSING_RUN[3..] == [Scan] + LOSING_RUN[4..];
  }

  /**
   A successful, routed upstream of a node that is about to be merged, none of whose results is among those
   merged.
   */
  ghost predicate LosesResult(job: Job, s: State, d: NodeId, u: NodeId)
    requires WellFormed(job.graph)
  {
    && Enabled(job, s, MergeStreams(d))
    && u in s.core.outputs && s.core.outputs[u].ok && (u, d) in s.core.routed && u in job.graph.reverse[d]
    && !ContributesOnce(s.streams.tasks[d], u)
  }

  lemma MergedALoses()
    ensures WellFormed(Diamond()) && LosesResult(DiamondJob(), MergedA(), "d", "a")
  {
    DiamondIsWellFormed();
    assert OkPayloads([Succeed("a")]) == [Num(1)] by {
      assert [Succeed("a")][..0] == [];
    }
  }

  /** The run is possible, and ends where the merge of `d` loses the result of `a`. */
  lemma MergeLosesAccumulatedUpstream()
    ensures WellFormed(Diamond())
      && Legal(DiamondJob(), StartState(DiamondJob(), map[], false), LOSING_RUN)
      && LosesResult(DiamondJob(), After(DiamondJob(), StartState(DiamondJob(), map[], false), LOSING_RUN), "d", "a")
  {
    StartsWithSource();
    WholeRun();
    MergedALoses();
  }

  lemma WholeRun()
    ensures WellFormed(Diamond()) && Legal(DiamondJob(), Created0(), LOSING_RUN)
        && After(DiamondJob(), Created0(), LOSING_RUN) == MergedA()
  {
    SourceIsStored();
    TailOfRun();
    var head := [Execute("s"), Pop("s"), Store];
    RunsCompose(DiamondJob(), Created0(), head, LOSING_RUN[3..]);
    assert head + LOSING_RUN[3..] == LOSING_RUN;
  }
}
