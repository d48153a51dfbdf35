/**
 The run registry of the DAG controller: `active_runs`, one lock per DAG, and the callers that start,
 retry, resume and trigger runs, interleaved in any order with tasks finishing and late callbacks.
 */
module RunControl {
  import opened Wrappers

  /** A task that executes a run of a DAG. */
  datatype Task = Task(dag: string, runId: string, done: bool)

  datatype Context = Context(runId: string, task: nat)

  datatype Registry = Registry(active: map<string, Context>, tasks: seq<Task>)

  /** The context of the DAG is there and its task has not finished: the guard of every start. */
  predicate Busy(r: Registry, dag: string) {
    dag in r.active && r.active[dag].task < |r.tasks| && !r.tasks[r.active[dag].task].done
  }

  /** A task is created and entered in `active_runs`. */
  function Launch(r: Registry, dag: string, runId: string): Registry {
    Registry(r.active[dag := Context(runId, |r.tasks|)], r.tasks + [Task(dag, runId, false)])
  }

  /** `_clear_finished_task` */
  function Clear(r: Registry, task: nat, dag: string): Registry {
    if dag in r.active && r.active[dag].task == task && task < |r.tasks|
        && r.tasks[task].done then r.(active := r.active - {dag})
    else r
  }

  function Finish(r: Registry, task: nat): Registry
    requires task < |r.tasks|
  {
    r.(tasks := r.tasks[task := r.tasks[task].(done := true)])
  }

  class RunRegistry {
    var active: map<string, Context>
    var tasks: seq<Task>

    function View(): Registry
      reads this
    {
      Registry(active, tasks)
    }

    constructor ()
      ensures View() == Registry(map[], [])
    {
      active, tasks := map[], [];
    }

    method LaunchRun(dag: string, runId: string) returns (task: nat)
      modifies this
      ensures View() == Launch(old(View()), dag, runId) && task == |old(tasks)|
    {
      task := |tasks|;
      tasks := tasks + [Task(dag, runId, false)];
      active := active[dag := Context(runId, task)];
    }

    /** `_start_run_locked`: refuses with the id of the run that is still going on. */
    method StartRunLocked(dag: string, runId: string) returns (started: Result<nat, string>)
      modifies this
      ensures started.Err? <==> Busy(old(View()), dag)
      ensures started.Err? ==> started.error == old(active)[dag].runId && View() == old(View())
      ensures started.Ok? ==> started.value == |old(tasks)| && View() == Launch(old(View()), dag, runId)
    {
      if dag in active {
        var ctx := active[dag];
        if ctx.task < |tasks| && !tasks[ctx.task].done {
          return Err(ctx.runId);
        }
      }
      var task := LaunchRun(dag, runId);
      return Ok(task);
    }

    method ClearFinishedTask(task: nat, dag: string)
      modifies this`active
      ensures View() == Clear(old(View()), task, dag)
    {
      if dag in active {
        var ctx := active[dag];
        if ctx.task == task && task < |tasks| && tasks[task].done {
          active := active - {dag};
        }
      }
    }
  }

  // ----- Callers -----

  /**
   `start_run`, `run_now` and `run_node_trigger` look for an active run just before they launch; `retry_node` and
   `resume_node` look first and then wait for the database, under the lock.
   */
  datatype Kind = LooksAtLaunch | LooksFirst

  datatype Progress = Outside | InLock | Looked | Launched(task: nat) | Refused(active: string) | Failed

  datatype Caller = Caller(kind: Kind, dag: string, runId: string, progress: Progress)

  datatype State = State(registry: Registry, locks: map<string, nat>, callers: seq<Caller>)

  datatype Step =
    | Enter(caller: nat)             // the lock of the DAG is taken
    | Look(caller: nat)              // `retry_node`, `resume_node`: the test for an active run
    | Start(caller: nat)             // the run is launched and the lock released
    | Abort(caller: nat)             // an error or a cancellation; the lock is released if it is held
    | TaskEnds(task: nat)
    | Callback(task: nat)            // `_clear_finished_task`, at any time after the launch
    | NewCaller(arrival: Caller)

  predicate HoldsLock(c: Caller) {
    c.progress.InLock? || c.progress.Looked?
  }

  predicate Enabled(s: State, step: Step) {
    match step
    case Enter(c) => c < |s.callers| && s.callers[c].progress.Outside? && s.callers[c].dag !in s.locks
    case Look(c) => c < |s.callers| && s.callers[c].progress.InLock? && s.callers[c].kind.LooksFirst?
    case Start(c) => c < |s.callers|
        && (if s.callers[c].kind.LooksFirst? then s.callers[c].progress.Looked? else s.callers[c].progress.InLock?)
    case Abort(c) => c < |s.callers| && (s.callers[c].progress.Outside? || HoldsLock(s.callers[c]))
    case TaskEnds(t) => t < |s.registry.tasks|
    case Callback(t) => t < |s.registry.tasks|
    case NewCaller(c) => c.progress.Outside?
  }

  function Moved(s: State, c: nat, progress: Progress): State
    requires c < |s.callers|
  {
    s.(callers := s.callers[c := s.callers[c].(progress := progress)])
  }

  /** The caller leaves the critical section. */
  function Left(s: State, c: nat, progress: Progress): State
    requires c < |s.callers|
  {
    Moved(s, c, progress).(locks := s.locks - {s.callers[c].dag})
  }

  function LookStep(s: State, c: nat): State
    requires c < |s.callers|
  {
    var dag := s.callers[c].dag;
    if Busy(s.registry, dag) then Left(s, c, Refused(s.registry.active[dag].runId)) else Moved(s, c, Looked)
  }

  function StartStep(s: State, c: nat): State
    requires c < |s.callers|
  {
    var caller := s.callers[c];
    if caller.kind.LooksAtLaunch? && Busy(s.registry, caller.dag) then Left(s, c,
        Refused(s.registry.active[caller.dag].runId))
    else Left(s, c, Launched(|s.registry.tasks|)).(registry := Launch(s.registry, caller.dag, caller.runId))
  }

  function Apply(s: State, step: Step): State
    requires Enabled(s, step)
  {
    match step
    case Enter(c) => Moved(s, c, InLock).(locks := s.locks[s.callers[c].dag := c])
    case Look(c) => LookStep(s, c)
    case Start(c) => StartStep(s, c)
    case Abort(c) => if HoldsLock(s.callers[c]) then Left(s, c, Failed) else Moved(s, c, Failed)
    case TaskEnds(t) => s.(registry := Finish(s.registry, t))
    case Callback(t) => s.(registry := Clear(s.registry, t, s.registry.tasks[t].dag))
    case NewCaller(c) => s.(callers := s.callers + [c])
  }

  // ----- The invariant -----

  predicate Unfinished(r: Registry, t: nat) {
    t < |r.tasks| && !r.tasks[t].done
  }

  /** `active_runs` names every unfinished task under its DAG, with its run id. */
  ghost predicate Named(r: Registry) {
    forall t {:trigger r.tasks[t]} :: 0 <= t < |r.tasks| && !r.tasks[t].done ==>
      r.tasks[t].dag in r.active && r.active[r.tasks[t].dag] == Context(r.tasks[t].runId, t)
  }

  ghost predicate ContextsOk(r: Registry) {
    forall dag {:trigger r.active[dag]} :: dag in r.active ==>
      var ctx := r.active[dag];
      ctx.task < |r.tasks| && r.tasks[ctx.task].dag == dag && r.tasks[ctx.task].runId == ctx.runId
  }

  /** A lock is held by exactly the caller inside the critical section of its DAG. */
  ghost predicate LocksOk(s: State) {
    && (forall dag {:trigger s.locks[dag]} :: dag in s.locks ==>
          s.locks[dag] < |s.callers| && s.callers[s.locks[dag]].dag == dag && HoldsLock(s.callers[s.locks[dag]]))
    && (forall c {:trigger s.callers[c]} :: 0 <= c < |s.callers| && HoldsLock(s.callers[c]) ==>
          s.callers[c].dag in s.locks && s.locks[s.callers[c].dag] == c)
  }

  /** Nothing has started behind the back of a caller that has looked. */
  ghost predicate LookedOk(s: State) {
    forall c {:trigger s.callers[c]} ::
        0 <= c < |s.callers| && s.callers[c].progress.Looked? ==> !Busy(s.registry, s.callers[c].dag)
  }

  ghost predicate Inv(s: State) {
    Named(s.registry) && ContextsOk(s.registry) && LocksOk(s) && LookedOk(s)
  }

  lemma LaunchKeeps(r: Registry, dag: string, runId: string)
    requires Named(r) && ContextsOk(r) && !Busy(r, dag)
    ensures Named(Launch(r, dag, runId)) && ContextsOk(Launch(r, dag, runId))
  {
    forall t | 0 <= t < |r.tasks| && !r.tasks[t].done ensures r.tasks[t].dag != dag {
      assert r.active[r.tasks[t].dag] == Context(r.tasks[t].runId, t);
    }
  }

  lemma StartKeeps(s: State, c: nat)
    requires Inv(s) && Enabled(s, Start(c))
    ensures Inv(StartStep(s, c))
  {
    var caller := s.callers[c];
    assert s.locks[caller.dag] == c;
    if !(caller.kind.LooksAtLaunch? && Busy(s.registry, caller.dag)) {
      LaunchKeeps(s.registry, caller.dag, caller.runId);
      var s' := StartStep(s, c);
      forall d | 0 <= d < |s'.callers| && s'.callers[d].progress.Looked? ensures !Busy(s'.registry, s'.callers[d].dag) {
        assert s.callers[d].progress.Looked? && s.locks[s.callers[d].dag] == d;
      }
    }
  }

  lemma EnterKeeps(s: State, c: nat)
    requires Inv(s) && Enabled(s, Enter(c))
    ensures Inv(Apply(s, Enter(c)))
  {
    var s' := Apply(s, Enter(c));
    forall d | 0 <= d < |s'.callers| && HoldsLock(s'.callers[d])
        ensures s'.callers[d].dag in s'.locks && s'.locks[s'.callers[d].dag] == d {
      assert d != c ==> HoldsLock(s.callers[d]);
    }
  }

  /** Leaving the critical section without launching anything. */
  lemma LeavingKeeps(s: State, c: nat, progress: Progress)
    requires Inv(s) && c < |s.callers| && HoldsLock(s.callers[c]) && !progress.InLock? && !progress.Looked?
    ensures Inv(Left(s, c, progress))
  {
    var s' := Left(s, c, progress);
    assert s.locks[s.callers[c].dag] == c;
    forall d | 0 <= d < |s'.callers| && HoldsLock(s'.callers[d])
        ensures s'.callers[d].dag in s'.locks && s'.locks[s'.callers[d].dag] == d {
      assert d != c && HoldsLock(s.callers[d]);
    }
  }

  lemma LookKeeps(s: State, c: nat)
    requires Inv(s) && Enabled(s, Look(c))
    ensures Inv(LookStep(s, c))
  {
    var dag := s.callers[c].dag;
    if Busy(s.registry, dag) {
      LeavingKeeps(s, c, Refused(s.registry.active[dag].runId));
    }
  }

  lemma AbortKeeps(s: State, c: nat)
    requires Inv(s) && Enabled(s, Abort(c))
    ensures Inv(Apply(s, Abort(c)))
  {
    if HoldsLock(s.callers[c]) {
      LeavingKeeps(s, c, Failed);
    }
  }

  /** Tasks that end and callbacks make no DAG busy and leave every unfinished task named. */
  lemma RegistryKeeps(r: Registry, t: nat)
    requires Named(r) && ContextsOk(r) && t < |r.tasks|
    ensures Named(Finish(r, t)) && ContextsOk(Finish(r, t))
    ensures Named(Clear(r, t, r.tasks[t].dag)) && ContextsOk(Clear(r, t, r.tasks[t].dag))
    ensures forall dag {:trigger Busy(Finish(r, t), dag)} :: Busy(Finish(r, t), dag) ==> Busy(r, dag)
    ensures forall dag {:trigger Busy(Clear(r, t, r.tasks[t].dag), dag)} ::
        Busy(Clear(r, t, r.tasks[t].dag), dag) ==> Busy(r, dag)
  {
  }

  lemma StepKeeps(s: State, step: Step)
    requires Inv(s) && Enabled(s, step)
    ensures Inv(Apply(s, step))
  {
    match step
    case Enter(c) => EnterKeeps(s, c);
    case Look(c) => LookKeeps(s, c);
    case Start(c) => StartKeeps(s, c);
    case Abort(c) => AbortKeeps(s, c);
    case TaskEnds(t) => RegistryKeeps(s.registry, t);
    case Callback(t) => RegistryKeeps(s.registry, t);
    case NewCaller(_) =>
  }

  // ----- Whole runs -----

  const IDLE := State(Registry(map[], []), map[], [])

  ghost predicate Legal(s: State, steps: seq<Step>)
    decreases |steps|
  {
    steps == [] || (Enabled(s, steps[0]) && Legal(Apply(s, steps[0]), steps[1..]))
  }

  ghost function After(s: State, steps: seq<Step>): State
    requires Legal(s, steps)
    decreases |steps|
  {
    if steps == [] then s else After(Apply(s, steps[0]), steps[1..])
  }

  lemma {:induction false} RunKeeps(s: State, steps: seq<Step>)
    requires Inv(s) && Legal(s, steps)
    ensures Inv(After(s, steps))
    decreases |steps|
  {
    if steps != [] {
      StepKeeps(s, steps[0]);
      RunKeeps(Apply(s, steps[0]), steps[1..]);
    }
  }

  /** In every interleaving a DAG has at most one unfinished task, and `active_runs` names it. */
  lemma OneActiveRun(steps: seq<Step>, t: nat, u: nat)
    requires Legal(IDLE, steps)
    requires var r := After(IDLE, steps).registry;
      Unfinished(r, t) && Unfinished(r, u) && r.tasks[t].dag == r.tasks[u].dag
    ensures t == u
    ensures var r := After(IDLE, steps).registry;
      var dag := r.tasks[t].dag;
      dag in r.active && r.active[dag] == Context(r.tasks[t].runId, t)
  {
    RunKeeps(IDLE, steps);
    var r := After(IDLE, steps).registry;
    assert r.active[r.tasks[t].dag] == Context(r.tasks[t].runId, t);
    assert r.active[r.tasks[u].dag] == Context(r.tasks[u].runId, u);
  }

  /** A start is refused exactly while a run of the DAG has not finished, and the refusal names that run. */
  lemma RefusedExactlyWhileRunning(steps: seq<Step>, dag: string)
    requires Legal(IDLE, steps)
    ensures var r := After(IDLE, steps).registry;
      && (Busy(r, dag) <==> exists t: nat :: Unfinished(r, t) && r.tasks[t].dag == dag)
      && forall t: nat ::
          Unfinished(r, t) && r.tasks[t].dag == dag ==> Busy(r, dag) && r.active[dag].runId == r.tasks[t].runId
  {
    RunKeeps(IDLE, steps);
    var r := After(IDLE, steps).registry;
    if Busy(r, dag) {
      assert Unfinished(r, r.active[dag].task);
    }
    forall t: nat | Unfinished(r, t) && r.tasks[t].dag == dag
        ensures Busy(r, dag) && r.active[dag].runId == r.tasks[t].runId {
      assert r.active[r.tasks[t].dag] == Context(r.tasks[t].runId, t);
    }
  }

  /** Whichever task a callback is for and however late it comes, it does not evict the context of an unfinished run. */
  lemma CallbackSparesSuccessor(s: State, t: nat, u: nat)
    requires Inv(s) && Enabled(s, Callback(t)) && Unfinished(s.registry, u)
    ensures var r := Apply(s, Callback(t)).registry;
      s.registry.tasks[u].dag in r.active && r.active[s.registry.tasks[u].dag] == Context(s.registry.tasks[u].runId, u)
  {
    StepKeeps(s, Callback(t));
  }

  /** A caller that looked, waited under the lock and then launches does so while nothing else runs. */
  lemma LookedStaysIdle(steps: seq<Step>, c: nat)
    requires Legal(IDLE, steps) && c < |After(IDLE, steps).callers| && After(IDLE, steps).callers[c].progress.Looked?
    ensures var s := After(IDLE, steps);
      forall t: nat :: Unfinished(s.registry, t) ==> s.registry.tasks[t].dag != s.callers[c].dag
  {
    RunKeeps(IDLE, steps);
    var s := After(IDLE, steps);
    assert !Busy(s.registry, s.callers[c].dag);
    forall t: nat | Unfinished(s.registry, t) ensures s.registry.tasks[t].dag != s.callers[c].dag {
      assert s.registry.active[s.registry.tasks[t].dag] == Context(s.registry.tasks[t].runId, t);
    }
  }
}
