/** `_execute_wait` as imperative code, cut at its awaits; each stretch is one step of the protocol in `Waiting`. */
module WaitNode {
  import opened Wrappers
  import opened DagModels
  import opened Parsing
  import opened Evaluation
  import opened TriggerEngine
  import opened TriggerExecutor
  import opened Waiting

  class WaitRun {
    const executor: Executor
    const expr: Expr
    const consume: bool
    var phase: Phase

    /** The engine and this one wait node. */
    function View(): World
      reads this, executor, executor.events, executor.waiters
    {
      World(executor.View(), [Node(expr, consume, phase)])
    }

    constructor (executor: Executor, expr: Expr, consume: bool)
      ensures this.executor == executor && View() == World(executor.View(), [Node(expr, consume, Starting)])
    {
      this.executor, this.expr, this.consume := executor, expr, consume;
      phase := Starting;
    }

    /** `_latest_payload`: the records from the newest back. */
    method FindPayload(tokens: set<string>) returns (payload: Value)
      ensures payload == LatestPayload(executor.records, tokens)
    {
      var records := executor.records;
      var i := |records|;
      assert records[..i] == records;
      while i > 0
        invariant i <= |records| && LatestPayload(records, tokens) == LatestPayload(records[..i], tokens)
      {
        assert records[..i][..i - 1] == records[..i - 1];
        i := i - 1;
        if records[i].event in tokens {
          return records[i].payload;
        }
      }
      return Null;
    }

    /** `wait_payload` */
    method ReadPayload() returns (read: Option<(Value, set<string>)>)
      ensures read == WaitPayload(executor.View(), expr)
    {
      var active := executor.events.events;
      if !Eval(expr, active) {
        return None;
      }
      var tokens := Matched(expr, active);
      var payload := FindPayload(tokens);
      return Some((payload, tokens));
    }

    /** Up to the registration: pass at once, or register. */
    method Begin()
      requires phase.Starting?
      modifies this`phase, executor.waiters
      ensures View() == CheckNode(old(View()), 0)
    {
      var read := ReadPayload();
      if read.Some? {
        phase := Found(read.value.0, read.value.1, None);
        return;
      }
      var future := executor.waiters.RegisterWaiter(expr);
      phase := Registered(future);
    }

    /** The second look, after the registration. */
    method LookAgain()
      requires phase.Registered?
      modifies this`phase
      ensures View() == RecheckNode(old(View()), 0)
    {
      var future := phase.future;
      var read := ReadPayload();
      phase := if read.Some? then Found(read.value.0, read.value.1, Some(future)) else Suspended(future);
    }

    /** The future has its result. */
    method Continue()
      requires Enabled(View(), Resume(0))
      modifies this`phase
      ensures View() == ResumeNode(old(View()), 0)
    {
      var future, registry := phase.future, executor.waiters;
      phase := Found(registry.futures[future].payload, if future in registry.matched then registry.matched[future]
          else {}, Some(future));
    }

    /** The wait times out or is stopped: the future is cancelled and unregistered. */
    method GiveUp()
      requires phase.Suspended?
      modifies this`phase, executor.waiters
      ensures View() == LeaveNode(old(View()), 0)
    {
      var future := phase.future;
      if future < |executor.waiters.futures| && executor.waiters.futures[future] == Pending {
        executor.waiters.futures := executor.waiters.futures[future := Cancelled];
      }
      executor.waiters.UnregisterWaiter(future);
      phase := Abandoned;
    }

    /** The end: the tokens are consumed if asked for, and the waiter is unregistered if there is one. */
    method Conclude() returns (result: Value)
      requires phase.Found?
      modifies this`phase, executor.events, executor.waiters
      ensures View() == FinishNode(old(View()), 0) && phase == Passed(result)
    {
      result := phase.payload;
      if consume {
        executor.events.ConsumeAll(phase.tokens);
      }
      if phase.registered.Some? {
        executor.waiters.UnregisterWaiter(phase.registered.value);
      }
      phase := Passed(result);
    }
  }
}
