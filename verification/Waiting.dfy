/**
 Wait nodes: check, register, check again, wait, consume, unregister, interleaved in any order with
 emits and with other wait nodes.
 */
module Waiting {
  import opened Wrappers
  import opened DagModels
  import opened Parsing
  import opened Printing
  import opened Evaluation
  import opened TriggerEngine
  import opened Quiescence

  datatype Phase =
    | Starting
    | Registered(future: nat)
    | Suspended(future: nat)
    | Found(payload: Value, tokens: set<string>, registered: Option<nat>)
    | Passed(result: Value)
    | Abandoned

  datatype Node = Node(expr: Expr, consume: bool, phase: Phase)

  datatype World = World(engine: Engine, nodes: seq<Node>)

  datatype Step =
    | Emits(event: string, payload: Value, depth: nat)
    | Check(node: nat)      // `wait_payload_reader`, and `wait_register` when it finds nothing
    | Recheck(node: nat)    // the second `wait_payload_reader`
    | Resume(node: nat)     // the awaited future has a result
    | Leave(node: nat)      // timeout or stop
    | Finish(node: nat)     // `wait_consumer` if asked for, and `wait_unregister`

  // ----- What a wait node reads -----

  /** `_latest_payload` among the records in memory. */
  function LatestPayload(records: seq<Record>, tokens: set<string>): (payload: Value)
    ensures forall i ::
        0 <= i < |records| && records[i].event in tokens
        && (forall j :: i < j < |records| ==> records[j].event !in tokens)
        ==> payload == records[i].payload
  {
    if records == [] then Null
    else if records[|records| - 1].event in tokens then records[|records| - 1].payload
    else LatestPayload(records[..|records| - 1], tokens)
  }

  /** `wait_payload`: nothing while the expression is false. */
  function WaitPayload(eng: Engine, e: Expr): Option<(Value, set<string>)> {
    if !Eval(e, eng.events) then None
    else Some((LatestPayload(eng.records, Matched(e, eng.events)), Matched(e, eng.events)))
  }

  // ----- Steps -----

  predicate Enabled(w: World, step: Step) {
    match step
    case Emits(_, _, _) => true
    case Check(n) => n < |w.nodes| && w.nodes[n].phase.Starting?
    case Recheck(n) => n < |w.nodes| && w.nodes[n].phase.Registered?
    case Resume(n) =>
      && n < |w.nodes| && w.nodes[n].phase.Suspended?
      && w.nodes[n].phase.future < |w.engine.registry.futures|
          && w.engine.registry.futures[w.nodes[n].phase.future].Woken?
    case Leave(n) => n < |w.nodes| && w.nodes[n].phase.Suspended?
    case Finish(n) => n < |w.nodes| && w.nodes[n].phase.Found?
  }

  function InNode(w: World, n: nat, phase: Phase): World
    requires n < |w.nodes|
  {
    w.(nodes := w.nodes[n := w.nodes[n].(phase := phase)])
  }

  function CheckNode(w: World, n: nat): World
    requires n < |w.nodes|
  {
    var read := WaitPayload(w.engine, w.nodes[n].expr);
    if read.Some? then InNode(w, n, Found(read.value.0, read.value.1, None))
    else
      InNode(w, n, Registered(|w.engine.registry.futures|)).(engine := w.engine.(registry := Register(w.engine.registry,
          w.nodes[n].expr)))
  }

  function RecheckNode(w: World, n: nat): World
    requires n < |w.nodes| && w.nodes[n].phase.Registered?
  {
    var read, future := WaitPayload(w.engine, w.nodes[n].expr), w.nodes[n].phase.future;
    InNode(w, n, if read.Some? then Found(read.value.0, read.value.1, Some(future)) else Suspended(future))
  }

  function ResumeNode(w: World, n: nat): World
    requires Enabled(w, Resume(n))
  {
    var future, r := w.nodes[n].phase.future, w.engine.registry;
    InNode(w, n, Found(r.futures[future].payload, if future in r.matched then r.matched[future] else {}, Some(future)))
  }

  function Cancel(r: Registry, future: nat): Registry {
    if IsPending(r, future) then r.(futures := r.futures[future := Cancelled]) else r
  }

  function LeaveNode(w: World, n: nat): World
    requires n < |w.nodes| && w.nodes[n].phase.Suspended?
  {
    var future := w.nodes[n].phase.future;
    InNode(w, n, Abandoned).(engine := w.engine.(registry := Unregister(Cancel(w.engine.registry, future), future)))
  }

  function FinishNode(w: World, n: nat): World
    requires n < |w.nodes| && w.nodes[n].phase.Found?
  {
    var found, eng := w.nodes[n].phase, w.engine;
    InNode(w, n, Passed(found.payload)).(engine := eng.(
      events := if w.nodes[n].consume then Consume(eng.events, found.tokens) else eng.events,
      registry := if found.registered.Some? then Unregister(eng.registry, found.registered.value) else eng.registry))
  }

  function Apply(wiring: Wiring, w: World, step: Step): World
    requires Enabled(w, step)
  {
    match step
    case Emits(event, payload, depth) => w.(engine := Emit(wiring, w.engine, event, payload, depth).engine)
    case Check(n) => CheckNode(w, n)
    case Recheck(n) => RecheckNode(w, n)
    case Resume(n) => ResumeNode(w, n)
    case Leave(n) => LeaveNode(w, n)
    case Finish(n) => FinishNode(w, n)
  }

  // ----- The invariant -----

  /** The future a node has registered and not unregistered yet. */
  function FutureOf(node: Node): Option<nat> {
    match node.phase
    case Registered(future) => Some(future)
    case Suspended(future) => Some(future)
    case Found(_, _, registered) => registered
    case _ => None
  }

  /** The node's future is its own, and it is registered under the node's expression. */
  ghost predicate OwnFuture(w: World, n: nat)
    requires n < |w.nodes|
  {
    var future := FutureOf(w.nodes[n]);
    future.Some? ==>
      && future.value < |w.engine.registry.futures|
      && Waiter(w.nodes[n].expr, future.value) in w.engine.registry.waiters
      && w.engine.registry.futures[future.value] != Cancelled
      && (forall m :: 0 <= m < |w.nodes| && m != n ==> FutureOf(w.nodes[m]) != future)
      && (forall x :: x in w.engine.registry.waiters && x.future == future.value ==> x.expr == w.nodes[n].expr)
  }

  ghost predicate WaitersInRange(r: Registry) {
    forall x {:trigger x in r.waiters} :: x in r.waiters ==> x.future < |r.futures|
  }

  /** A woken node's future comes with tokens that make its expression true. */
  ghost predicate WokenIsMatched(w: World, n: nat)
    requires n < |w.nodes|
  {
    var future, r := FutureOf(w.nodes[n]), w.engine.registry;
    future.Some? && future.value < |r.futures| && r.futures[future.value].Woken? ==>
      future.value in r.matched && Eval(w.nodes[n].expr, r.matched[future.value])
  }

  /** A suspended node whose expression is true has been woken. */
  ghost predicate Attended(w: World, n: nat)
    requires n < |w.nodes|
  {
    w.nodes[n].phase.Suspended? ==>
        !Overlooked(w.engine.registry, w.engine.events, Waiter(w.nodes[n].expr, w.nodes[n].phase.future))
  }

  /** A node that is about to pass holds tokens that make its expression true. */
  ghost predicate RightlyFound(w: World, n: nat)
    requires n < |w.nodes|
  {
    w.nodes[n].phase.Found? ==> Eval(w.nodes[n].expr, w.nodes[n].phase.tokens)
  }

  ghost predicate NodeOk(w: World, n: nat)
    requires n < |w.nodes|
  {
    OwnFuture(w, n) && WokenIsMatched(w, n) && Attended(w, n) && RightlyFound(w, n)
  }

  ghost predicate Inv(w: World) {
    WaitersInRange(w.engine.registry) && forall n :: 0 <= n < |w.nodes| ==> NodeOk(w, n)
  }

  // ----- Unregistering and cancelling concern one future only -----

  lemma {:induction false} OthersMembers(waiters: seq<Waiter>, future: nat, x: Waiter)
    ensures x in OthersThan(waiters, future) <==> x in waiters && x.future != future
  {
    if waiters != [] {
      assert waiters == waiters[..|waiters| - 1] + [waiters[|waiters| - 1]];
      OthersMembers(waiters[..|waiters| - 1], future, x);
    }
  }

  lemma UnregisterKeepsOthers(r: Registry, future: nat)
    requires WaitersInRange(r)
    ensures WaitersInRange(Unregister(r, future))
    ensures forall x {:trigger x in Unregister(r, future).waiters} ::
        x in Unregister(r, future).waiters <==> x in r.waiters && x.future != future
  {
    forall x ensures x in Unregister(r, future).waiters <==> x in r.waiters && x.future != future {
      OthersMembers(r.waiters, future, x);
    }
  }

  /** A node other than the one that takes the step keeps what it has. */
  ghost predicate Untouched(w: World, w': World, m: nat)
    requires m < |w.nodes| == |w'.nodes|
  {
    var future, r, r' := FutureOf(w.nodes[m]), w.engine.registry, w'.engine.registry;
    && w'.nodes[m] == w.nodes[m] && w'.engine.events <= w.engine.events
    && (future.Some? && future.value < |r.futures| ==>
          && future.value < |r'.futures| && r'.futures[future.value] == r.futures[future.value]
          && (future.value in r.matched ==>
              future.value in r'.matched && r'.matched[future.value] == r.matched[future.value])
          && (forall x: Waiter {:trigger x in r.waiters} ::
              x.future == future.value ==> (x in r'.waiters <==> x in r.waiters))
          && (forall k ::
              0 <= k < |w'.nodes| && k != m && FutureOf(w'.nodes[k]) == future ==> FutureOf(w.nodes[k]) == future))
  }

  lemma UntouchedStaysOk(w: World, w': World, m: nat)
    requires m < |w.nodes| == |w'.nodes| && NodeOk(w, m) && Untouched(w, w', m)
    ensures NodeOk(w', m)
  {
    if w.nodes[m].phase.Suspended? {
      var x := Waiter(w.nodes[m].expr, w.nodes[m].phase.future);
      FewerEventsOverlookNone(w.engine.registry, w.engine.events, w'.engine.events, x);
    }
  }

  // ----- The steps of a node -----

  lemma CheckKeeps(w: World, n: nat)
    requires Inv(w) && Enabled(w, Check(n))
    ensures Inv(CheckNode(w, n))
  {
    var w', e := CheckNode(w, n), w.nodes[n].expr;
    MatchedTokensDecide(e, w.engine.events);
    forall k | 0 <= k < |w.nodes| ensures FutureOf(w.nodes[k]) != Some(|w.engine.registry.futures|) {
      assert NodeOk(w, k);
    }
    forall m | 0 <= m < |w'.nodes| ensures NodeOk(w', m) {
      assert NodeOk(w, m);
      if m != n {
        UntouchedStaysOk(w, w', m);
      }
    }
  }

  lemma RecheckKeeps(w: World, n: nat)
    requires Inv(w) && Enabled(w, Recheck(n))
    ensures Inv(RecheckNode(w, n))
  {
    var w', e := RecheckNode(w, n), w.nodes[n].expr;
    MatchedTokensDecide(e, w.engine.events);
    forall m | 0 <= m < |w'.nodes| ensures NodeOk(w', m) {
      assert NodeOk(w, m);
      if m != n {
        UntouchedStaysOk(w, w', m);
      }
    }
  }

  lemma ResumeKeeps(w: World, n: nat)
    requires Inv(w) && Enabled(w, Resume(n))
    ensures Inv(ResumeNode(w, n))
  {
    var w' := ResumeNode(w, n);
    forall m | 0 <= m < |w'.nodes| ensures NodeOk(w', m) {
      assert NodeOk(w, m);
      if m != n {
        UntouchedStaysOk(w, w', m);
      }
    }
  }

  lemma LeaveKeeps(w: World, n: nat)
    requires Inv(w) && Enabled(w, Leave(n))
    ensures Inv(LeaveNode(w, n))
  {
    var w', future := LeaveNode(w, n), w.nodes[n].phase.future;
    UnregisterKeepsOthers(Cancel(w.engine.registry, future), future);
    assert NodeOk(w, n);
    forall m | 0 <= m < |w'.nodes| ensures NodeOk(w', m) {
      assert NodeOk(w, m);
      if m != n {
        UntouchedStaysOk(w, w', m);
      }
    }
  }

  lemma FinishKeeps(w: World, n: nat)
    requires Inv(w) && Enabled(w, Finish(n))
    ensures Inv(FinishNode(w, n))
  {
    var w', registered := FinishNode(w, n), w.nodes[n].phase.registered;
    if registered.Some? {
      UnregisterKeepsOthers(w.engine.registry, registered.value);
    }
    assert NodeOk(w, n);
    forall m | 0 <= m < |w'.nodes| ensures NodeOk(w', m) {
      assert NodeOk(w, m);
      if m != n {
        UntouchedStaysOk(w, w', m);
      }
    }
  }

  // ----- Emits -----

  /**
   What a future looks like after an emit: as before, or woken by it with tokens that make its waiter's
   expression true.
   */
  lemma EmitOnFuture(wiring: Wiring, eng: Engine, event: string, payload: Value, depth: nat, future: nat)
    requires future < |eng.registry.futures|
    ensures var r, r' := eng.registry, Emit(wiring, eng, event, payload, depth).engine.registry;
      && |r'.futures| == |r.futures|
      && ((r'.futures[future] == r.futures[future]
          && (future in r.matched ==> future in r'.matched && r'.matched[future] == r.matched[future]))
          || (r.futures[future] == Pending && r'.futures[future] == Woken(payload) && future in r'.matched
              && exists x :: x in r.waiters && x.future == future && Eval(x.expr, r'.matched[future])))
  {
    var active := eng.events + {event};
    var recorded := eng.(records := eng.records + [Record(event, payload, depth)]);
    var woken := SetAndWake(recorded, event, payload);
    EmitKeepsWaiters(wiring, eng, event, payload, depth);
    HandleAllShrinks(wiring, Outcome(woken, [], None), Affected(wiring.json, eng.triggers, event));
    WakeAllSettles(eng.registry, eng.registry.waiters, active, payload, Waiter(Token(""), future));
    if IsPending(eng.registry, future) && !IsPending(woken.registry, future) {
      WokenHoldsTrueTokens(eng.registry, eng.registry.waiters, active, payload, future);
    } else {
      UnwokenStays(eng.registry, eng.registry.waiters, active, payload, future);
    }
  }

  lemma {:induction false} UnwokenStays(r: Registry, waiters: seq<Waiter>, active: set<string>, payload: Value,
      future: nat)
    requires future < |r.futures| && (IsPending(r, future) ==> IsPending(WakeAll(r, waiters, active, payload), future))
    ensures var r' := WakeAll(r, waiters, active, payload);
      && |r'.futures| == |r.futures| && r'.futures[future] == r.futures[future]
      && (future in r.matched ==> future in r'.matched && r'.matched[future] == r.matched[future])
  {
    if waiters != [] {
      var x := waiters[|waiters| - 1];
      WakeAllSettles(r, waiters[..|waiters| - 1], active, payload, Waiter(Token(""), future));
      UnwokenStays(r, waiters[..|waiters| - 1], active, payload, future);
    }
  }

  lemma EmitKeeps(wiring: Wiring, w: World, event: string, payload: Value, depth: nat)
    requires Inv(w)
    ensures Inv(Apply(wiring, w, Emits(event, payload, depth)))
  {
    var w' := Apply(wiring, w, Emits(event, payload, depth));
    EmitKeepsWaiters(wiring, w.engine, event, payload, depth);
    forall m | 0 <= m < |w'.nodes| ensures NodeOk(w', m) {
      assert NodeOk(w, m);
      EmitKeepsNode(wiring, w, event, payload, depth, m);
    }
  }

  lemma EmitKeepsNode(wiring: Wiring, w: World, event: string, payload: Value, depth: nat, m: nat)
    requires m < |w.nodes| && NodeOk(w, m)
    ensures NodeOk(Apply(wiring, w, Emits(event, payload, depth)), m)
  {
    EmitKeepsWaiters(wiring, w.engine, event, payload, depth);
    var future := FutureOf(w.nodes[m]);
    if future.Some? {
      EmitOnFuture(wiring, w.engine, event, payload, depth, future.value);
      if w.nodes[m].phase.Suspended? {
        EmitServes(wiring, w.engine, event, payload, depth, Waiter(w.nodes[m].expr, future.value));
      }
    }
  }

  lemma StepKeeps(wiring: Wiring, w: World, step: Step)
    requires Inv(w) && Enabled(w, step)
    ensures Inv(Apply(wiring, w, step))
  {
    match step
    case Emits(event, payload, depth) => EmitKeeps(wiring, w, event, payload, depth);
    case Check(n) => CheckKeeps(w, n);
    case Recheck(n) => RecheckKeeps(w, n);
    case Resume(n) => ResumeKeeps(w, n);
    case Leave(n) => LeaveKeeps(w, n);
    case Finish(n) => FinishKeeps(w, n);
  }

  // ----- Whole runs -----

  ghost predicate Legal(wiring: Wiring, w: World, steps: seq<Step>)
    decreases |steps|
  {
    steps == [] || (Enabled(w, steps[0]) && Legal(wiring, Apply(wiring, w, steps[0]), steps[1..]))
  }

  ghost function After(wiring: Wiring, w: World, steps: seq<Step>): World
    requires Legal(wiring, w, steps)
    decreases |steps|
  {
    if steps == [] then w else After(wiring, Apply(wiring, w, steps[0]), steps[1..])
  }

  lemma {:induction false} RunKeeps(wiring: Wiring, w: World, steps: seq<Step>)
    requires Inv(w) && Legal(wiring, w, steps)
    ensures Inv(After(wiring, w, steps))
    decreases |steps|
  {
    if steps != [] {
      StepKeeps(wiring, w, steps[0]);
      RunKeeps(wiring, Apply(wiring, w, steps[0]), steps[1..]);
    }
  }

  /** Wait nodes that have not begun, and an engine nobody waits on yet. */
  ghost predicate Fresh(w: World) {
    w.engine.registry == Registry([], map[], []) && forall n :: 0 <= n < |w.nodes| ==> w.nodes[n].phase == Starting
  }

  /** No wake-up is ever lost: whenever a suspended node's expression is true, its future has its result. */
  lemma NoWakeUpIsLost(wiring: Wiring, w: World, steps: seq<Step>, n: nat)
    requires Fresh(w) && Legal(wiring, w, steps) && n < |After(wiring, w, steps).nodes|
    ensures var end := After(wiring, w, steps);
      var node := end.nodes[n];
      node.phase.Suspended? && Eval(node.expr, end.engine.events) ==>
        node.phase.future < |end.engine.registry.futures| && end.engine.registry.futures[node.phase.future].Woken?
  {
    RunKeeps(wiring, w, steps);
    assert NodeOk(After(wiring, w, steps), n);
  }

  /**
   A node passes only with tokens that make its expression true; if it consumes, none of them is set afterwards,
   except `startup`.
   */
  lemma PassesRightly(wiring: Wiring, w: World, steps: seq<Step>, n: nat)
    requires Fresh(w) && Legal(wiring, w, steps) && Enabled(After(wiring, w, steps), Finish(n))
    ensures var before := After(wiring, w, steps);
      var node, after := before.nodes[n], FinishNode(before, n);
      && Eval(node.expr, node.phase.tokens)
      && (node.consume ==> after.engine.events * node.phase.tokens <= {"startup"})
      && (!node.consume ==> after.engine.events == before.engine.events)
  {
    RunKeeps(wiring, w, steps);
    assert NodeOk(After(wiring, w, steps), n);
  }

  /** An event that is none of a suspended node's tokens does not wake it. */
  lemma OtherEventsDoNotWake(wiring: Wiring, w: World, event: string, payload: Value, depth: nat, n: nat)
    requires Inv(w) && n < |w.nodes| && w.nodes[n].phase.Suspended? && event !in Tokens(w.nodes[n].expr)
    requires IsPending(w.engine.registry, w.nodes[n].phase.future)
    ensures IsPending(Apply(wiring, w, Emits(event, payload, depth)).engine.registry, w.nodes[n].phase.future)
  {
    assert NodeOk(w, n);
    var eng, e, future := w.engine, w.nodes[n].expr, w.nodes[n].phase.future;
    var active := eng.events + {event};
    var recorded := eng.(records := eng.records + [Record(event, payload, depth)]);
    HandleAllShrinks(wiring, Outcome(SetAndWake(recorded, event, payload), [], None),
        Affected(wiring.json, eng.triggers, event));
    assert active * Tokens(e) == eng.events * Tokens(e);
    EvalOwnTokens(e, active, eng.events);
    NotWokenBy(eng.registry, eng.registry.waiters, active, payload, future, e);
  }

  lemma {:induction false} NotWokenBy(r: Registry, waiters: seq<Waiter>, active: set<string>, payload: Value,
      future: nat, e: Expr)
    requires IsPending(r, future) && !Eval(e, active) && forall x :: x in waiters && x.future == future ==> x.expr == e
    ensures IsPending(WakeAll(r, waiters, active, payload), future)
  {
    if waiters != [] {
      assert waiters == waiters[..|waiters| - 1] + [waiters[|waiters| - 1]];
      NotWokenBy(r, waiters[..|waiters| - 1], active, payload, future, e);
      WakeAllSettles(r, waiters[..|waiters| - 1], active, payload, waiters[|waiters| - 1]);
    }
  }
}
