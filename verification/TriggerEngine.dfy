/** Events, waiters and triggers as values, and what one emit does to them. */
module TriggerEngine {
  import opened Wrappers
  import opened DagModels
  import opened Lexing
  import opened Parsing
  import opened Printing
  import opened Evaluation

  datatype Future = Pending | Woken(payload: Value) | Cancelled

  datatype Waiter = Waiter(expr: Expr, future: nat)

  datatype Registry = Registry(waiters: seq<Waiter>, matched: map<nat, set<string>>, futures: seq<Future>)

  datatype Trigger = Trigger(id: string, enabled: bool, waitFor: Option<string>, target: string)

  datatype Record = Record(event: string, payload: Value, depth: nat)

  datatype Engine = Engine(events: set<string>, registry: Registry, triggers: seq<Trigger>, records: seq<Record>)

  datatype Launch = Refused | Launched(result: Option<string>)

  /** What the engine is wired to: JSON validity, starting a DAG or a node, and the depth limit. */
  datatype Wiring = Wiring(json: Json, launch: string -> Launch, maxDepth: nat)

  datatype EmitError = DepthExceeded | BlankEvent | BadManualEvent | BadTarget | BadExpression(error: SyntaxError)

  // ----- Events -----

  /** `EventGroup.consume` */
  function Consume(events: set<string>, tokens: set<string>): set<string> {
    events - (tokens - {"startup"})
  }

  // ----- Waiters -----

  predicate IsPending(r: Registry, future: nat) {
    future < |r.futures| && r.futures[future] == Pending
  }

  function Register(r: Registry, expr: Expr): Registry {
    r.(waiters := r.waiters + [Waiter(expr, |r.futures|)], futures := r.futures + [Pending])
  }

  function OthersThan(waiters: seq<Waiter>, future: nat): seq<Waiter> {
    if waiters == [] then []
    else
      var last := waiters[|waiters| - 1];
      OthersThan(waiters[..|waiters| - 1], future) + if last.future != future then [last] else []
  }

  function Unregister(r: Registry, future: nat): Registry {
    r.(waiters := OthersThan(r.waiters, future), matched := r.matched - {future})
  }

  /** One turn of the loop of `WaitRegistry.ready`. */
  function WakeOne(r: Registry, w: Waiter, active: set<string>, payload: Value): Registry {
    if IsPending(r, w.future) && Eval(w.expr, active) then
      r.(matched := r.matched[w.future := Matched(w.expr, active)], futures := r.futures[w.future := Woken(payload)])
    else r
  }

  function WakeAll(r: Registry, waiters: seq<Waiter>, active: set<string>, payload: Value): Registry {
    if waiters == [] then r
    else WakeOne(WakeAll(r, waiters[..|waiters| - 1], active, payload), waiters[|waiters| - 1], active, payload)
  }

  /** `WaitRegistry.active_tokens` */
  function ActiveTokens(r: Registry): set<string> {
    set future, token | future in r.matched && token in r.matched[future] :: token
  }

  // ----- Triggers -----

  predicate AllSpace(s: string) {
    forall c :: c in s ==> IsSpace(c)
  }

  /** `_trigger_expression`: nothing for a trigger without a condition. */
  function ExprOf(json: Json, t: Trigger): Result<Option<Expr>, SyntaxError> {
    if t.waitFor.None? || AllSpace(t.waitFor.value) then Ok(None)
    else
      var parsed := ParseText(json, t.waitFor.value);
      if parsed.Err? then Err(parsed.error) else Ok(Some(parsed.value))
  }

  /** The trigger's condition is well formed and true. */
  predicate IsTrue(json: Json, t: Trigger, events: set<string>) {
    var e := ExprOf(json, t);
    e.Ok? && e.value.Some? && Eval(e.value.value, events)
  }

  predicate Mentions(json: Json, t: Trigger, token: string) {
    var e := ExprOf(json, t);
    e.Ok? && e.value.Some? && token in Tokens(e.value.value)
  }

  /** The entry of the reverse index for a token: each trigger that mentions it, once, in order. */
  function Affected(json: Json, triggers: seq<Trigger>, token: string): seq<Trigger> {
    if triggers == [] then []
    else
      var last := triggers[|triggers| - 1];
      Affected(json, triggers[..|triggers| - 1], token) + if Mentions(json, last, token) then [last] else []
  }

  /** `_is_oneshot`, for one token */
  predicate OneshotToken(token: string) {
    var fields := Fields(CronValue(token));
    StartsWith(token, "cron:\"") && !(|fields| >= 5 && fields[2..5] == ["*", "*", "*"])
  }

  predicate IsOneshot(tokens: set<string>) {
    exists token :: token in tokens && OneshotToken(token)
  }

  /** `_disable_trigger` */
  function Disable(triggers: seq<Trigger>, t: Trigger): (disabled: seq<Trigger>)
    ensures |disabled| == |triggers|
  {
    seq(|triggers|, i requires 0 <= i < |triggers| => if triggers[i].id == t.id then t.(enabled := false)
        else triggers[i])
  }

  // ----- Firing -----

  /** `fire`: the events afterwards. */
  function Fire(w: Wiring, events: set<string>, target: string): Result<set<string>, EmitError> {
    if StartsWith(target, "clear:") then Ok(events - {RemovePrefix(target, "clear:")})
    else if (StartsWith(target, "dag:") || StartsWith(target, "node:")) && w.launch(target).Launched? then Ok(events)
    else Err(BadTarget)
  }

  /** What an emit has done so far; with an error it stops there. */
  datatype Outcome = Outcome(engine: Engine, fired: seq<string>, error: Option<EmitError>)

  /** One turn of the loop over the affected triggers. */
  function HandleOne(w: Wiring, o: Outcome, t: Trigger): Outcome {
    var eng := o.engine;
    if o.error.Some? || !t.enabled || !IsTrue(w.json, t, eng.events) then o
    else
      var after := Fire(w, eng.events, t.target);
      if after.Err? then o.(error := Some(after.error))
      else
        var e := ExprOf(w.json, t).value.value;
        var events := Consume(after.value, Matched(e, after.value) - ActiveTokens(eng.registry));
        Outcome(eng.(events := events, triggers := if IsOneshot(Tokens(e)) then Disable(eng.triggers, t)
            else eng.triggers),
                o.fired + [t.target], None)
  }

  function HandleAll(w: Wiring, o: Outcome, ts: seq<Trigger>): Outcome {
    if ts == [] then o else HandleOne(w, HandleAll(w, o, ts[..|ts| - 1]), ts[|ts| - 1])
  }

  // ----- Emitting -----

  function UpTo(s: string, c: char): string {
    if s == "" || s[0] == c then "" else [s[0]] + UpTo(s[1..], c)
  }

  /** `_manual_target` */
  function ManualTarget(event: string): Option<string> {
    var rest := RemovePrefix(event, "manual:");
    var kind, name := UpTo(rest, ':'), AfterColon(rest);
    if name.None? || name.value == "" then None
    else if kind == "dag" || (kind == "node" && '/' in name.value) then Some(kind + ":" + name.value)
    else None
  }

  function FirstBad(json: Json, triggers: seq<Trigger>): Option<SyntaxError> {
    if triggers == [] then None
    else if ExprOf(json, triggers[0]).Err? then Some(ExprOf(json, triggers[0]).error)
    else FirstBad(json, triggers[1..])
  }

  /** The event is set and the waiters it satisfies are woken. */
  function SetAndWake(eng: Engine, event: string, payload: Value): Engine {
    var events := eng.events + {event};
    eng.(events := events, registry := WakeAll(eng.registry, eng.registry.waiters, events, payload))
  }

  function EmitManual(w: Wiring, eng: Engine, event: string): Outcome {
    var target := ManualTarget(event);
    if target.None? then Outcome(eng, [], Some(BadManualEvent))
    else
      match w.launch(target.value)
      case Refused => Outcome(eng, [], Some(BadTarget))
      case Launched(result) => Outcome(eng, [if result.Some? then result.value else target.value], None)
  }

  /** An emit that is neither `manual:` nor `clear:`. */
  function EmitEvent(w: Wiring, eng: Engine, event: string, payload: Value): Outcome {
    if event == "" then Outcome(eng, [], Some(BlankEvent))
    else
      var woken := SetAndWake(eng, event, payload);
      var bad := FirstBad(w.json, eng.triggers);
      if bad.Some? then Outcome(woken, [], Some(BadExpression(bad.value)))
      else HandleAll(w, Outcome(woken, [], None), Affected(w.json, eng.triggers, event))
  }

  /** `emit` */
  function Emit(w: Wiring, eng: Engine, event: string, payload: Value, depth: nat): Outcome {
    if depth >= w.maxDepth then Outcome(eng, [], Some(DepthExceeded))
    else
      var recorded := eng.(records := eng.records + [Record(event, payload, depth)]);
      if StartsWith(event, "manual:") then EmitManual(w, recorded, event)
      else if StartsWith(event, "clear:") then Outcome(recorded.(events := recorded.events - {RemovePrefix(event,
          "clear:")}), [], None)
      else EmitEvent(w, recorded, event, payload)
  }
}
