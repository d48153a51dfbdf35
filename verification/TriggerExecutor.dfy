/** `EventGroup`, `WaitRegistry` and `TriggerExecutor`, tied to the functions of the trigger engine. */
module TriggerExecutor {
  import opened Wrappers
  import opened DagModels
  import opened Lexing
  import opened Parsing
  import opened Printing
  import opened Evaluation
  import opened TriggerEngine
  import opened Quiescence

  class EventGroup {
    var events: set<string>

    constructor ()
      ensures events == {}
    {
      events := {};
    }

    method Set(event: string) returns (error: Option<EmitError>)
      modifies this
      ensures if event == "" then error == Some(BlankEvent) && events == old(events)
          else error == None && events == old(events) + {event}
    {
      if event == "" {
        return Some(BlankEvent);
      }
      events := events + {event};
      return None;
    }

    method Clear(event: string)
      modifies this
      ensures events == old(events) - {event}
    {
      events := events - {event};
    }

    method ConsumeAll(tokens: set<string>)
      modifies this
      ensures events == Consume(old(events), tokens)
    {
      var todo := tokens;
      while todo != {}
        invariant todo <= tokens && events == Consume(old(events), tokens - todo)
      {
        var token :| token in todo;
        todo := todo - {token};
        if token != "startup" {
          Clear(token);
        }
      }
      assert tokens - {} == tokens;
    }
  }

  class WaitRegistry {
    var waiters: seq<Waiter>
    var matched: map<nat, set<string>>
    var futures: seq<Future>

    function View(): Registry
      reads this
    {
      Registry(waiters, matched, futures)
    }

    constructor ()
      ensures View() == Registry([], map[], [])
    {
      waiters, matched, futures := [], map[], [];
    }

    method RegisterWaiter(expr: Expr) returns (future: nat)
      modifies this
      ensures View() == Register(old(View()), expr) && future == |old(futures)|
    {
      future := |futures|;
      futures := futures + [Pending];
      waiters := waiters + [Waiter(expr, future)];
    }

    method UnregisterWaiter(future: nat)
      modifies this
      ensures View() == Unregister(old(View()), future)
    {
      var kept: seq<Waiter> := [];
      for i := 0 to |waiters|
        invariant kept == OthersThan(waiters[..i], future)
      {
        assert waiters[..i + 1][..i] == waiters[..i];
        if waiters[i].future != future {
          kept := kept + [waiters[i]];
        }
      }
      assert waiters[..|waiters|] == waiters;
      waiters := kept;
      matched := matched - {future};
    }

    method Ready(active: set<string>, payload: Value)
      modifies this
      ensures View() == WakeAll(old(View()), old(waiters), active, payload)
    {
      var all := waiters;
      for i := 0 to |all|
        invariant waiters == all && View() == WakeAll(old(View()), all[..i], active, payload)
      {
        assert all[..i + 1][..i] == all[..i];
        var waiter := all[i];
        if waiter.future < |futures| && futures[waiter.future] == Pending {
          var holds, tokens := EvaluateExpression(waiter.expr, active);
          if holds {
            matched := matched[waiter.future := Matched(waiter.expr, active)];
            futures := futures[waiter.future := Woken(payload)];
          }
        }
      }
      assert all[..|all|] == all;
    }
  }

  class Executor {
    const wiring: Wiring
    const events: EventGroup
    const waiters: WaitRegistry
    var triggers: seq<Trigger>
    var records: seq<Record>

    function View(): Engine
      reads this, events, waiters
    {
      Engine(events.events, waiters.View(), triggers, records)
    }

    constructor (wiring: Wiring, triggers: seq<Trigger>)
      ensures fresh(events) && fresh(waiters) && this.wiring == wiring
      ensures View() == Engine({}, Registry([], map[], []), triggers, [])
    {
      this.wiring := wiring;
      this.triggers, records := triggers, [];
      events := new EventGroup();
      waiters := new WaitRegistry();
    }

    /** `reverse_index`: under every token the triggers that mention it; the first malformed condition is an error. */
    method ReverseIndex() returns (index: Result<map<string, seq<Trigger>>, SyntaxError>)
      ensures index.Err? <==> FirstBad(wiring.json, triggers).Some?
      ensures index.Err? ==> Some(index.error) == FirstBad(wiring.json, triggers)
      ensures index.Ok? ==> forall token ::
                Affected(wiring.json, triggers, token) == if token in index.value then index.value[token] else []
    {
      var entries: map<string, seq<Trigger>> := map[];
      assert triggers[0..] == triggers;
      for i := 0 to |triggers|
        invariant FirstBad(wiring.json, triggers) == FirstBad(wiring.json, triggers[i..])
        invariant forall token :: Affected(wiring.json, triggers[..i], token) == Entry(entries, token)
      {
        assert triggers[i..][1..] == triggers[i + 1..] && triggers[..i + 1][..i] == triggers[..i];
        var t := triggers[i];
        var expr := ExprOf(wiring.json, t);
        if expr.Err? {
          return Err(expr.error);
        }
        ghost var before := entries;
        if expr.value.Some? {
          entries := AddUnder(entries, Tokens(expr.value.value), t);
        }
        forall token ensures Affected(wiring.json, triggers[..i + 1], token) == Entry(entries, token) {
          assert Affected(wiring.json, triggers[..i], token) == Entry(before, token);
        }
      }
      assert triggers[..|triggers|] == triggers;
      return Ok(entries);
    }

    /** One turn of the loop over the affected triggers. */
    method HandleTrigger(t: Trigger, fired: seq<string>) returns (fired': seq<string>, error: Option<EmitError>)
      modifies this, events
      ensures Outcome(View(), fired', error) == HandleOne(wiring, Outcome(old(View()), fired, None), t)
      ensures waiters.View() == old(waiters.View())
    {
      fired', error := fired, None;
      if !t.enabled {
        return;
      }
      var expr := ExprOf(wiring.json, t);
      if expr.Err? || expr.value.None? {
        return;
      }
      var e := expr.value.value;
      if !Eval(e, events.events) {
        return;
      }
      if StartsWith(t.target, "clear:") {
        events.Clear(RemovePrefix(t.target, "clear:"));
      } else if !((StartsWith(t.target, "dag:") || StartsWith(t.target, "node:"))
          && wiring.launch(t.target).Launched?) {
        return fired, Some(BadTarget);
      }
      fired' := fired + [t.target];
      events.ConsumeAll(Matched(e, events.events) - ActiveTokens(waiters.View()));
      if IsOneshot(Tokens(e)) {
        DisableTrigger(t);
      }
    }

    /** `_disable_trigger` */
    method DisableTrigger(t: Trigger)
      modifies this`triggers
      ensures triggers == Disable(old(triggers), t)
    {
      var updated := t.(enabled := false);
      var items: seq<Trigger> := [];
      for i := 0 to |triggers|
        invariant items == Disable(old(triggers), t)[..i]
      {
        items := items + [if triggers[i].id == updated.id then updated else triggers[i]];
      }
      triggers := items;
    }

    /** The end of `emit`, for an event that is neither `manual:` nor `clear:`. */
    method EmitPlain(event: string, payload: Value) returns (fired: seq<string>, error: Option<EmitError>)
      modifies this, events, waiters
      ensures Outcome(View(), fired, error) == EmitEvent(wiring, old(View()), event, payload)
    {
      fired := [];
      error := events.Set(event);
      if error.Some? {
        return;
      }
      waiters.Ready(events.events, payload);
      var index := ReverseIndex();
      if index.Err? {
        return [], Some(BadExpression(index.error));
      }
      var affected := if event in index.value then index.value[event] else [];
      ghost var start := Outcome(View(), [], None);
      for i := 0 to |affected|
        invariant error.None? && Outcome(View(), fired, error) == HandleAll(wiring, start, affected[..i])
      {
        assert affected[..i + 1][..i] == affected[..i];
        fired, error := HandleTrigger(affected[i], fired);
        if error.Some? {
          StopsAtError(wiring, start, affected, i + 1);
          return;
        }
      }
      assert affected[..|affected|] == affected;
    }

    /** `emit` */
    method EmitOne(event: string, payload: Value, depth: nat) returns (fired: seq<string>, error: Option<EmitError>)
      modifies this, events, waiters
      ensures Outcome(View(), fired, error) == Emit(wiring, old(View()), event, payload, depth)
      ensures NoneOverlooked(old(waiters.View()), old(events.events)) ==> NoneOverlooked(waiters.View(), events.events)
    {
      EmitKeepsWaitersServed(wiring, View(), event, payload, depth);
      if depth >= wiring.maxDepth {
        return [], Some(DepthExceeded);
      }
      records := records + [Record(event, payload, depth)];
      if StartsWith(event, "manual:") {
        var target := ManualTarget(event);
        if target.None? {
          return [], Some(BadManualEvent);
        }
        var launch := wiring.launch(target.value);
        if launch.Refused? {
          return [], Some(BadTarget);
        }
        return [if launch.result.Some? then launch.result.value else target.value], None;
      }
      if StartsWith(event, "clear:") {
        events.Clear(RemovePrefix(event, "clear:"));
        return [], None;
      }
      fired, error := EmitPlain(event, payload);
    }
  }

  // ----- Index entries -----

  function Entry(entries: map<string, seq<Trigger>>, token: string): seq<Trigger> {
    if token in entries then entries[token] else []
  }

  /** The inner loop of `reverse_index`. */
  method AddUnder(entries: map<string, seq<Trigger>>, tokens: set<string>, t: Trigger)
      returns (entries': map<string, seq<Trigger>>)
    ensures forall token :: Entry(entries', token) == Entry(entries, token) + if token in tokens then [t] else []
  {
    entries' := entries;
    var todo := tokens;
    while todo != {}
      invariant todo <= tokens
      invariant forall token ::
                  Entry(entries', token) == Entry(entries, token) + if token in tokens - todo then [t] else []
    {
      var token :| token in todo;
      todo := todo - {token};
      entries' := entries'[token := Entry(entries', token) + [t]];
    }
  }

  lemma {:induction false} StopsAtError(w: Wiring, o: Outcome, ts: seq<Trigger>, i: nat)
    requires i <= |ts| && HandleAll(w, o, ts[..i]).error.Some?
    ensures HandleAll(w, o, ts) == HandleAll(w, o, ts[..i])
    decreases |ts|
  {
    if i == |ts| {
      assert ts[..i] == ts;
    } else {
      assert ts[..|ts| - 1][..i] == ts[..i];
      StopsAtError(w, o, ts[..|ts| - 1], i);
    }
  }

  lemma EmitKeepsWaitersServed(w: Wiring, eng: Engine, event: string, payload: Value, depth: nat)
    ensures NoneOverlooked(eng.registry, eng.events) ==>
              var end := Emit(w, eng, event, payload, depth).engine; NoneOverlooked(end.registry, end.events)
  {
    if NoneOverlooked(eng.registry, eng.events) {
      EmitOverlooksNone(w, eng, event, payload, depth);
    }
  }
}
