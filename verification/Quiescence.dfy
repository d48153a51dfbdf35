/** What holds of triggers and waiters after an emit. */
module Quiescence {
  import opened Wrappers
  import opened DagModels
  import opened Lexing
  import opened Parsing
  import opened Printing
  import opened Evaluation
  import opened TriggerEngine

  // ----- The reverse index -----

  /** A trigger is listed under each of its tokens exactly as often as it is configured, and under no other token. */
  lemma {:induction false} IndexedExactlyOnce(json: Json, triggers: seq<Trigger>, token: string, t: Trigger)
    ensures multiset(Affected(json, triggers, token))[t]
        == if Mentions(json, t, token) then multiset(triggers)[t] else 0
  {
    if triggers != [] {
      assert triggers == triggers[..|triggers| - 1] + [triggers[|triggers| - 1]];
      IndexedExactlyOnce(json, triggers[..|triggers| - 1], token, t);
    }
  }

  lemma AffectedMembers(json: Json, triggers: seq<Trigger>, token: string, t: Trigger)
    ensures t in Affected(json, triggers, token) <==> t in triggers && Mentions(json, t, token)
  {
    IndexedExactlyOnce(json, triggers, token, t);
    assert t in triggers <==> t in multiset(triggers);
    assert t in Affected(json, triggers, token) <==> t in multiset(Affected(json, triggers, token));
  }

  /** A trigger that an event makes true is found under that event. */
  lemma FlippedIsIndexed(json: Json, triggers: seq<Trigger>, t: Trigger, events: set<string>, event: string)
    requires t in triggers && !IsTrue(json, t, events) && IsTrue(json, t, events + {event})
    ensures t in Affected(json, triggers, event)
  {
    FlippedByOwnToken(ExprOf(json, t).value.value, events, event);
    AffectedMembers(json, triggers, event, t);
  }

  lemma TrueIsMonotone(json: Json, t: Trigger, events: set<string>, more: set<string>)
    requires IsTrue(json, t, events) && events <= more
    ensures IsTrue(json, t, more)
  {
    EvalIsMonotone(ExprOf(json, t).value.value, events, more);
  }

  // ----- One turn of the loop -----

  /** Tokens that firing does not consume. */
  function Protected(r: Registry): set<string> {
    ActiveTokens(r) + {"startup"}
  }

  /** The trigger is false, or rests on protected tokens only. */
  predicate Settled(json: Json, t: Trigger, events: set<string>, protect: set<string>) {
    IsTrue(json, t, events) ==> Matched(ExprOf(json, t).value.value, events) <= protect
  }

  lemma SettledStays(json: Json, t: Trigger, events: set<string>, fewer: set<string>, protect: set<string>)
    requires Settled(json, t, events, protect) && fewer <= events
    ensures Settled(json, t, fewer, protect)
  {
    if IsTrue(json, t, fewer) {
      TrueIsMonotone(json, t, fewer, events);
    }
  }

  /** Triggers only ever change by being disabled. */
  ghost predicate OnlyDisabled(before: seq<Trigger>, after: seq<Trigger>) {
    |after| == |before| && forall i :: 0 <= i < |before| ==> after[i] == before[i] || !after[i].enabled
  }

  /** What handling triggers never does. */
  ghost predicate Shrinks(o: Outcome, o': Outcome) {
    && o'.engine.events <= o.engine.events
    && o'.engine.registry == o.engine.registry
    && o'.engine.records == o.engine.records
    && OnlyDisabled(o.engine.triggers, o'.engine.triggers)
  }

  lemma FireShrinks(w: Wiring, events: set<string>, target: string)
    ensures Fire(w, events, target).Ok? ==> Fire(w, events, target).value <= events
  {
  }

  lemma HandleOneShrinks(w: Wiring, o: Outcome, t: Trigger)
    ensures Shrinks(o, HandleOne(w, o, t))
  {
    FireShrinks(w, o.engine.events, t.target);
  }

  /** A trigger that has been handled without an error is settled. */
  lemma HandleOneSettles(w: Wiring, o: Outcome, t: Trigger)
    requires HandleOne(w, o, t).error.None? && t.enabled
    ensures Settled(w.json, t, HandleOne(w, o, t).engine.events, Protected(o.engine.registry))
  {
    if IsTrue(w.json, t, o.engine.events) {
      var e := ExprOf(w.json, t).value.value;
      var fired := Fire(w, o.engine.events, t.target).value;
      var left := Consume(fired, Matched(e, fired) - ActiveTokens(o.engine.registry));
      assert Matched(e, left) <= Protected(o.engine.registry);
    }
  }

  lemma {:induction false} HandleAllShrinks(w: Wiring, o: Outcome, ts: seq<Trigger>)
    ensures Shrinks(o, HandleAll(w, o, ts))
  {
    if ts != [] {
      HandleAllShrinks(w, o, ts[..|ts| - 1]);
      HandleOneShrinks(w, HandleAll(w, o, ts[..|ts| - 1]), ts[|ts| - 1]);
    }
  }

  lemma {:induction false} HandleAllSettles(w: Wiring, o: Outcome, ts: seq<Trigger>, t: Trigger)
    requires HandleAll(w, o, ts).error.None? && t in ts && t.enabled
    ensures Settled(w.json, t, HandleAll(w, o, ts).engine.events, Protected(o.engine.registry))
  {
    var before, last := HandleAll(w, o, ts[..|ts| - 1]), ts[|ts| - 1];
    HandleAllShrinks(w, o, ts[..|ts| - 1]);
    HandleOneShrinks(w, before, last);
    if t == last {
      HandleOneSettles(w, before, t);
    } else {
      HandleAllSettles(w, o, ts[..|ts| - 1], t);
      SettledStays(w.json, t, before.engine.events, HandleOne(w, before, last).engine.events,
          Protected(o.engine.registry));
    }
  }

  // ----- Quiescence -----

  lemma UnmentionedEvent(json: Json, t: Trigger, events: set<string>, event: string)
    requires !Mentions(json, t, event)
    ensures IsTrue(json, t, events + {event}) == IsTrue(json, t, events)
  {
    var e := ExprOf(json, t);
    if e.Ok? && e.value.Some? {
      assert (events + {event}) * Tokens(e.value.value) == events * Tokens(e.value.value);
      EvalOwnTokens(e.value.value, events, events + {event});
    }
  }

  lemma SettledIsTrueOnProtected(json: Json, t: Trigger, events: set<string>, protect: set<string>)
    requires Settled(json, t, events, protect) && IsTrue(json, t, events)
    ensures IsTrue(json, t, events * protect)
  {
    var e := ExprOf(json, t).value.value;
    MatchedTokensDecide(e, events);
    EvalIsMonotone(e, Matched(e, events), events * protect);
  }

  /**
   After an emit that succeeds, an enabled trigger is true only if it was true before the emit
   already, without the emitted event, or if it is true on protected tokens alone: `startup` and
   the tokens of woken waiters.
   */
  lemma EmitSettles(w: Wiring, eng: Engine, event: string, payload: Value, depth: nat, t: Trigger)
    requires t in eng.triggers && t.enabled && Emit(w, eng, event, payload, depth).error.None?
    requires IsTrue(w.json, t, Emit(w, eng, event, payload, depth).engine.events)
    ensures var end := Emit(w, eng, event, payload, depth).engine;
      IsTrue(w.json, t, eng.events) || IsTrue(w.json, t, end.events * Protected(end.registry))
  {
    var recorded := eng.(records := eng.records + [Record(event, payload, depth)]);
    var end := Emit(w, eng, event, payload, depth).engine;
    if StartsWith(event, "manual:") || StartsWith(event, "clear:") {
      TrueIsMonotone(w.json, t, end.events, eng.events);
    } else {
      var start := Outcome(SetAndWake(recorded, event, payload), [], None);
      var affected := Affected(w.json, eng.triggers, event);
      HandleAllShrinks(w, start, affected);
      AffectedMembers(w.json, eng.triggers, event, t);
      if t in affected {
        HandleAllSettles(w, start, affected, t);
        SettledIsTrueOnProtected(w.json, t, end.events, Protected(end.registry));
      } else {
        TrueIsMonotone(w.json, t, end.events, eng.events + {event});
        UnmentionedEvent(w.json, t, eng.events, event);
      }
    }
  }

  ghost predicate NoneTrueOn(json: Json, triggers: seq<Trigger>, events: set<string>) {
    forall t {:trigger t in triggers} :: t in triggers && t.enabled ==> !IsTrue(json, t, events)
  }

  ghost predicate Quiet(json: Json, eng: Engine) {
    NoneTrueOn(json, eng.triggers, eng.events)
  }

  lemma EmitOnlyDisables(w: Wiring, eng: Engine, event: string, payload: Value, depth: nat)
    ensures OnlyDisabled(eng.triggers, Emit(w, eng, event, payload, depth).engine.triggers)
  {
    var recorded := eng.(records := eng.records + [Record(event, payload, depth)]);
    HandleAllShrinks(w, Outcome(SetAndWake(recorded, event, payload), [], None), Affected(w.json, eng.triggers, event));
  }

  lemma EnabledBefore(before: seq<Trigger>, after: seq<Trigger>, t: Trigger)
    requires OnlyDisabled(before, after) && t in after && t.enabled
    ensures t in before
  {
    var i :| 0 <= i < |after| && after[i] == t;
    assert before[i] == t;
  }

  /**
   An engine in which no enabled trigger is true is so again after a successful emit, exactly if then no
   enabled trigger is true on the protected tokens alone.
   */
  lemma EmitStaysQuiet(w: Wiring, eng: Engine, event: string, payload: Value, depth: nat)
    requires Quiet(w.json, eng) && Emit(w, eng, event, payload, depth).error.None?
    ensures var end := Emit(w, eng, event, payload, depth).engine;
      Quiet(w.json, end) <==> NoneTrueOn(w.json, end.triggers, end.events * Protected(end.registry))
  {
    var end := Emit(w, eng, event, payload, depth).engine;
    EmitOnlyDisables(w, eng, event, payload, depth);
    forall t | t in end.triggers && t.enabled
      ensures IsTrue(w.json, t, end.events) <==> IsTrue(w.json, t, end.events * Protected(end.registry))
    {
      EnabledBefore(eng.triggers, end.triggers, t);
      if IsTrue(w.json, t, end.events) {
        EmitSettles(w, eng, event, payload, depth, t);
      }
      if IsTrue(w.json, t, end.events * Protected(end.registry)) {
        TrueIsMonotone(w.json, t, end.events * Protected(end.registry), end.events);
      }
    }
  }

  /** The protected tokens among the events, once the event is set and the waiters are woken. */
  function ProtectedBy(eng: Engine, event: string, payload: Value): set<string> {
    var events := eng.events + {event};
    events * Protected(WakeAll(eng.registry, eng.registry.waiters, events, payload))
  }

  /**
   Before the emit one can tell: it stays quiet if no enabled trigger is true on the tokens that will be
   protected.
   */
  lemma QuietIsForeseen(w: Wiring, eng: Engine, event: string, payload: Value, depth: nat)
    requires Quiet(w.json, eng) && Emit(w, eng, event, payload, depth).error.None?
    requires NoneTrueOn(w.json, eng.triggers, ProtectedBy(eng, event, payload))
    ensures Quiet(w.json, Emit(w, eng, event, payload, depth).engine)
  {
    var end := Emit(w, eng, event, payload, depth).engine;
    EmitOnlyDisables(w, eng, event, payload, depth);
    EmitStaysQuiet(w, eng, event, payload, depth);
    ProtectedAtEnd(w, eng, event, payload, depth);
    forall t | t in end.triggers && t.enabled ensures !IsTrue(w.json, t, end.events * Protected(end.registry)) {
      EnabledBefore(eng.triggers, end.triggers, t);
      var kept := end.events * Protected(end.registry);
      if IsTrue(w.json, t, kept) {
        TrueIsMonotone(w.json, t, kept, if kept <= eng.events then eng.events else ProtectedBy(eng, event, payload));
      }
    }
  }

  lemma ProtectedAtEnd(w: Wiring, eng: Engine, event: string, payload: Value, depth: nat)
    requires Emit(w, eng, event, payload, depth).error.None?
    ensures var end := Emit(w, eng, event, payload, depth).engine;
      end.events <= eng.events || end.events * Protected(end.registry) <= ProtectedBy(eng, event, payload)
  {
    if !StartsWith(event, "manual:") && !StartsWith(event, "clear:") {
      var recorded := eng.(records := eng.records + [Record(event, payload, depth)]);
      HandleAllShrinks(w, Outcome(SetAndWake(recorded, event, payload), [], None),
          Affected(w.json, eng.triggers, event));
    }
  }

  datatype Emission = Emission(event: string, payload: Value, depth: nat)

  function AfterEmission(w: Wiring, eng: Engine, e: Emission): Outcome {
    Emit(w, eng, e.event, e.payload, e.depth)
  }

  ghost predicate AllSucceed(w: Wiring, eng: Engine, emissions: seq<Emission>)
    decreases |emissions|
  {
    emissions == [] ||
      (AfterEmission(w, eng, emissions[0]).error.None?
          && AllSucceed(w, AfterEmission(w, eng, emissions[0]).engine, emissions[1..]))
  }

  ghost predicate QuietThroughout(w: Wiring, eng: Engine, emissions: seq<Emission>)
    decreases |emissions|
  {
    Quiet(w.json, eng) && (emissions == []
        || QuietThroughout(w, AfterEmission(w, eng, emissions[0]).engine, emissions[1..]))
  }

  /** After no emit is an enabled trigger true on the protected tokens alone. */
  ghost predicate NeverTrueOnProtected(w: Wiring, eng: Engine, emissions: seq<Emission>)
    decreases |emissions|
  {
    emissions == [] ||
      var end := AfterEmission(w, eng, emissions[0]).engine;
      NoneTrueOn(w.json, end.triggers, end.events * Protected(end.registry))
          && NeverTrueOnProtected(w, end, emissions[1..])
  }

  /**
   Over a sequence of successful emits an engine that is quiet at first stays quiet throughout exactly if no
   enabled trigger ever rests on protected tokens.
   */
  lemma {:induction false} RunsStayQuiet(w: Wiring, eng: Engine, emissions: seq<Emission>)
    requires Quiet(w.json, eng) && AllSucceed(w, eng, emissions)
    ensures QuietThroughout(w, eng, emissions) <==> NeverTrueOnProtected(w, eng, emissions)
    decreases |emissions|
  {
    if emissions != [] {
      var end := AfterEmission(w, eng, emissions[0]).engine;
      EmitStaysQuiet(w, eng, emissions[0].event, emissions[0].payload, emissions[0].depth);
      if Quiet(w.json, end) {
        RunsStayQuiet(w, end, emissions[1..]);
      } else {
        assert !QuietThroughout(w, end, emissions[1..]);
      }
    }
  }

  /** Each emit, looked at before it is made, lets no enabled trigger rest on the tokens that will be protected. */
  ghost predicate Foreseen(w: Wiring, eng: Engine, emissions: seq<Emission>)
    decreases |emissions|
  {
    emissions == [] ||
      (NoneTrueOn(w.json, eng.triggers, ProtectedBy(eng, emissions[0].event, emissions[0].payload))
       && Foreseen(w, AfterEmission(w, eng, emissions[0]).engine, emissions[1..]))
  }

  lemma {:induction false} ForeseenRunsStayQuiet(w: Wiring, eng: Engine, emissions: seq<Emission>)
    requires Quiet(w.json, eng) && AllSucceed(w, eng, emissions) && Foreseen(w, eng, emissions)
    ensures QuietThroughout(w, eng, emissions)
    decreases |emissions|
  {
    if emissions != [] {
      QuietIsForeseen(w, eng, emissions[0].event, emissions[0].payload, emissions[0].depth);
      ForeseenRunsStayQuiet(w, AfterEmission(w, eng, emissions[0]).engine, emissions[1..]);
    }
  }

  // ----- Nothing is missed -----

  /**
   A successful loop fires nothing exactly if no enabled trigger in it is true at the start; then it changes
   nothing.
   */
  lemma {:induction false} FiresExactlyWhenTrue(w: Wiring, eng: Engine, ts: seq<Trigger>)
    requires HandleAll(w, Outcome(eng, [], None), ts).error.None?
    ensures HandleAll(w, Outcome(eng, [], None), ts).fired == [] <==> forall t ::
        t in ts && t.enabled ==> !IsTrue(w.json, t, eng.events)
    ensures HandleAll(w, Outcome(eng, [], None), ts).fired == [] ==>
        HandleAll(w, Outcome(eng, [], None), ts).engine == eng
  {
    if ts != [] {
      assert ts == ts[..|ts| - 1] + [ts[|ts| - 1]];
      FiresExactlyWhenTrue(w, eng, ts[..|ts| - 1]);
    }
  }

  /** The trigger fires in its turn. */
  predicate Fires(w: Wiring, o: Outcome, t: Trigger) {
    o.error.None? && t.enabled && IsTrue(w.json, t, o.engine.events) && HandleOne(w, o, t).error.None?
  }

  /** What remains set after a trigger has fired: all but the event its target clears and its own unprotected tokens. */
  lemma FiringIsExact(w: Wiring, o: Outcome, t: Trigger, token: string)
    requires Fires(w, o, t)
    ensures token in HandleOne(w, o, t).engine.events <==>
              && token in o.engine.events && t.target != "clear:" + token
              && (Mentions(w.json, t, token) ==> token in Protected(o.engine.registry))
  {
    if StartsWith(t.target, "clear:") {
      assert t.target == "clear:" + t.target[6..];
    }
    assert ("clear:" + token)[6..] == token;
  }

  /** A trigger with a cron token for particular days is disabled once it has fired, and so is nothing else. */
  lemma OneshotIsDisabled(w: Wiring, o: Outcome, t: Trigger, i: nat)
    requires Fires(w, o, t) && i < |o.engine.triggers|
    ensures i < |HandleOne(w, o, t).engine.triggers|
    ensures var after, oneshot := HandleOne(w, o, t).engine.triggers[i], exists token {:trigger OneshotToken(token)} ::
        Mentions(w.json, t, token) && OneshotToken(token);
      && (oneshot && o.engine.triggers[i].id == t.id ==> after == t.(enabled := false))
      && (!oneshot || o.engine.triggers[i].id != t.id ==> after == o.engine.triggers[i])
  {
    var e := ExprOf(w.json, t).value.value;
    assert IsOneshot(Tokens(e)) <==> exists token {:trigger OneshotToken(token)} ::
        Mentions(w.json, t, token) && OneshotToken(token);
  }

  /** `dag:` with a name, or `node:` with a name that has a slash. */
  predicate IsTarget(target: string) {
    || (StartsWith(target, "dag:") && target != "dag:")
    || (StartsWith(target, "node:") && '/' in target)
  }

  lemma {:induction false} SplitAtColon(s: string)
    ensures AfterColon(s).Some? ==> s == UpTo(s, ':') + ":" + AfterColon(s).value
  {
    if s != "" && s[0] != ':' {
      SplitAtColon(s[1..]);
      assert s == [s[0]] + s[1..];
    }
  }

  lemma {:induction false} FirstColon(word: string, rest: string)
    requires ':' !in word
    ensures UpTo(word + ":" + rest, ':') == word && AfterColon(word + ":" + rest) == Some(rest)
  {
    var s := word + ":" + rest;
    if word == "" {
      assert s[1..] == rest;
    } else {
      assert s[1..] == word[1..] + ":" + rest;
      FirstColon(word[1..], rest);
    }
  }

  /** A manual event is accepted exactly if what follows `manual:` is a target, and then names that target. */
  lemma ManualEventNamesTarget(target: string)
    ensures ManualTarget("manual:" + target) == if IsTarget(target) then Some(target) else None
  {
    assert RemovePrefix("manual:" + target, "manual:") == target;
    SplitAtColon(target);
    if StartsWith(target, "dag:") {
      assert target == "dag" + ":" + target[4..];
      FirstColon("dag", target[4..]);
    } else if StartsWith(target, "node:") {
      assert target == "node" + ":" + target[5..];
      FirstColon("node", target[5..]);
      assert '/' in target <==> '/' in target[5..];
    }
  }

  // ----- Waiters -----

  /** The waiter is registered and pending although its expression is true. */
  predicate Overlooked(r: Registry, events: set<string>, x: Waiter) {
    x in r.waiters && IsPending(r, x.future) && Eval(x.expr, events)
  }

  ghost predicate NoneOverlooked(r: Registry, events: set<string>) {
    forall x {:trigger x in r.waiters} :: x in r.waiters ==> !Overlooked(r, events, x)
  }

  lemma {:induction false} WakeAllSettles(r: Registry, waiters: seq<Waiter>, active: set<string>, payload: Value,
      x: Waiter)
    ensures var r' := WakeAll(r, waiters, active, payload);
      && r'.waiters == r.waiters && |r'.futures| == |r.futures|
      && (IsPending(r', x.future) ==> IsPending(r, x.future) && (x in waiters ==> !Eval(x.expr, active)))
  {
    if waiters != [] {
      assert waiters == waiters[..|waiters| - 1] + [waiters[|waiters| - 1]];
      WakeAllSettles(r, waiters[..|waiters| - 1], active, payload, x);
    }
  }

  lemma FewerEventsOverlookNone(r: Registry, events: set<string>, fewer: set<string>, x: Waiter)
    requires !Overlooked(r, events, x) && fewer <= events
    ensures !Overlooked(r, fewer, x)
  {
    if Eval(x.expr, fewer) {
      EvalIsMonotone(x.expr, fewer, events);
    }
  }

  /** A plain event overlooks no waiter, whatever was the case before. */
  lemma PlainEventServes(w: Wiring, eng: Engine, event: string, payload: Value, x: Waiter)
    requires event != ""
    ensures var end := EmitEvent(w, eng, event, payload).engine; !Overlooked(end.registry, end.events, x)
  {
    var woken := SetAndWake(eng, event, payload);
    var end := EmitEvent(w, eng, event, payload).engine;
    WakeAllSettles(eng.registry, eng.registry.waiters, eng.events + {event}, payload, x);
    HandleAllShrinks(w, Outcome(woken, [], None), Affected(w.json, eng.triggers, event));
    FewerEventsOverlookNone(woken.registry, woken.events, end.events, x);
  }

  /** Whatever is emitted, and whether or not it succeeds, a waiter that was not overlooked before is not afterwards. */
  lemma EmitServes(w: Wiring, eng: Engine, event: string, payload: Value, depth: nat, x: Waiter)
    requires !Overlooked(eng.registry, eng.events, x)
    ensures var end := Emit(w, eng, event, payload, depth).engine; !Overlooked(end.registry, end.events, x)
  {
    var recorded := eng.(records := eng.records + [Record(event, payload, depth)]);
    var end := Emit(w, eng, event, payload, depth).engine;
    if depth < w.maxDepth && !StartsWith(event, "manual:") && !StartsWith(event, "clear:") && event != "" {
      PlainEventServes(w, recorded, event, payload, x);
    } else {
      FewerEventsOverlookNone(eng.registry, eng.events, end.events, x);
    }
  }

  lemma EmitKeepsWaiters(w: Wiring, eng: Engine, event: string, payload: Value, depth: nat)
    ensures Emit(w, eng, event, payload, depth).engine.registry.waiters == eng.registry.waiters
    ensures |Emit(w, eng, event, payload, depth).engine.registry.futures| == |eng.registry.futures|
  {
    var recorded := eng.(records := eng.records + [Record(event, payload, depth)]);
    var woken := SetAndWake(recorded, event, payload);
    WakeAllSettles(eng.registry, eng.registry.waiters, eng.events + {event}, payload, Waiter(Token(""), 0));
    HandleAllShrinks(w, Outcome(woken, [], None), Affected(w.json, eng.triggers, event));
  }

  lemma EmitOverlooksNone(w: Wiring, eng: Engine, event: string, payload: Value, depth: nat)
    requires NoneOverlooked(eng.registry, eng.events)
    ensures var end := Emit(w, eng, event, payload, depth).engine; NoneOverlooked(end.registry, end.events)
  {
    EmitKeepsWaiters(w, eng, event, payload, depth);
    var end := Emit(w, eng, event, payload, depth).engine;
    forall x | x in end.registry.waiters ensures !Overlooked(end.registry, end.events, x) {
      EmitServes(w, eng, event, payload, depth, x);
    }
  }

  /**
   Triggers never consume a token that a woken waiter holds: it can only be cleared by a trigger whose target
   says so.
   */
  lemma {:induction false} WokenTokensSurvive(w: Wiring, o: Outcome, ts: seq<Trigger>, token: string)
    requires token in o.engine.events && token in Protected(o.engine.registry)
    requires forall t :: t in ts ==> t.target != "clear:" + token
    ensures token in HandleAll(w, o, ts).engine.events
  {
    if ts != [] {
      assert ts == ts[..|ts| - 1] + [ts[|ts| - 1]];
      var before, t := HandleAll(w, o, ts[..|ts| - 1]), ts[|ts| - 1];
      WokenTokensSurvive(w, o, ts[..|ts| - 1], token);
      HandleAllShrinks(w, o, ts[..|ts| - 1]);
      assert t in ts;
      if StartsWith(t.target, "clear:") {
        assert t.target == "clear:" + t.target[6..];
      }
    }
  }

  // ----- A token that firing leaves set -----

  function OneTrigger(): Trigger {
    Trigger("t", true, Some("e"), "dag:x")
  }

  /** A trigger and a waiter on the same event, nothing set yet. */
  function TriggerAndWaiter(): Engine {
    Engine({}, Registry([Waiter(Token("e"), 0)], map[], [Pending]), [OneTrigger()], [])
  }

  lemma OneTokenParses(json: Json)
    ensures ParseText(json, "e") == Ok(Token("e"))
  {
    var classify := Classifying(json);
    assert WordEnd("e", 1) == Some(1) && WordEnd("e", 0) == Some(1);
    assert Validate(json, "e") == None;
    assert Lexable(classify, "e");
    RoundTrip(json, Token("e"));
  }

  lemma WaiterIsWoken(payload: Value)
    ensures var eng := TriggerAndWaiter();
      WakeAll(eng.registry, eng.registry.waiters, eng.events + {"e"}, payload).matched == map[0 := {"e"}]
  {
    var r := TriggerAndWaiter().registry;
    var active := {} + {"e"};
    assert r.waiters[..0] == [] && WakeAll(r, [], active, payload) == r;
    assert Matched(Token("e"), active) == {"e"};
    assert WakeOne(r, r.waiters[0], active, payload).matched == map[0 := {"e"}];
  }

  /** The emit fires the trigger and wakes the waiter; the event is not cleared, because the waiter holds it. */
  lemma WokenTokenStaysSet(w: Wiring, payload: Value)
    requires w.maxDepth > 0 && w.launch("dag:x").Launched?
    ensures var o := Emit(w, TriggerAndWaiter(), "e", payload, 0);
      o.error.None? && o.fired == ["dag:x"] && "e" in o.engine.events
  {
    var eng := TriggerAndWaiter();
    var recorded := eng.(records := eng.records + [Record("e", payload, 0)]);
    OneTokenParses(w.json);
    assert !AllSpace("e") by {
      assert 'e' in "e" && !IsSpace('e');
    }
    assert ExprOf(w.json, OneTrigger()) == Ok(Some(Token("e")));
    var woken := SetAndWake(recorded, "e", payload);
    WaiterIsWoken(payload);
    assert "e" in ActiveTokens(woken.registry) by {
      assert 0 in woken.registry.matched && "e" in woken.registry.matched[0];
    }
    var ts := Affected(w.json, eng.triggers, "e");
    assert ts == [OneTrigger()] by {
      assert eng.triggers[..0] == [];
    }
    assert ts[..0] == [];
    assert FirstBad(w.json, eng.triggers).None?;
    WokenTokensSurvive(w, Outcome(woken, [], None), ts, "e");
  }

  /** A waiter woken by an emit holds tokens that were set and that make its expression true. */
  lemma {:induction false} WokenHoldsTrueTokens(r: Registry, waiters: seq<Waiter>, active: set<string>, payload: Value,
      future: nat)
    requires IsPending(r, future) && !IsPending(WakeAll(r, waiters, active, payload), future)
    ensures var r' := WakeAll(r, waiters, active, payload);
      && future < |r'.futures| && r'.futures[future] == Woken(payload) && future in r'.matched
      && exists x ::
          x in waiters && x.future == future && Eval(x.expr, r'.matched[future]) && r'.matched[future] <= active
  {
    if waiters != [] {
      assert waiters == waiters[..|waiters| - 1] + [waiters[|waiters| - 1]];
      var before, x := WakeAll(r, waiters[..|waiters| - 1], active, payload), waiters[|waiters| - 1];
      if IsPending(before, future) {
        WakeAllSettles(r, waiters[..|waiters| - 1], active, payload, x);
        MatchedTokensDecide(x.expr, active);
        assert x in waiters;
      } else {
        WokenHoldsTrueTokens(r, waiters[..|waiters| - 1], active, payload, future);
      }
    }
  }
}
