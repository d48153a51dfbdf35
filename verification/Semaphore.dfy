/**
 `ResourceSemaphore`: a counting semaphore with a queue of futures. A future is named by the number
 of futures created before it, so that queue order and age can be compared.
 */
module Semaphore {
  import opened Wrappers

  datatype FutureState = Pending | Granted | Cancelled

  datatype Sem = Sem(permits: nat, count: int, waiters: seq<nat>, futures: seq<FutureState>)

  predicate Waiting(s: Sem, w: nat) {
    w < |s.futures| && s.futures[w] == Pending
  }

  /** `_wakeup_next`: futures that are done are dropped, and the first one that is not gets the permit. */
  function WakeUp(s: Sem): Sem
    decreases |s.waiters|
  {
    if s.waiters == [] || s.count <= 0 then s
    else
      var w, rest := s.waiters[0], s.waiters[1..];
      if Waiting(s, w) then s.(waiters := rest, count := s.count - 1, futures := s.futures[w := Granted])
      else WakeUp(s.(waiters := rest))
  }

  function Take(s: Sem): Sem {
    s.(count := s.count - 1)
  }

  function GiveBack(s: Sem): Sem {
    WakeUp(s.(count := s.count + 1))
  }

  /** The part of `acquire` up to its `await`, when no permit is free. */
  function Enqueue(s: Sem): Sem {
    s.(waiters := s.waiters + [|s.futures|], futures := s.futures + [Pending])
  }

  function Without(ws: seq<nat>, w: nat): seq<nat> {
    if ws == [] then [] else if ws[0] == w then ws[1..] else [ws[0]] + Without(ws[1..], w)
  }

  /** The `except` branch of `acquire`. */
  function Abandon(s: Sem, w: nat): Sem {
    if Waiting(s, w) then s.(waiters := Without(s.waiters, w))
    else if s.count > 0 then WakeUp(Take(s))
    else s
  }

  class ResourceSemaphore {
    const permits: nat
    var count: int
    var waiters: seq<nat>
    var futures: seq<FutureState>
    var released: bool

    function View(): Sem
      reads this
    {
      Sem(permits, count, waiters, futures)
    }

    constructor (permits: nat)
      ensures View() == Sem(permits, permits, [], []) && !released
    {
      this.permits := permits;
      count, waiters, futures, released := permits, [], [], false;
    }

    method AcquireNowait() returns (ok: bool)
      modifies this`count
      ensures ok == (old(count) > 0)
      ensures View() == if ok then Take(old(View())) else old(View())
    {
      if count <= 0 {
        return false;
      }
      count := count - 1;
      return true;
    }

    /** Either takes a permit at once, or leaves the future that the caller waits for. */
    method Acquire() returns (future: Option<nat>)
      modifies this`count, this`waiters, this`futures
      ensures future == if old(count) > 0 then None else Some(|old(futures)|)
      ensures View() == if future.None? then Take(old(View())) else Enqueue(old(View()))
    {
      if count > 0 {
        count := count - 1;
        return None;
      }
      var fut := |futures|;
      futures := futures + [Pending];
      waiters := waiters + [fut];
      return Some(fut);
    }

    method WakeupNext()
      modifies this`count, this`waiters, this`futures
      ensures View() == WakeUp(old(View()))
    {
      while waiters != [] && count > 0
        invariant WakeUp(View()) == WakeUp(old(View()))
        decreases |waiters|
      {
        var fut := waiters[0];
        waiters := waiters[1..];
        if fut < |futures| && futures[fut] == Pending {
          count := count - 1;
          futures := futures[fut := Granted];
          return;
        }
      }
    }

    method Release()
      modifies this`count, this`waiters, this`futures, this`released
      ensures View() == GiveBack(old(View())) && released
    {
      count := count + 1;
      released := true;
      WakeupNext();
    }

    /** `waiters.remove(fut)` */
    method Remove(fut: nat)
      modifies this`waiters
      ensures View() == old(View()).(waiters := Without(old(waiters), fut))
    {
      var i := 0;
      while i < |waiters| && waiters[i] != fut
        invariant 0 <= i <= |waiters|
        invariant Without(waiters, fut) == waiters[..i] + Without(waiters[i..], fut)
      {
        assert waiters[i..][1..] == waiters[i + 1..] && waiters[..i + 1] == waiters[..i] + [waiters[i]];
        i := i + 1;
      }
      if i < |waiters| {
        assert waiters[i..][1..] == waiters[i + 1..];
        waiters := waiters[..i] + waiters[i + 1..];
      } else {
        assert waiters[..i] + waiters[i..] == waiters;
      }
    }

    /** A caller waiting for the future is cancelled. */
    method OnCancelled(fut: nat)
      modifies this`count, this`waiters, this`futures
      ensures View() == Abandon(old(View()), fut)
    {
      if fut < |futures| && futures[fut] == Pending {
        Remove(fut);
      } else if count > 0 {
        count := count - 1;
        WakeupNext();
      }
    }
  }
}

/**
 The callers of one semaphore, interleaved in any order. `suspended` are the callers waiting for a
 future; `doomed` those among them that were cancelled after their future had been granted. `lost`
 counts the permits that no caller holds and none can get any more.
 */
module SemaphoreProtocol {
  import opened Wrappers
  import opened Semaphore

  datatype Protocol = Protocol(sem: Sem, suspended: set<nat>, doomed: set<nat>, held: nat, lost: nat)

  datatype Step =
    | TryAcquire             // `acquire_nowait`
    | StartAcquire           // `acquire` up to its `await`
    | Resume(waiter: nat)    // a granted caller goes on and holds its permit
    | Cancel(waiter: nat)    // a suspended caller's task is cancelled: a pending future becomes cancelled
    | Unwind(waiter: nat)    // the cancelled caller runs its `except` branch
    | Throw(waiter: nat)     // the error reaches a caller while its future is still pending
    | GiveUp                 // a holder releases

  function Initial(permits: nat): Protocol {
    Protocol(Sem(permits, permits, [], []), {}, {}, 0, 0)
  }

  predicate IsGranted(s: Sem, w: nat) {
    w < |s.futures| && s.futures[w] == Granted
  }

  predicate Enabled(p: Protocol, step: Step) {
    match step
    case TryAcquire => true
    case StartAcquire => true
    case Resume(w) => w in p.suspended && w !in p.doomed && IsGranted(p.sem, w)
    case Cancel(w) => w in p.suspended && w < |p.sem.futures|
    case Unwind(w) => w in p.suspended && (w in p.doomed || (w < |p.sem.futures| && p.sem.futures[w] == Cancelled))
    case Throw(w) => w in p.suspended && Waiting(p.sem, w)
    case GiveUp => p.held > 0
  }

  /** What a cancelled caller takes with it: the permit it had been granted, and one that was free. */
  function Loss(p: Protocol, w: nat): nat {
    (if IsGranted(p.sem, w) then 1 else 0) + (if p.sem.count > 0 then 1 else 0)
  }

  function Apply(p: Protocol, step: Step): Protocol
    requires Enabled(p, step)
  {
    var s := p.sem;
    match step
    case TryAcquire => if s.count > 0 then p.(sem := Take(s), held := p.held + 1) else p
    case StartAcquire =>
      if s.count > 0 then p.(sem := Take(s), held := p.held + 1)
      else p.(sem := Enqueue(s), suspended := p.suspended + {|s.futures|})
    case Resume(w) => p.(suspended := p.suspended - {w}, held := p.held + 1)
    case Cancel(w) =>
      if s.futures[w] == Pending then p.(sem := s.(futures := s.futures[w := Cancelled]))
      else if s.futures[w] == Granted then p.(doomed := p.doomed + {w})
      else p
    case Unwind(w) => p.(sem := Abandon(s, w), suspended := p.suspended - {w}, doomed := p.doomed - {w}, lost := p.lost
        + Loss(p, w))
    case Throw(w) => p.(sem := Abandon(s, w).(futures := s.futures[w := Cancelled]), suspended := p.suspended - {w})
    case GiveUp => p.(sem := GiveBack(s), held := p.held - 1)
  }

  // ----- The invariant -----

  /** Granted futures whose caller has not gone on yet. */
  ghost function Owed(p: Protocol): set<nat> {
    set w | w in p.suspended && IsGranted(p.sem, w)
  }

  ghost predicate QueueOk(s: Sem) {
    && s.count >= 0
    && (forall i, j :: 0 <= i < j < |s.waiters| ==> s.waiters[i] < s.waiters[j])
    && (forall w {:trigger w in s.waiters} :: w in s.waiters ==> w < |s.futures| && s.futures[w] != Granted)
    && (forall w {:trigger s.futures[w]} :: 0 <= w < |s.futures| && s.futures[w] == Pending ==> w in s.waiters)
    && (s.count > 0 ==> forall w {:trigger w in s.waiters} :: w in s.waiters ==> s.futures[w] != Pending)
  }

  ghost predicate CallersOk(p: Protocol) {
    && (forall w {:trigger w in p.suspended} :: w in p.suspended ==> w < |p.sem.futures|)
    && (forall w {:trigger p.sem.futures[w]} ::
        0 <= w < |p.sem.futures| && p.sem.futures[w] == Pending ==> w in p.suspended)
    && (forall w {:trigger w in p.doomed} :: w in p.doomed ==> w in p.suspended && IsGranted(p.sem, w))
  }

  /** Permits that are free, held, owed to a caller or lost: always as many as there were. */
  ghost function Accounted(p: Protocol): int {
    p.sem.count + p.held + |Owed(p)| + p.lost
  }

  ghost predicate Inv(p: Protocol) {
    QueueOk(p.sem) && CallersOk(p) && Accounted(p) == p.sem.permits
  }

  // ----- Waking up -----

  lemma {:induction false} WakeUpNobody(s: Sem)
    requires s.count > 0 && forall w {:trigger w in s.waiters} :: w in s.waiters ==> !Waiting(s, w)
    ensures WakeUp(s) == s.(waiters := [])
    decreases |s.waiters|
  {
    if s.waiters != [] {
      var rest := s.(waiters := s.waiters[1..]);
      assert s.waiters == [s.waiters[0]] + rest.waiters;
      forall w | w in rest.waiters ensures !Waiting(rest, w) {
        assert w in s.waiters;
      }
      assert s.waiters[0] in s.waiters;
      WakeUpNobody(rest);
    }
  }

  /** Exactly the first live waiter is woken: the ones before it are dropped, the ones behind it stay. */
  lemma {:induction false} WakeUpFirst(s: Sem, i: nat)
    requires s.count > 0 && i < |s.waiters| && Waiting(s, s.waiters[i])
    requires forall j :: 0 <= j < i ==> !Waiting(s, s.waiters[j])
    ensures WakeUp(s) == s.(waiters := s.waiters[i + 1..], count := s.count - 1,
        futures := s.futures[s.waiters[i] := Granted])
    decreases i
  {
    if i > 0 {
      var rest := s.(waiters := s.waiters[1..]);
      assert !Waiting(s, s.waiters[0]);
      forall j | 0 <= j < i - 1 ensures !Waiting(rest, rest.waiters[j]) {
        assert rest.waiters[j] == s.waiters[j + 1];
      }
      WakeUpFirst(rest, i - 1);
    }
  }

  lemma FirstWaiting(s: Sem) returns (i: nat)
    ensures i <= |s.waiters| && (i < |s.waiters| ==> Waiting(s, s.waiters[i]))
    ensures forall j :: 0 <= j < i ==> !Waiting(s, s.waiters[j])
  {
    i := 0;
    while i < |s.waiters| && !Waiting(s, s.waiters[i])
      invariant i <= |s.waiters| && forall j :: 0 <= j < i ==> !Waiting(s, s.waiters[j])
    {
      i := i + 1;
    }
  }

  /** Where a released permit goes: to the first live waiter, or, when there is none, back to the free ones. */
  ghost predicate PassedOn(s: Sem, t: Sem, i: nat) {
    if i < |s.waiters| then
      && Waiting(s, s.waiters[i]) && (forall j :: 0 <= j < i ==> !Waiting(s, s.waiters[j]))
      && t == s.(waiters := s.waiters[i + 1..], futures := s.futures[s.waiters[i] := Granted])
    else
      && (forall w {:trigger w in s.waiters} :: w in s.waiters ==> !Waiting(s, w))
      && t == s.(waiters := [], count := s.count + 1)
  }

  lemma GiveBackPassesOn(s: Sem) returns (i: nat)
    requires s.count >= 0
    ensures i <= |s.waiters| && PassedOn(s, GiveBack(s), i)
  {
    var more := s.(count := s.count + 1);
    i := FirstWaiting(more);
    if i < |s.waiters| {
      WakeUpFirst(more, i);
    } else {
      forall w | w in s.waiters ensures !Waiting(more, w) {
      }
      WakeUpNobody(more);
    }
  }

  lemma {:induction false} WithoutMembers(ws: seq<nat>, w: nat, v: nat)
    requires forall i, j :: 0 <= i < j < |ws| ==> ws[i] < ws[j]
    ensures v in Without(ws, w) <==> v in ws && v != w
    ensures forall i, j :: 0 <= i < j < |Without(ws, w)| ==> Without(ws, w)[i] < Without(ws, w)[j]
  {
    if ws != [] && ws[0] != w {
      var rest := Without(ws[1..], w);
      WithoutMembers(ws[1..], w, v);
      forall k | 0 <= k < |rest| ensures ws[0] < rest[k] {
        WithoutMembers(ws[1..], w, rest[k]);
        assert rest[k] in rest;
      }
      assert Without(ws, w) == [ws[0]] + rest;
      assert ws == [ws[0]] + ws[1..];
    } else if ws != [] {
      assert ws == [ws[0]] + ws[1..];
    }
  }

  // ----- The invariant is kept -----

  lemma GiveBackKeepsQueue(s: Sem)
    requires QueueOk(s)
    ensures QueueOk(GiveBack(s))
  {
    var i := GiveBackPassesOn(s);
    if i < |s.waiters| {
      var t, w := GiveBack(s), s.waiters[i];
      assert w in s.waiters;
      forall v | 0 <= v < |t.futures| && t.futures[v] == Pending ensures v in t.waiters {
        assert s.futures[v] == Pending;
        var k :| 0 <= k < |s.waiters| && s.waiters[k] == v;
        assert i < k;
        assert t.waiters[k - i - 1] == v;
      }
      forall v | v in t.waiters ensures v < |t.futures| && t.futures[v] != Granted {
        var k :| 0 <= k < |t.waiters| && t.waiters[k] == v;
        assert s.waiters[i + 1 + k] == v;
        assert v in s.waiters && v != w;
      }
    } else {
      forall v | 0 <= v < |s.futures| ensures s.futures[v] != Pending {
        assert v in s.waiters ==> !Waiting(s, v);
      }
    }
  }

  lemma AbandonKeepsQueue(s: Sem, w: nat)
    requires QueueOk(s) && w < |s.futures|
    ensures Waiting(s, w) ==> QueueOk(Abandon(s, w).(futures := s.futures[w := Cancelled]))
    ensures !Waiting(s, w) ==> QueueOk(Abandon(s, w))
    ensures Abandon(s, w).permits == s.permits
    ensures !Waiting(s, w) ==> Abandon(s, w).futures == s.futures
    ensures !Waiting(s, w) ==> Abandon(s, w).count == if s.count > 0 then s.count - 1 else 0
  {
    if Waiting(s, w) {
      forall v ensures v in Without(s.waiters, w) <==> v in s.waiters && v != w {
        WithoutMembers(s.waiters, w, v);
      }
      WithoutMembers(s.waiters, w, w);
    } else if s.count > 1 {
      WakeUpNobody(Take(s));
    }
  }

  lemma QueueKept(p: Protocol, step: Step)
    requires Inv(p) && Enabled(p, step)
    ensures QueueOk(Apply(p, step).sem)
  {
    match step
    case TryAcquire =>
    case StartAcquire =>
      forall i | 0 <= i < |p.sem.waiters| ensures p.sem.waiters[i] < |p.sem.futures| {
        assert p.sem.waiters[i] in p.sem.waiters;
      }
    case Resume(_) =>
    case Cancel(_) =>
    case Unwind(w) => AbandonKeepsQueue(p.sem, w);
    case Throw(w) => AbandonKeepsQueue(p.sem, w);
    case GiveUp => GiveBackKeepsQueue(p.sem);
  }

  lemma CallersKept(p: Protocol, step: Step)
    requires Inv(p) && Enabled(p, step)
    ensures CallersOk(Apply(p, step))
  {
    match step
    case TryAcquire =>
    case StartAcquire =>
    case Resume(_) =>
    case Cancel(_) =>
    case Unwind(w) => AbandonKeepsQueue(p.sem, w);
    case Throw(_) =>
    case GiveUp => var i := GiveBackPassesOn(p.sem);
  }

  /** What the account loses when a cancelled caller unwinds is what is written off as lost. */
  lemma UnwindAccounted(p: Protocol, w: nat)
    requires Inv(p) && Enabled(p, Unwind(w))
    ensures Accounted(Apply(p, Unwind(w))) == Accounted(p) && Apply(p, Unwind(w)).sem.permits == p.sem.permits
  {
    var t := Apply(p, Unwind(w));
    AbandonKeepsQueue(p.sem, w);
    assert !Waiting(p.sem, w);
    assert Owed(t) == Owed(p) - {w};
    assert w in Owed(p) <==> IsGranted(p.sem, w);
  }

  lemma AccountKept(p: Protocol, step: Step)
    requires Inv(p) && Enabled(p, step)
    ensures Accounted(Apply(p, step)) == Accounted(p) && Apply(p, step).sem.permits == p.sem.permits
  {
    var t := Apply(p, step);
    match step
    case TryAcquire => assert Owed(t) == Owed(p);
    case StartAcquire => assert Owed(t) == Owed(p);
    case Resume(w) => assert Owed(t) == Owed(p) - {w};
    case Cancel(_) => assert Owed(t) == Owed(p);
    case Unwind(w) => UnwindAccounted(p, w);
    case Throw(_) => assert Owed(t) == Owed(p);
    case GiveUp => GiveUpAccounted(p);
  }

  lemma GiveUpAccounted(p: Protocol)
    requires Inv(p) && p.held > 0
    ensures Accounted(Apply(p, GiveUp)) == Accounted(p) && Apply(p, GiveUp).sem.permits == p.sem.permits
  {
    var t := Apply(p, GiveUp);
    var i := GiveBackPassesOn(p.sem);
    if i < |p.sem.waiters| {
      assert p.sem.waiters[i] in p.suspended;
      assert Owed(t) == Owed(p) + {p.sem.waiters[i]};
    } else {
      assert Owed(t) == Owed(p);
    }
  }

  lemma StepKeeps(p: Protocol, step: Step)
    requires Inv(p) && Enabled(p, step)
    ensures Inv(Apply(p, step))
  {
    QueueKept(p, step);
    CallersKept(p, step);
    AccountKept(p, step);
  }

  // ----- Whole runs -----

  ghost predicate Legal(p: Protocol, steps: seq<Step>)
    decreases |steps|
  {
    steps == [] || (Enabled(p, steps[0]) && Legal(Apply(p, steps[0]), steps[1..]))
  }

  ghost function After(p: Protocol, steps: seq<Step>): Protocol
    requires Legal(p, steps)
    decreases |steps|
  {
    if steps == [] then p else After(Apply(p, steps[0]), steps[1..])
  }

  lemma {:induction false} RunKeeps(p: Protocol, steps: seq<Step>)
    requires Inv(p) && Legal(p, steps)
    ensures Inv(After(p, steps)) && After(p, steps).sem.permits == p.sem.permits
    ensures (forall step :: step in steps ==> !step.Unwind?) ==> After(p, steps).lost == p.lost
    decreases |steps|
  {
    if steps != [] {
      StepKeeps(p, steps[0]);
      AccountKept(p, steps[0]);
      RunKeeps(Apply(p, steps[0]), steps[1..]);
      assert steps == [steps[0]] + steps[1..];
    }
  }

  /**
   In every run, whatever the interleaving: the count is never negative, permits are neither made nor
   used twice, no permit is lost unless a cancelled caller unwinds, and nobody waits while one is free.
   */
  lemma RunIsSafe(permits: nat, steps: seq<Step>)
    requires Legal(Initial(permits), steps)
    ensures var p := After(Initial(permits), steps);
      && p.sem.count >= 0
      && p.sem.count + p.held + |Owed(p)| + p.lost == permits
      && ((forall step :: step in steps ==> !step.Unwind?) ==> p.sem.count + p.held + |Owed(p)| == permits)
      && (p.sem.count > 0 ==> forall w {:trigger Waiting(p.sem, w)} :: !Waiting(p.sem, w))
  {
    assert Owed(Initial(permits)) == {};
    RunKeeps(Initial(permits), steps);
  }

  // ----- Order -----

  /** A caller that takes a permit without waiting overtakes nobody. */
  lemma FastPathOvertakesNobody(p: Protocol, step: Step, w: nat)
    requires Inv(p) && (step.TryAcquire? || step.StartAcquire?) && Apply(p, step).held > p.held
    ensures !Waiting(p.sem, w)
  {
  }

  /** A release with somebody waiting wakes exactly one waiter: the one that has waited longest. */
  lemma ReleaseWakesLongestWaiting(p: Protocol, v: nat, w: nat)
    requires Inv(p) && p.held > 0 && Waiting(p.sem, v)
    ensures var t := Apply(p, GiveUp);
      && t.sem.count == p.sem.count == 0
      && (Waiting(p.sem, w) && !Waiting(t.sem, w) ==> IsGranted(t.sem, w) && w <= v)
      && (Waiting(p.sem, w) && Waiting(t.sem, w) ==> exists first: nat ::
          first < w && Waiting(p.sem, first) && IsGranted(t.sem, first))
  {
    var s := p.sem;
    var i := GiveBackPassesOn(s);
    assert v in s.waiters;
    var k :| 0 <= k < |s.waiters| && s.waiters[k] == v;
    assert i <= k;
    if Waiting(s, w) {
      assert w in s.waiters;
      var m :| 0 <= m < |s.waiters| && s.waiters[m] == w;
      assert i <= m;
      assert IsGranted(Apply(p, GiveUp).sem, s.waiters[i]);
    }
  }

  /** One step never grants a future past an older one that is still waiting. */
  lemma StepInOrder(p: Protocol, step: Step, v: nat, w: nat)
    requires Inv(p) && Enabled(p, step) && v < w && Waiting(p.sem, v) && Waiting(p.sem, w)
    ensures Waiting(Apply(p, step).sem, v) ==> !IsGranted(Apply(p, step).sem, w)
  {
    match step
    case TryAcquire =>
    case StartAcquire =>
    case Resume(_) =>
    case Cancel(_) =>
    case Unwind(u) => AbandonKeepsQueue(p.sem, u);
    case Throw(_) =>
    case GiveUp => ReleaseWakesLongestWaiting(p, v, w);
  }

  /** A future that is done stays as it is, and one that waits has always waited. */
  lemma StepSettles(p: Protocol, step: Step, w: nat)
    requires Inv(p) && Enabled(p, step) && w < |p.sem.futures| && !Waiting(p.sem, w)
    ensures w < |Apply(p, step).sem.futures| && Apply(p, step).sem.futures[w] == p.sem.futures[w]
  {
    match step
    case TryAcquire =>
    case StartAcquire =>
    case Resume(_) =>
    case Cancel(_) =>
    case Unwind(u) => AbandonKeepsQueue(p.sem, u);
    case Throw(_) =>
    case GiveUp => var i := GiveBackPassesOn(p.sem);
  }

  lemma {:induction false} RunSettles(p: Protocol, steps: seq<Step>, w: nat)
    requires Inv(p) && Legal(p, steps) && w < |p.sem.futures| && !Waiting(p.sem, w)
    ensures w < |After(p, steps).sem.futures| && After(p, steps).sem.futures[w] == p.sem.futures[w]
    decreases |steps|
  {
    if steps != [] {
      StepKeeps(p, steps[0]);
      StepSettles(p, steps[0], w);
      RunSettles(Apply(p, steps[0]), steps[1..], w);
    }
  }

  lemma FuturesStay(p: Protocol, step: Step)
    requires Inv(p) && Enabled(p, step)
    ensures |p.sem.futures| <= |Apply(p, step).sem.futures|
  {
    match step
    case TryAcquire =>
    case StartAcquire =>
    case Resume(_) =>
    case Cancel(_) =>
    case Unwind(u) => AbandonKeepsQueue(p.sem, u);
    case Throw(_) =>
    case GiveUp => var i := GiveBackPassesOn(p.sem);
  }

  /**
   First come, first served: while the older of two waiters still waits, the younger has not been granted a
   permit.
   */
  lemma {:induction false} GrantsInOrder(p: Protocol, steps: seq<Step>, v: nat, w: nat)
    requires Inv(p) && Legal(p, steps) && v < w && Waiting(p.sem, v) && Waiting(p.sem, w)
    requires Waiting(After(p, steps).sem, v)
    ensures !IsGranted(After(p, steps).sem, w)
    decreases |steps|
  {
    if steps != [] {
      var next := Apply(p, steps[0]);
      StepKeeps(p, steps[0]);
      FuturesStay(p, steps[0]);
      if !Waiting(next.sem, v) {
        RunSettles(next, steps[1..], v);
      }
      StepInOrder(p, steps[0], v, w);
      if Waiting(next.sem, w) {
        GrantsInOrder(next, steps[1..], v, w);
      } else {
        RunSettles(next, steps[1..], w);
      }
    }
  }

  // ----- Cancellation -----

  /** A cancelled caller leaves all permits in use exactly if it had not been granted one and none is free. */
  lemma UnwindConservesExactly(p: Protocol, w: nat)
    requires Inv(p) && Enabled(p, Unwind(w))
    ensures var t := Apply(p, Unwind(w));
      t.sem.count + t.held + |Owed(t)| == p.sem.count + p.held + |Owed(p)| <==> !IsGranted(p.sem, w) && p.sem.count == 0
  {
    AccountKept(p, Unwind(w));
  }

  lemma StepFirst(p: Protocol, step: Step, next: Protocol, rest: seq<Step>)
    requires Enabled(p, step) && Apply(p, step) == next && Legal(next, rest)
    ensures Legal(p, [step] + rest) && After(p, [step] + rest) == After(next, rest)
  {
    assert ([step] + rest)[1..] == rest;
  }

  /** One caller holds the only permit, another waits for it. */
  function OneWaits(): Protocol {
    Protocol(Sem(1, 0, [0], [Pending]), {0}, {}, 1, 0)
  }

  lemma OneWaitsIsReached(rest: seq<Step>)
    requires Legal(OneWaits(), rest)
    ensures Legal(Initial(1), [TryAcquire] + ([StartAcquire] + rest))
        && After(Initial(1), [TryAcquire] + ([StartAcquire] + rest)) == After(OneWaits(), rest)
  {
    var held := Protocol(Sem(1, 0, [], []), {}, {}, 1, 0);
    StepFirst(held, StartAcquire, OneWaits(), rest);
    StepFirst(Initial(1), TryAcquire, held, [StartAcquire] + rest);
  }

  /** A caller that is cancelled just after it was granted the only permit takes it along. */
  lemma CancelledAfterGrant()
    ensures var steps := [TryAcquire] + ([StartAcquire] + ([GiveUp] + ([Cancel(0)] + ([Unwind(0)] + []))));
      && Legal(Initial(1), steps)
      && After(Initial(1), steps) == Protocol(Sem(1, 0, [], [Granted]), {}, {}, 0, 1)
  {
    var granted := Protocol(Sem(1, 0, [], [Granted]), {0}, {}, 0, 0);
    var doomed := granted.(doomed := {0});
    GrantOnly();
    StepFirst(doomed, Unwind(0), Protocol(Sem(1, 0, [], [Granted]), {}, {}, 0, 1), []);
    StepFirst(granted, Cancel(0), doomed, [Unwind(0)] + []);
    StepFirst(OneWaits(), GiveUp, granted, [Cancel(0)] + ([Unwind(0)] + []));
    OneWaitsIsReached([GiveUp] + ([Cancel(0)] + ([Unwind(0)] + [])));
  }

  lemma GrantOnly()
    ensures GiveBack(Sem(1, 0, [0], [Pending])) == Sem(1, 0, [], [Granted])
  {
    WakeUpFirst(Sem(1, 1, [0], [Pending]), 0);
  }

  /** So does one that is cancelled while it waits, if the permit comes free before it unwinds. */
  lemma CancelledBeforeRelease()
    ensures var steps := [TryAcquire] + ([StartAcquire] + ([Cancel(0)] + ([GiveUp] + ([Unwind(0)] + []))));
      && Legal(Initial(1), steps)
      && After(Initial(1), steps) == Protocol(Sem(1, 0, [], [Cancelled]), {}, {}, 0, 1)
  {
    var cancelled := Protocol(Sem(1, 0, [0], [Cancelled]), {0}, {}, 1, 0);
    var freed := Protocol(Sem(1, 1, [], [Cancelled]), {0}, {}, 0, 0);
    WakeUpNobody(Sem(1, 1, [0], [Cancelled]));
    StepFirst(freed, Unwind(0), Protocol(Sem(1, 0, [], [Cancelled]), {}, {}, 0, 1), []);
    StepFirst(cancelled, GiveUp, freed, [Unwind(0)] + []);
    StepFirst(OneWaits(), Cancel(0), cancelled, [GiveUp] + ([Unwind(0)] + []));
    OneWaitsIsReached([Cancel(0)] + ([GiveUp] + ([Unwind(0)] + [])));
  }

  /** A caller that is stopped while it is still in the queue leaves the queue, and nothing else changes. */
  lemma ThrownLeavesQueue(p: Protocol, w: nat, v: nat)
    requires Inv(p) && Enabled(p, Throw(w))
    ensures var t := Apply(p, Throw(w));
      && (v in t.sem.waiters <==> v in p.sem.waiters && v != w)
      && (Waiting(t.sem, v) <==> Waiting(p.sem, v) && v != w)
      && t.sem.count == p.sem.count && t.held == p.held && t.lost == p.lost && Owed(t) == Owed(p)
  {
    WithoutMembers(p.sem.waiters, w, v);
  }

  lemma {:induction false} LostStaysLost(p: Protocol, steps: seq<Step>)
    requires Inv(p) && Legal(p, steps)
    ensures After(p, steps).lost >= p.lost
    decreases |steps|
  {
    if steps != [] {
      StepKeeps(p, steps[0]);
      LostStaysLost(Apply(p, steps[0]), steps[1..]);
    }
  }

  /** Once all permits are lost, nobody ever holds one again. */
  lemma AllLostBlocksForever(p: Protocol, steps: seq<Step>)
    requires Inv(p) && Legal(p, steps) && p.lost == p.sem.permits
    ensures var t := After(p, steps);
      t.sem.count == 0 && t.held == 0 && Owed(t) == {}
  {
    RunKeeps(p, steps);
    LostStaysLost(p, steps);
  }
}
