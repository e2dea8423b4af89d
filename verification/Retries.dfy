/**
  The retry budget before acceptance (attention_store.py, `defer_attention`), over every adapter run.
 */
module Retries {
  import opened Common
  import opened Ledgers
  import opened AgentOutput
  import opened AdapterRuns

  const RETRYABLE_DEFERRALS := DEFER_MAX_ATTEMPTS - 1
  const ADAPTER_DELAY_MS := 1_000

  function AttemptsOf(l: Ledger, a: AttId): nat {
    if a in l.attentions then l.attentions[a].attempts else 0
  }

  /** The step defers `a` by a positive base delay. */
  ghost predicate Defers(w: World, e: Event, a: AttId) {
    && a in w.db.attentions
    && ((e.RefusalDeferred? && w.phase == Retried(a) && e.delay > 0) || (e.StopDeferred? && e.c == a && e.delay > 0))
  }

  /** ... and leaves it retryable, rather than marking it failed. */
  ghost predicate Retries(w: World, e: Event, a: AttId) {
    Defers(w, e, a) && AttemptsOf(w.db, a) + 1 < DEFER_MAX_ATTEMPTS
  }

  /** The delay the step puts before the next attempt. */
  ghost function DelayOf(w: World, e: Event, a: AttId): int
    requires Retries(w, e, a)
  {
    Backoff(e.delay, AttemptsOf(w.db, a) + 1)
  }

  // ---- One step ----

  lemma RecoveryKeepsAttempts(w: World, at: At, a: AttId)
    requires RecoveryEvent(at.event) && RecoveryEnabled(w, at.event)
    ensures AttemptsOf(w.db, a) <= AttemptsOf(ApplyRecovery(w, at).db, a)
  {
    hide Join, SlotsOf, LostTurns, GivenBack, CloseTurns, EmptySlots, SuppressFor;
    match at.event {
      case Crashed =>
      case Started =>
      case IntentLost(_) =>
      case ThreadGone(_) =>
      case ThreadResumed(_) =>
      case DispatchReconciled(b, turns) => FoundInHistory(turns, b);
      case ThreadDone(_) =>
      case Reaped =>
    }
  }

  lemma DispatchKeepsAttempts(w: World, at: At, a: AttId)
    requires DispatchEvent(at.event) && DispatchEnabled(w, at.event, at.now)
    ensures AttemptsOf(w.db, a) + (if Defers(w, at.event, a) then 1 else 0) <= AttemptsOf(ApplyDispatch(w, at).db, a)
  {
    hide Backoff, Join, SlotsOf, LostTurns, GivenBack, CloseTurns, EmptySlots;
    match at.event {
      case Ingested(_, _) =>
      case ThreadCreated(_, _) =>
      case Began(_, _) =>
      case InputAccepted(_) =>
      case InputMisreported(_) =>
      case InputRefused =>
      case RefusalRecorded =>
      case RefusalDeferred(_) =>
      case Finalized =>
      case TurnGivenUp(_) =>
    }
  }

  lemma OutputKeepsAttempts(w: World, at: At, a: AttId)
    requires OutputEvent(at.event) && OutputEnabled(w, at.event)
    ensures AttemptsOf(w.db, a) <= AttemptsOf(ApplyOutput(w, at).db, a)
  {
    match at.event {
      case Adopted(_) =>
      case ItemRecorded(_, _, _) =>
      case NoReplyMarked(_) =>
      case FallbackRecorded(_, _, _) =>
      case Completed(_, _) =>
      case RelaySent(_) =>
      case RelayUnsent(_, _) =>
    }
  }

  lemma ControlKeepsAttempts(w: World, at: At, a: AttId)
    requires ControlEvent(at.event) && ControlEnabled(w, at.event)
    ensures AttemptsOf(w.db, a) + (if Defers(w, at.event, a) then 1 else 0) <= AttemptsOf(ApplyControl(w, at).db, a)
  {
    match at.event {
      case Stopped(_) =>
      case StopAcknowledged(_) =>
      case StopDeferred(_, _) =>
      case RoomShut(_) =>
      case LegacyRetired(_) =>
    }
  }

  /** Attempts never decrease, and every positive deferral uses one up. */
  lemma StepKeepsAttempts(w: World, at: At, a: AttId)
    requires Enabled(w, at.event, at.now)
    ensures AttemptsOf(w.db, a) + (if Defers(w, at.event, a) then 1 else 0) <= AttemptsOf(Apply(w, at).db, a)
  {
    hide RecoveryEnabled, DispatchEnabled, OutputEnabled, ControlEnabled,
      ApplyRecovery, ApplyDispatch, ApplyOutput, ApplyControl;
    if RecoveryEvent(at.event) {
      RecoveryKeepsAttempts(w, at, a);
    } else if DispatchEvent(at.event) {
      DispatchKeepsAttempts(w, at, a);
    } else if OutputEvent(at.event) {
      OutputKeepsAttempts(w, at, a);
    } else {
      ControlKeepsAttempts(w, at, a);
    }
  }

  /** The ledger's transaction does what the two definitions above say. */
  lemma DeferMeaning(l: Ledger, a: AttId, delay: int, now: int)
    requires a in l.attentions && delay > 0
    ensures var row := Defer(l, a, delay, now).attentions[a]; var before := l.attentions[a];
            && row.attempts == before.attempts + 1
            && (before.attempts + 1 < DEFER_MAX_ATTEMPTS ==>
                  row.terminal == before.terminal && row.nextAttempt == now + Backoff(delay, before.attempts + 1)
                  && now < row.nextAttempt <= now + DEFER_MAX_DELAY_MS)
            && (before.attempts + 1 >= DEFER_MAX_ATTEMPTS ==> row.terminal == Some(Failed))
  {
    BackoffBounds(delay, l.attentions[a].attempts + 1);
  }

  /** Without a delay no attempt is used: the attention is due at once. */
  lemma NoDelayNoAttempt(l: Ledger, a: AttId, now: int)
    requires a in l.attentions
    ensures Defer(l, a, 0, now) == l.(attentions := l.attentions[a := l.attentions[a].(nextAttempt := now)])
  {
  }

  lemma {:induction false} BackoffBounds(delay: int, attempt: nat)
    requires delay > 0 && attempt >= 1
    ensures 0 < Backoff(delay, attempt) <= DEFER_MAX_DELAY_MS && Pow2(attempt - 1) >= 1
  {
    if attempt > 1 {
      BackoffBounds(delay, attempt - 1);
    }
    assert delay * Pow2(attempt - 1) >= Pow2(attempt - 1);
  }

  // ---- Whole runs ----

  /** How many steps of the run deferred `a` and left it retryable. */
  ghost function RetryCount(run: seq<At>, a: AttId): nat
    requires Legal(run)
    decreases |run|
  {
    if run == [] then 0
    else
      var n := |run| - 1;
      RetryCount(run[..n], a) + if Retries(After(run[..n]), run[n].event, a) then 1 else 0
  }

  /** The delays those steps imposed, in total. */
  ghost function TotalDelay(run: seq<At>, a: AttId): int
    requires Legal(run)
    decreases |run|
  {
    if run == [] then 0
    else
      var n := |run| - 1;
      var w := After(run[..n]);
      TotalDelay(run[..n], a) + if Retries(w, run[n].event, a) then DelayOf(w, run[n].event, a) else 0
  }

  /** Every positive deferral of `a` in the run has the adapter's base delay. */
  ghost predicate BaseDelays(run: seq<At>, a: AttId)
    requires Legal(run)
    decreases |run|
  {
    run == [] ||
    var n := |run| - 1;
    && BaseDelays(run[..n], a)
    && (Retries(After(run[..n]), run[n].event, a) ==> run[n].event.delay == ADAPTER_DELAY_MS)
  }

  /** The most that attempts one to `n` can be delayed by. */
  function DelayBudget(n: nat): int {
    if n == 0 then 0 else DelayBudget(n - 1) + Backoff(ADAPTER_DELAY_MS, n)
  }

  lemma {:induction false} DelayBudgetGrows(m: nat, n: nat)
    requires m <= n
    ensures DelayBudget(m) <= DelayBudget(n)
  {
    if m < n {
      BackoffBounds(ADAPTER_DELAY_MS, n);
      DelayBudgetGrows(m, n - 1);
    }
  }

  lemma FullDelayBudget()
    ensures DelayBudget(RETRYABLE_DEFERRALS) == 91_000
  {
    assert Pow2(0) == 1 && Pow2(1) == 2 && Pow2(2) == 4;
    assert Pow2(3) == 8 && Pow2(4) == 16;
    assert Pow2(5) == 32 && Pow2(6) == 64;
    assert DelayBudget(1) == 1_000 && DelayBudget(2) == 3_000;
    assert DelayBudget(3) == 7_000 && DelayBudget(4) == 15_000;
    assert DelayBudget(5) == 31_000 && DelayBudget(6) == 61_000;
  }

  function SpentOf(l: Ledger, a: AttId): nat {
    Min(AttemptsOf(l, a), RETRYABLE_DEFERRALS)
  }

  lemma {:induction false} RetriesUseAttempts(run: seq<At>, a: AttId)
    requires Legal(run)
    ensures RetryCount(run, a) <= SpentOf(After(run).db, a)
    decreases |run|
  {
    if run != [] {
      var n := |run| - 1;
      RetriesUseAttempts(run[..n], a);
      StepKeepsAttempts(After(run[..n]), run[n], a);
      hide Apply, Enabled;
    }
  }

  /** One step's delay comes out of the budget of the attempts it uses. */
  lemma StepUsesBudget(w: World, at: At, a: AttId)
    requires Enabled(w, at.event, at.now)
    requires Retries(w, at.event, a) ==> at.event.delay == ADAPTER_DELAY_MS
    ensures var before := DelayBudget(SpentOf(w.db, a)); var after := DelayBudget(SpentOf(Apply(w, at).db, a));
            before + (if Retries(w, at.event, a) then DelayOf(w, at.event, a) else 0) <= after
  {
    hide Apply, Enabled, Backoff;
    StepKeepsAttempts(w, at, a);
    var before, after := SpentOf(w.db, a), SpentOf(Apply(w, at).db, a);
    DelayBudgetGrows(if Retries(w, at.event, a) then before + 1 else before, after);
  }

  lemma {:induction false} DelaysUseBudget(run: seq<At>, a: AttId)
    requires Legal(run) && BaseDelays(run, a)
    ensures TotalDelay(run, a) <= DelayBudget(SpentOf(After(run).db, a))
    decreases |run|
  {
    hide Apply, Enabled, SpentOf, DelayOf, Retries, AttemptsOf;
    if run != [] {
      var n := |run| - 1;
      DelaysUseBudget(run[..n], a);
      StepUsesBudget(After(run[..n]), run[n], a);
    } else {
      SpentAtStart(a);
    }
  }

  lemma SpentAtStart(a: AttId)
    ensures DelayBudget(SpentOf(INITIAL.db, a)) == 0
  {
  }

  /**
    Over every run, at most seven positive deferrals leave an attention retryable; with the
    adapter's base delay they hold it back by at most 91 seconds in all before it is failed.
   */
  lemma RetriesAreBounded(run: seq<At>, a: AttId)
    requires Legal(run)
    ensures RetryCount(run, a) <= 7
    ensures BaseDelays(run, a) ==> TotalDelay(run, a) <= 91_000
  {
    RetriesUseAttempts(run, a);
    if BaseDelays(run, a) {
      DelaysUseBudget(run, a);
      DelayBudgetGrows(SpentOf(After(run).db, a), RETRYABLE_DEFERRALS);
      FullDelayBudget();
    }
  }

  // ---- Unsent output ----

  /** The delay in seconds after the failure that follows so many: doubled each time, up to a minute. */
  const RELAY_SECONDS: seq<nat> := [1, 2, 4, 8, 16, 32, 60]

  /**
    An output the server did not take keeps its text and status, and is due again after one second at first,
    twice as long with every further failure, and a minute from the seventh on. No other output is touched.
   */
  lemma UnsentBacksOff(l: Ledger, op: OpId, now: int)
    ensures var m := RelayFailed(l, op, ADAPTER_DELAY_MS, now);
            && m == l.(relays := m.relays) && |m.relays| == |l.relays|
            && forall i :: 0 <= i < |l.relays| ==>
                 var p, q := l.relays[i], m.relays[i];
                 if p.op != op then q == p
                 else q == p.(attempts := p.attempts + 1, nextAttempt := now + 1_000 * RELAY_SECONDS[Min(p.attempts, 6)])
  {
    assert Pow2(0) == 1 && Pow2(1) == 2 && Pow2(2) == 4;
    assert Pow2(3) == 8 && Pow2(4) == 16;
    assert Pow2(5) == 32 && Pow2(6) == 64;
    forall n: nat | n <= 6 ensures Min(60_000, ADAPTER_DELAY_MS * Pow2(n)) == 1_000 * RELAY_SECONDS[n] {
      assert n == 0 || n == 1 || n == 2 || n == 3 || n == 4 || n == 5 || n == 6;
    }
  }
}
