/**
  When recovery binds a prepared dispatch to the right turn. The client message id is the same for every
  dispatch of an attention, so the history may show it for a turn that took an earlier input
  (codex_adapter_v2.py, `turn_for_client_message` and `reconcile_dispatches`).
 */
module Rebinding {
  import opened Common
  import opened Ledgers
  import opened LedgerInvariants
  import opened AdapterRuns
  import opened AdapterTheorems

  /** The turn that took the input of the present dispatch, if it was accepted. */
  function OwnTurn(w: World, a: AttId): Option<TurnId> {
    if a in w.unbound then LastTaker(w.inputs, a) else None
  }

  /** Recovery binds the attention to the turn that took its input, or retries it when none did. */
  ghost predicate BindsOwnInput(w: World, v: World, a: AttId) {
    a in v.db.attentions && v.db.attentions[a].turn == OwnTurn(w, a)
    && (v.db.attentions[a].accepted.Some? <==> a in w.unbound)
  }

  lemma ReconcileBinds(w: World, a: AttId, turns: seq<HistoryTurn>, at: At)
    requires at.event == DispatchReconciled(a, turns) && RecoveryEnabled(w, at.event) && a in w.db.attentions
    requires w.db.attentions[a].accepted.None? && w.db.attentions[a].turn.None?
    ensures var v := ApplyRecovery(w, at);
            && a in v.db.attentions && v.db.attentions[a].turn == TurnForClientMessage(turns, a)
            && (v.db.attentions[a].accepted.Some? <==> TurnForClientMessage(turns, a).Some?)
  {
    hide NoPreparedOn, Finalize, RetryUnobserved;
    var found := TurnForClientMessage(turns, a);
    if found.Some? {
      FinalizeFrame(w.db, a, w.db.intents[a].thread, found.value, at.epoch, true, at.now);
    } else {
      RetryKeepsRow(w.db, a, at.epoch, at.now);
    }
  }

  lemma RetryKeepsRow(l: Ledger, a: AttId, epoch: nat, now: int)
    requires a in l.attentions
    ensures var m := RetryUnobserved(l, a, epoch, now);
            a in m.attentions && m.attentions[a].turn == l.attentions[a].turn && m.attentions[a].accepted == l.attentions[a].accepted
  {
  }

  /** In every run: recovery is right exactly when the first turn of the history that shows the id is the dispatch's own. */
  lemma BindsOwnInputIff(run: seq<At>, a: AttId, turns: seq<HistoryTurn>, at: At)
    requires Legal(run) && at.event == DispatchReconciled(a, turns) && Enabled(After(run), at.event, at.now)
    ensures BindsOwnInput(After(run), Apply(After(run), at), a) <==> TurnForClientMessage(turns, a) == OwnTurn(After(run), a)
  {
    ReachableIsGood(run);
    UnboundAreTaken(run);
    var w := After(run);
    assert IntentOk(w.db.attentions, a, w.db.intents[a]) && RowOk(w.db.relays, w.db.attentions[a]);
    hide Good, Inv, LastTaker, ApplyRecovery, IntentOk, RowOk;
    ReconcileBinds(w, a, turns, at);
  }

  // ---- Histories ----

  /** The turns of one thread that ever took an input for the attention. */
  ghost function Takers(inputs: seq<Input>, a: AttId, t: ThreadId): set<TurnId> {
    set i | 0 <= i < |inputs| && inputs[i].a == a && inputs[i].turn.thread == t :: inputs[i].turn
  }

  /** A thread takes inputs only in its newest turn. */
  ghost predicate OneActiveTurn(inputs: seq<Input>) {
    forall i, j :: 0 <= i < j < |inputs| && inputs[i].turn.thread == inputs[j].turn.thread ==>
      inputs[i].turn.serial <= inputs[j].turn.serial
  }

  /** Full, truthful history of a thread as far as one attention goes, oldest turn first. */
  ghost predicate Durable(turns: seq<HistoryTurn>, inputs: seq<Input>, a: AttId, t: ThreadId) {
    && (forall h :: h in turns && a in h.inputs ==> h.id in Takers(inputs, a, t))
    && (forall x :: x in Takers(inputs, a, t) ==> exists h :: h in turns && h.id == x && a in h.inputs)
    && (forall i, j :: 0 <= i < j < |turns| ==> turns[i].id.serial < turns[j].id.serial)
  }

  lemma {:induction false} OldestIsFound(turns: seq<HistoryTurn>, a: AttId)
    requires forall i, j :: 0 <= i < j < |turns| ==> turns[i].id.serial < turns[j].id.serial
    ensures var found := TurnForClientMessage(turns, a);
            found.Some? ==> forall h :: h in turns && a in h.inputs ==> found.value.serial <= h.id.serial
  {
    if turns != [] {
      OldestIsFound(turns[1..], a);
      FoundInHistory(turns[1..], a);
      forall h | h in turns ensures h == turns[0] || (h in turns[1..] && turns[0].id.serial < h.id.serial) {
        var k :| 0 <= k < |turns| && turns[k] == h;
        assert k > 0 ==> turns[1..][k - 1] == h;
      }
    }
  }

  lemma {:induction false} LastIsNewest(inputs: seq<Input>, a: AttId)
    requires OneActiveTurn(inputs)
    ensures var last := LastTaker(inputs, a);
            last.Some? ==>
              && last.value in Takers(inputs, a, last.value.thread)
              && forall x :: x in Takers(inputs, a, last.value.thread) ==> x.serial <= last.value.serial
  {
    if inputs != [] {
      var n := |inputs| - 1;
      LastIsNewest(inputs[..n], a);
      var last := LastTaker(inputs, a);
      if inputs[n].a != a && last.Some? {
        TakersOfMore(inputs[..n], inputs[n], a, last.value.thread);
        assert inputs[..n] + [inputs[n]] == inputs;
      }
    }
  }

  lemma TakersOfMore(inputs: seq<Input>, input: Input, a: AttId, t: ThreadId)
    ensures Takers(inputs + [input], a, t)
            == Takers(inputs, a, t) + if input.a == a && input.turn.thread == t then {input.turn} else {}
  {
    var more := inputs + [input];
    assert more[|inputs|] == input;
    forall x | x in Takers(inputs, a, t) ensures x in Takers(more, a, t) {
      var i :| 0 <= i < |inputs| && inputs[i] == Input(x, a);
      assert more[i] == Input(x, a);
    }
  }

  ghost function OwnTurns(w: World, a: AttId): set<TurnId> {
    if OwnTurn(w, a).Some? then {OwnTurn(w, a).value} else {}
  }

  /** With such a history, recovery is right exactly when no other turn of the thread ever took an input for the attention. */
  lemma OnlyTakerIff(run: seq<At>, a: AttId, turns: seq<HistoryTurn>, at: At)
    requires Legal(run) && at.event == DispatchReconciled(a, turns) && Enabled(After(run), at.event, at.now)
    requires OneActiveTurn(After(run).inputs) && Durable(turns, After(run).inputs, a, After(run).db.intents[a].thread)
    ensures BindsOwnInput(After(run), Apply(After(run), at), a)
            <==> Takers(After(run).inputs, a, After(run).db.intents[a].thread) <= OwnTurns(After(run), a)
  {
    var w := After(run);
    var t, found, own := w.db.intents[a].thread, TurnForClientMessage(turns, a), OwnTurn(w, a);
    BindsOwnInputIff(run, a, turns, at);
    UnboundAreTaken(run);
    hide Apply, Enabled, BindsOwnInput;
    FoundInHistory(turns, a);
    OldestIsFound(turns, a);
    LastIsNewest(w.inputs, a);
    var takers := Takers(w.inputs, a, t);
    hide Takers;
    if found == own && found.Some? {
      forall x | x in takers ensures x == own.value {
        var h :| h in turns && h.id == x && a in h.inputs;
      }
    }
    if takers <= OwnTurns(w, a) && own.Some? {
      var h :| h in turns && h.id == own.value && a in h.inputs;
    }
  }

  // ---- From the moment the dispatch is prepared ----

  /** Until it is resolved, a dispatch that found the takers `prior` on its thread can only add its own turn. */
  ghost predicate Since(w: World, a: AttId, t: ThreadId, prior: set<TurnId>) {
    Prepared?(w.db.intents, a) ==>
      w.db.intents[a].thread == t && Takers(w.inputs, a, t) == prior + OwnTurns(w, a)
  }

  /** Nothing about the dispatch of `a` changed, or it was resolved. */
  ghost predicate Undisturbed(w: World, v: World, a: AttId) {
    Prepared?(v.db.intents, a) ==>
      && Prepared?(w.db.intents, a) && v.db.intents[a].thread == w.db.intents[a].thread
      && v.inputs == w.inputs && (a in v.unbound <==> a in w.unbound)
  }

  lemma UndisturbedSince(w: World, v: World, a: AttId, t: ThreadId, prior: set<TurnId>)
    requires Since(w, a, t, prior) && Undisturbed(w, v, a)
    ensures Since(v, a, t, prior)
  {
  }

  lemma RecoveryUndisturbed(w: World, at: At, a: AttId)
    requires RecoveryEvent(at.event) && RecoveryEnabled(w, at.event)
    ensures Undisturbed(w, ApplyRecovery(w, at), a)
  {
    hide NoPreparedOn, Join, SlotsOf, CloseTurns, RequeueRows, EmptySlots, AbandonRows, GivenBack, LostTurns, SuppressFor;
    match at.event {
      case Crashed =>
      case Started =>
      case IntentLost(_) =>
      case ThreadGone(_) =>
      case ThreadResumed(_) =>
      case DispatchReconciled(_, _) =>
      case ThreadDone(_) =>
      case Reaped =>
    }
  }

  lemma DispatchUndisturbed(w: World, at: At, a: AttId)
    requires DispatchEvent(at.event) && DispatchEnabled(w, at.event, at.now) && !at.event.InputAccepted? && !at.event.InputMisreported?
    requires !(at.event.Began? && at.event.a == a)
    ensures Undisturbed(w, ApplyDispatch(w, at), a)
  {
    hide Join, SlotsOf, RequeueMissingTurn, GivenBack, LostTurns, Backoff, LastTaker, Fresh;
    match at.event {
      case Ingested(_, _) =>
      case ThreadCreated(_, _) =>
      case Began(_, _) =>
      case InputRefused =>
      case RefusalRecorded =>
      case RefusalDeferred(_) =>
      case Finalized =>
      case TurnGivenUp(x) => GivenUpIntents(w.db, x.thread, x, at.now);
    }
  }

  lemma GivenUpIntents(l: Ledger, t: ThreadId, x: TurnId, now: int)
    ensures RequeueMissingTurn(l, t, x, now).intents == l.intents
  {
  }

  lemma AcceptedSince(w: World, at: At, a: AttId, t: ThreadId, prior: set<TurnId>)
    requires (at.event.InputAccepted? || at.event.InputMisreported?) && DispatchEnabled(w, at.event, at.now) && Since(w, a, t, prior)
    requires DispatchOk(w.db.intents, w.db.threads, w.phase, w.unbound)
    ensures Since(ApplyDispatch(w, at), a, t, prior)
  {
    var input := Input(at.event.x, w.phase.a);
    TakersOfMore(w.inputs, input, a, t);
    TakerOfMore(w.inputs, input, a);
    hide Takers, LastTaker;
  }

  lemma StepSince(w: World, at: At, a: AttId, t: ThreadId, prior: set<TurnId>)
    requires Good(w) && Enabled(w, at.event, at.now) && Since(w, a, t, prior)
    requires !(at.event.Began? && at.event.a == a)
    ensures Since(Apply(w, at), a, t, prior)
  {
    hide ApplyRecovery, ApplyDispatch, ApplyOutput, ApplyControl, RecoveryEnabled, OutputEnabled, ControlEnabled, DispatchEnabled,
      Inv, Since, Takers, DispatchOk;
    if RecoveryEvent(at.event) {
      RecoveryUndisturbed(w, at, a);
      UndisturbedSince(w, Apply(w, at), a, t, prior);
    } else if at.event.InputAccepted? || at.event.InputMisreported? {
      AcceptedSince(w, at, a, t, prior);
    } else if DispatchEvent(at.event) {
      DispatchUndisturbed(w, at, a);
      UndisturbedSince(w, Apply(w, at), a, t, prior);
    } else if OutputEvent(at.event) {
      OutputKeepsDispatch(w, at);
      UndisturbedSince(w, Apply(w, at), a, t, prior);
    } else {
      ControlKeepsDispatch(w, at);
      UndisturbedSince(w, Apply(w, at), a, t, prior);
    }
  }

  /** No further dispatch of the attention is begun. */
  predicate NotBegunAgain(rest: seq<At>, a: AttId) {
    forall at :: at in rest ==> !(at.event.Began? && at.event.a == a)
  }

  lemma BeganSince(w: World, began: At, a: AttId, operation: Operation) returns (t: ThreadId)
    requires Good(w) && began.event == Began(a, operation) && Enabled(w, began.event, began.now)
    ensures Since(Apply(w, began), a, t, Takers(w.inputs, a, t))
  {
    hide Inv, Takers;
    t := w.cache[w.db.attentions[a].scope];
  }

  lemma {:induction false} RestSince(before: seq<At>, began: At, rest: seq<At>, a: AttId, operation: Operation) returns (t: ThreadId)
    requires Legal(before + [began] + rest) && began.event == Began(a, operation) && NotBegunAgain(rest, a)
    ensures Legal(before) && Since(After(before + [began] + rest), a, t, Takers(After(before).inputs, a, t))
    decreases |rest|
  {
    hide Apply, Enabled, Since, Takers, Good, LastTaker;
    var run := before + [began] + rest;
    var n := |run| - 1;
    ReachableIsGood(run[..n]);
    if rest == [] {
      assert run[..n] == before && run[n] == began;
      t := BeganSince(After(before), began, a, operation);
    } else {
      var m := |rest| - 1;
      assert run[..n] == before + [began] + rest[..m] && run[n] == rest[m];
      t := RestSince(before, began, rest[..m], a, operation);
      StepSince(After(run[..n]), run[n], a, t, Takers(After(before).inputs, a, t));
    }
  }

  /**
    When recovery is right, told from what the thread's history shows when the dispatch is prepared: exactly
    when it shows the id in no turn, or only in the turn that then takes the input again.
   */
  lemma RecoveryIsRightIff(before: seq<At>, began: At, rest: seq<At>, a: AttId, operation: Operation,
                           shown: seq<HistoryTurn>, turns: seq<HistoryTurn>, at: At)
    requires Legal(before + [began] + rest) && began.event == Began(a, operation) && NotBegunAgain(rest, a)
    requires at.event == DispatchReconciled(a, turns) && Enabled(After(before + [began] + rest), at.event, at.now)
    requires var w := After(before + [began] + rest); var t := w.db.intents[a].thread;
             && OneActiveTurn(w.inputs) && Durable(turns, w.inputs, a, t)
             && Legal(before) && Durable(shown, After(before).inputs, a, t)
    ensures var w := After(before + [began] + rest);
            BindsOwnInput(w, Apply(w, at), a) <==> forall h :: h in shown && a in h.inputs ==> OwnTurn(w, a) == Some(h.id)
  {
    var run := before + [began] + rest;
    var w := After(run);
    OnlyTakerIff(run, a, turns, at);
    var t := RestSince(before, began, rest, a, operation);
    assert Takers(w.inputs, a, t) == Takers(After(before).inputs, a, t) + OwnTurns(w, a);
    hide Takers, Apply, BindsOwnInput, Good;
    if forall h :: h in shown && a in h.inputs ==> OwnTurn(w, a) == Some(h.id) {
      forall x | x in Takers(After(before).inputs, a, t) ensures x in OwnTurns(w, a) {
        var h :| h in shown && h.id == x && a in h.inputs;
      }
    }
  }

  /** What a caller can check before it sends: an id that the thread's history shows nowhere is recovered rightly. */
  lemma NewIdIsRecoveredRightly(before: seq<At>, began: At, rest: seq<At>, a: AttId, operation: Operation,
                                shown: seq<HistoryTurn>, turns: seq<HistoryTurn>, at: At)
    requires Legal(before + [began] + rest) && began.event == Began(a, operation) && NotBegunAgain(rest, a)
    requires at.event == DispatchReconciled(a, turns) && Enabled(After(before + [began] + rest), at.event, at.now)
    requires var w := After(before + [began] + rest); var t := w.db.intents[a].thread;
             && OneActiveTurn(w.inputs) && Durable(turns, w.inputs, a, t)
             && Legal(before) && Durable(shown, After(before).inputs, a, t)
    requires forall h :: h in shown ==> a !in h.inputs
    ensures var w := After(before + [began] + rest); BindsOwnInput(w, Apply(w, at), a)
  {
    hide Apply, BindsOwnInput, Durable, OneActiveTurn;
    RecoveryIsRightIff(before, began, rest, a, operation, shown, turns, at);
  }
}
