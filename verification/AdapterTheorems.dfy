/**
  What holds in every reachable world of AdapterRuns, and along every run.
 */
module AdapterTheorems {
  import opened Common
  import opened Ledgers
  import opened LedgerInvariants
  import opened AgentOutput
  import opened AdapterRuns

  /**
    Over every run, with crashes anywhere: the app-server accepts at most one input for an attention,
    plus one for each time the ledger requeued it and each time its accepted input was lost.
   */
  lemma AcceptedAtMostOncePerRequeue(run: seq<At>, a: AttId)
    requires Legal(run)
    ensures After(run).accepted[a] <= 1 + After(run).requeued[a] + After(run).lost[a]
  {
    ReachableIsGood(run);
    var w := After(run);
    assert CountOk(w.db.attentions, w.unbound, w.accepted[a], w.requeued[a] + w.lost[a], a);
  }

  /** Budgets of a turn no stop left with a gap, and the bounds they give. */
  lemma OutputBudgets(run: seq<At>, x: TurnId)
    requires Legal(run) && x !in After(run).torn
    ensures var w := After(run); var ops := Ops(w.db.relays);
            && EachFinalNew(ops, x) && EachCommentaryNew(ops, x, w.direct)
            && CountKind(ops, x, Final) <= |JoinedOf(w.joined, x)|
            && CountKind(ops, x, Commentary) <= 1 + |JoinedOf(w.joined, x) * w.direct|
  {
    ReachableIsGood(run);
    var w := After(run);
    var ops := Ops(w.db.relays);
    assert TurnBudgetOk(w.db.attentions, w.db.slots, ops, w.direct, x);
    FinalsBounded(ops, x);
    CommentariesBounded(ops, x, w.direct);
    CoverageWithin(ops, x, Final, JoinedOf(w.joined, x));
    CoverageWithin(ops, x, Commentary, JoinedOf(w.joined, x));
    SubsetSize(Coverage(ops, x, Final), JoinedOf(w.joined, x));
    SubsetSize(Coverage(ops, x, Commentary) * w.direct, JoinedOf(w.joined, x) * w.direct);
  }

  /** A final response is recorded exactly when an accepted final covers the attention, in every reachable world. */
  lemma FinalResponsesAreExact(run: seq<At>)
    requires Legal(run)
    ensures var l := After(run).db;
            && (forall a :: a in l.attentions ==> (l.attentions[a].finalResponse.Some? <==> CoveredBySentFinal(l.relays, a)))
            && ReplyRequiredPending(l) == set a | a in l.attentions && l.attentions[a].replyRequired
                                                  && l.attentions[a].terminal.None? && !CoveredBySentFinal(l.relays, a)
  {
    ReachableIsGood(run);
    PendingCountIsExact(After(run).db);
  }

  /** Once recovery is over every stored thread is cached, so a dispatch never resumes one. */
  lemma ResumeBranchIsUnreachable(run: seq<At>, s: Scope)
    requires Legal(run) && Running(After(run).phase) && s in After(run).db.threads
    ensures s in After(run).cache && After(run).cache[s] == After(run).db.threads[s]
  {
    ReachableIsGood(run);
  }

  // ---- Relay coverage is never rewritten ----

  lemma RecoveryKeepsOps(w: World, at: At)
    requires RecoveryEvent(at.event) && RecoveryEnabled(w, at.event)
    ensures Ops(ApplyRecovery(w, at).db.relays) == Ops(w.db.relays)
  {
    match at.event {
      case Crashed =>
      case Started =>
      case IntentLost(_) =>
      case ThreadGone(_) =>
      case ThreadResumed(_) =>
      case DispatchReconciled(_, _) =>
      case ThreadDone(_) =>
      case Reaped => SuppressOps(w.db.relays, Stale(w.db, at.epoch));
    }
  }

  lemma DispatchKeepsOps(w: World, at: At)
    requires DispatchEvent(at.event) && DispatchEnabled(w, at.event, at.now)
    ensures Ops(ApplyDispatch(w, at).db.relays) == Ops(w.db.relays)
  {
    match at.event {
      case Ingested(_, _) =>
      case ThreadCreated(_, _) =>
      case Began(_, _) =>
      case InputAccepted(_) =>
      case InputMisreported(_) =>
      case InputRefused =>
      case RefusalRecorded =>
      case RefusalDeferred(_) =>
      case Finalized =>
      case TurnGivenUp(_) =>
    }
  }

  /** The one relay row an output step may append. */
  ghost predicate Appends(w: World, e: Event, op: OpId) {
    match e
    case ItemRecorded(x, item, _) => op.turn == x && op.item == item.id && op.covered == AcceptedForTurn(w.db, x)
    case FallbackRecorded(x, held, _) =>
      op.turn == x && op.item == Fallback(held.op.item) && op.covered == AcceptedForTurn(w.db, x) * held.op.covered
    case _ => false
  }

  /** The ops are as before, or one more that the step may append. */
  ghost predicate AppendsOps(w: World, e: Event, after: seq<OpId>) {
    after == Ops(w.db.relays) ||
    (|after| == |w.db.relays| + 1 && after[..|w.db.relays|] == Ops(w.db.relays) && Appends(w, e, after[|w.db.relays|]))
  }

  lemma CreateAppends(l: Ledger, op: OpId, text: string, live: bool, epoch: nat, now: int)
    ensures var m := CreateOutput(l, op, text, live, epoch, now);
            Ops(m.relays) == Ops(l.relays) || Ops(m.relays) == Ops(l.relays) + [op]
  {
  }

  lemma OutputAppendsOps(w: World, at: At)
    requires OutputEvent(at.event) && OutputEnabled(w, at.event)
    ensures AppendsOps(w, at.event, Ops(ApplyOutput(w, at).db.relays))
  {
    hide CreateRelay;
    match at.event {
      case Adopted(_) =>
      case ItemRecorded(x, item, live) =>
        CreateAppends(w.db, OpId(AcceptedForTurn(w.db, x), x, item.id, OutputKind(w.db, x, item)), item.text, live, at.epoch, at.now);
      case NoReplyMarked(_) =>
      case FallbackRecorded(x, c, live) =>
        CreateAppends(w.db, OpId(AcceptedForTurn(w.db, x) * c.op.covered, x, Fallback(c.op.item), Final), c.text, live, at.epoch, at.now);
      case Completed(x, _) => SuppressOps(w.db.relays, {x});
      case RelaySent(_) => assert Ops(ApplyOutput(w, at).db.relays) == Ops(w.db.relays);
      case RelayUnsent(_, _) => assert Ops(ApplyOutput(w, at).db.relays) == Ops(w.db.relays);
    }
  }

  lemma ControlKeepsOps(w: World, at: At)
    requires ControlEvent(at.event) && ControlEnabled(w, at.event)
    ensures Ops(ApplyControl(w, at).db.relays) == Ops(w.db.relays)
  {
    match at.event {
      case Stopped(x) => SuppressOps(w.db.relays, {x});
      case StopAcknowledged(_) =>
      case StopDeferred(_, _) =>
      case RoomShut(c) => CloseRoomFrame(w.db, c, at.epoch, at.now);
      case LegacyRetired(_) =>
    }
  }

  lemma StepAppendsOps(w: World, at: At)
    requires Enabled(w, at.event, at.now)
    ensures AppendsOps(w, at.event, Ops(Apply(w, at).db.relays))
  {
    hide RecoveryEvent, DispatchEvent, OutputEvent, RecoveryEnabled, DispatchEnabled, OutputEnabled, ControlEnabled,
      ApplyRecovery, ApplyDispatch, ApplyOutput, ApplyControl, Ops, Appends;
    if RecoveryEvent(at.event) {
      RecoveryKeepsOps(w, at);
    } else if DispatchEvent(at.event) {
      DispatchKeepsOps(w, at);
    } else if OutputEvent(at.event) {
      OutputAppendsOps(w, at);
    } else {
      ControlKeepsOps(w, at);
    }
  }

  /** Relay rows are only ever appended, and no row's turn, item, kind or coverage ever changes. */
  lemma {:induction false} CoverageNeverChanges(run: seq<At>, n: nat)
    requires Legal(run) && n <= |run|
    ensures Legal(run[..n]) && Ops(After(run[..n]).db.relays) <= Ops(After(run).db.relays)
  {
    if n == |run| {
      assert run[..n] == run;
    } else {
      var m := |run| - 1;
      CoverageNeverChanges(run[..m], n);
      assert run[..m][..n] == run[..n];
      StepAppendsOps(After(run[..m]), run[m]);
      hide Apply, Enabled, Appends;
    }
  }

  /** The promotion at step `n`: no row, or one final that covers no more than its held item did. */
  ghost predicate PromotesWithin(before: seq<OpId>, after: seq<OpId>, x: TurnId, held: OpId) {
    && held in before && held.turn == x && held.kind.Candidate?
    && (after == before ||
        exists op :: after == before + [op] && op.turn == x && op.kind.Final? && op.item == Fallback(held.item) && op.covered <= held.covered)
  }

  lemma PromotionIsWithin(w: World, at: At)
    requires at.event.FallbackRecorded? && Enabled(w, at.event, at.now)
    ensures PromotesWithin(Ops(w.db.relays), Ops(Apply(w, at).db.relays), at.event.x, at.event.held.op)
  {
    hide CreateOutput, AcceptedForTurn, Promotes;
    var x, held := at.event.x, at.event.held;
    var i :| 0 <= i < |w.db.relays| && w.db.relays[i] == held;
    assert Ops(w.db.relays)[i] == held.op;
    CreateAppends(w.db, OpId(AcceptedForTurn(w.db, x) * held.op.covered, x, Fallback(held.op.item), Final), held.text, at.event.live, at.epoch, at.now);
  }

  /**
    In every run a fallback final covers only attentions its held candidate covered, then and for
    ever: nobody who was steered into the turn after the candidate was written is answered by it.
   */
  lemma FallbacksStayWithinCandidates(run: seq<At>, n: nat)
    requires Legal(run) && n < |run| && run[n].event.FallbackRecorded?
    ensures Legal(run[..n]) && Legal(run[..n + 1])
    ensures PromotesWithin(Ops(After(run[..n]).db.relays), Ops(After(run[..n + 1]).db.relays), run[n].event.x, run[n].event.held.op)
    ensures Ops(After(run[..n + 1]).db.relays) <= Ops(After(run).db.relays)
  {
    hide Apply, Enabled, PromotesWithin;
    CoverageNeverChanges(run, n);
    CoverageNeverChanges(run, n + 1);
    assert run[..n + 1][..n] == run[..n];
    PromotionIsWithin(After(run[..n]), run[n]);
  }

  /** Output recorded while an accepted input is not yet bound to its turn never covers that input. */
  lemma UnboundIsNotCovered(run: seq<At>, a: AttId, x: TurnId)
    requires Legal(run) && a in After(run).unbound
    ensures a !in AcceptedForTurn(After(run).db, x)
  {
    ReachableIsGood(run);
    var l := After(run).db;
    assert IntentOk(l.attentions, a, l.intents[a]) && MembersOk(l.attentions, l.turns, l.slots);
  }

  /** What one output covers is of one scope: the adapter's cross-room guard never fires. */
  lemma CoverageIsOfOneScope(run: seq<At>, x: TurnId, a: AttId, b: AttId)
    requires Legal(run) && a in AcceptedForTurn(After(run).db, x) && b in AcceptedForTurn(After(run).db, x)
    ensures After(run).db.attentions[a].scope == After(run).db.attentions[b].scope
  {
    ReachableIsGood(run);
    var l := After(run).db;
    assert MembersOk(l.attentions, l.turns, l.slots);
  }

  // ---- The turn that took an input ----

  /** The turn that took the latest input of an attention. */
  function LastTaker(inputs: seq<Input>, a: AttId): Option<TurnId> {
    if inputs == [] then None
    else
      var last := inputs[|inputs| - 1];
      if last.a == a then Some(last.turn) else LastTaker(inputs[..|inputs| - 1], a)
  }

  lemma TakerOfMore(inputs: seq<Input>, input: Input, a: AttId)
    ensures LastTaker(inputs + [input], a) == if input.a == a then Some(input.turn) else LastTaker(inputs, a)
  {
    assert (inputs + [input])[..|inputs|] == inputs;
  }

  /** An accepted input not yet bound was taken by a turn of the thread its dispatch is on. */
  ghost predicate UnboundTaken(intents: Intents, inputs: seq<Input>, unbound: set<AttId>) {
    forall a :: a in unbound ==>
      && a in intents && LastTaker(inputs, a).Some? && LastTaker(inputs, a).value.thread == intents[a].thread
  }

  /** What the record of accepted but unbound inputs depends on. */
  ghost predicate SameDispatch(w: World, v: World) {
    v.db.intents == w.db.intents && v.unbound == w.unbound && v.inputs == w.inputs && v.lost == w.lost
  }

  lemma ResolvedTaken(intents: Intents, inputs: seq<Input>, unbound: set<AttId>, a: AttId, intent: Intent)
    requires UnboundTaken(intents, inputs, unbound)
    ensures UnboundTaken(intents[a := intent], inputs, unbound - {a})
  {
  }

  lemma ReconcileKeepsTaken(w: World, a: AttId, turns: seq<HistoryTurn>, at: At)
    requires at.event == DispatchReconciled(a, turns) && RecoveryEnabled(w, at.event)
    requires UnboundTaken(w.db.intents, w.inputs, w.unbound)
    ensures var v := ApplyRecovery(w, at); v.inputs == w.inputs && UnboundTaken(v.db.intents, v.inputs, v.unbound)
  {
    hide Join, SlotsOf, UnboundTaken, NoPreparedOn;
    var v := ApplyRecovery(w, at);
    if v.db.intents != w.db.intents || v.unbound != w.unbound {
      ResolvedTaken(w.db.intents, w.inputs, w.unbound, a, v.db.intents[a]);
    }
  }

  lemma RecoveryKeepsTaken(w: World, at: At)
    requires RecoveryEvent(at.event) && RecoveryEnabled(w, at.event) && UnboundTaken(w.db.intents, w.inputs, w.unbound)
    ensures var v := ApplyRecovery(w, at); v.inputs == w.inputs && UnboundTaken(v.db.intents, v.inputs, v.unbound)
  {
    hide UnboundTaken, NoPreparedOn;
    match at.event {
      case Crashed =>
      case Started =>
      case IntentLost(a) =>
        ResolvedTaken(w.db.intents, w.inputs, w.unbound, a, ApplyRecovery(w, at).db.intents[a]);
      case ThreadGone(_) =>
      case ThreadResumed(_) =>
      case DispatchReconciled(a, turns) => ReconcileKeepsTaken(w, a, turns, at);
      case ThreadDone(_) =>
      case Reaped =>
    }
  }

  lemma DispatchKeepsTaken(w: World, at: At)
    requires DispatchEvent(at.event) && DispatchEnabled(w, at.event, at.now)
    requires DispatchOk(w.db.intents, w.db.threads, w.phase, w.unbound) && UnboundTaken(w.db.intents, w.inputs, w.unbound)
    ensures var v := ApplyDispatch(w, at); UnboundTaken(v.db.intents, v.inputs, v.unbound)
  {
    match at.event {
      case Ingested(_, _) =>
      case ThreadCreated(_, _) =>
      case Began(_, _) =>
      case InputAccepted(x) => TakerOfMore(w.inputs, Input(x, w.phase.a), w.phase.a);
      case InputMisreported(x) => TakerOfMore(w.inputs, Input(x, w.phase.a), w.phase.a);
      case InputRefused =>
      case RefusalRecorded =>
      case RefusalDeferred(_) =>
      case Finalized =>
      case TurnGivenUp(_) =>
    }
  }

  lemma OutputKeepsDispatch(w: World, at: At)
    requires OutputEvent(at.event) && OutputEnabled(w, at.event)
    ensures SameDispatch(w, ApplyOutput(w, at))
  {
    match at.event {
      case Adopted(_) =>
      case ItemRecorded(_, _, _) =>
      case NoReplyMarked(_) =>
      case FallbackRecorded(_, _, _) =>
      case Completed(_, _) =>
      case RelaySent(_) =>
      case RelayUnsent(_, _) =>
    }
  }

  lemma ControlKeepsDispatch(w: World, at: At)
    requires ControlEvent(at.event) && ControlEnabled(w, at.event)
    ensures SameDispatch(w, ApplyControl(w, at))
  {
    match at.event {
      case Stopped(_) =>
      case StopAcknowledged(_) =>
      case StopDeferred(_, _) =>
      case RoomShut(_) =>
      case LegacyRetired(_) =>
    }
  }

  lemma StepKeepsTaken(w: World, at: At)
    requires Good(w) && Enabled(w, at.event, at.now) && UnboundTaken(w.db.intents, w.inputs, w.unbound)
    ensures var v := Apply(w, at); UnboundTaken(v.db.intents, v.inputs, v.unbound)
  {
    hide RecoveryEvent, DispatchEvent, OutputEvent, RecoveryEnabled, DispatchEnabled, OutputEnabled, ControlEnabled,
      ApplyRecovery, ApplyDispatch, ApplyOutput, ApplyControl, Inv, UnboundTaken, DispatchOk;
    if RecoveryEvent(at.event) {
      RecoveryKeepsTaken(w, at);
    } else if DispatchEvent(at.event) {
      DispatchKeepsTaken(w, at);
    } else if OutputEvent(at.event) {
      OutputKeepsDispatch(w, at);
    } else {
      ControlKeepsDispatch(w, at);
    }
  }

  /** In every run, an accepted input not yet bound is on the thread of its prepared dispatch. */
  lemma {:induction false} UnboundAreTaken(run: seq<At>)
    requires Legal(run)
    ensures UnboundTaken(After(run).db.intents, After(run).inputs, After(run).unbound)
  {
    if run != [] {
      var n := |run| - 1;
      UnboundAreTaken(run[..n]);
      ReachableIsGood(run[..n]);
      StepKeepsTaken(After(run[..n]), run[n]);
    }
  }

  // ---- Runs in which full history shows every accepted input ----

  /** An RPC error means not accepted, and an accepted input not yet bound is visible whenever recovery looks for it. */
  ghost predicate ShowsAccepted(w: World, e: Event) {
    match e
    case RefusalRecorded => w.phase.Refused? ==> w.phase.a !in w.unbound
    case IntentLost(a) => a !in w.unbound
    case DispatchReconciled(a, turns) => a in w.unbound ==> exists h :: h in turns && a in h.inputs
    case _ => true
  }

  ghost predicate FullHistory(run: seq<At>)
    requires Legal(run)
    decreases |run|
  {
    run == [] ||
    var n := |run| - 1;
    FullHistory(run[..n]) && ShowsAccepted(After(run[..n]), run[n].event)
  }

  lemma RecoveryLosesNothing(w: World, at: At)
    requires RecoveryEvent(at.event) && RecoveryEnabled(w, at.event) && ShowsAccepted(w, at.event)
    ensures ApplyRecovery(w, at).lost == w.lost
  {
    match at.event {
      case Crashed =>
      case Started =>
      case IntentLost(_) =>
      case ThreadGone(_) =>
      case ThreadResumed(_) =>
      case DispatchReconciled(a, turns) => FoundInHistory(turns, a);
      case ThreadDone(_) =>
      case Reaped =>
    }
  }

  lemma DispatchLosesNothing(w: World, at: At)
    requires DispatchEvent(at.event) && DispatchEnabled(w, at.event, at.now) && ShowsAccepted(w, at.event)
    ensures ApplyDispatch(w, at).lost == w.lost
  {
    match at.event {
      case Ingested(_, _) =>
      case ThreadCreated(_, _) =>
      case Began(_, _) =>
      case InputAccepted(_) =>
      case InputMisreported(_) =>
      case InputRefused =>
      case RefusalRecorded =>
      case RefusalDeferred(_) =>
      case Finalized =>
      case TurnGivenUp(_) =>
    }
  }

  lemma StepLosesNothing(w: World, at: At)
    requires Good(w) && Enabled(w, at.event, at.now) && ShowsAccepted(w, at.event)
    ensures Apply(w, at).lost == w.lost
  {
    hide RecoveryEvent, DispatchEvent, OutputEvent, RecoveryEnabled, DispatchEnabled, OutputEnabled, ControlEnabled,
      ApplyRecovery, ApplyDispatch, ApplyOutput, ApplyControl, Inv, ShowsAccepted, DispatchOk;
    if RecoveryEvent(at.event) {
      RecoveryLosesNothing(w, at);
    } else if DispatchEvent(at.event) {
      DispatchLosesNothing(w, at);
    } else if OutputEvent(at.event) {
      OutputKeepsDispatch(w, at);
    } else {
      ControlKeepsDispatch(w, at);
    }
  }

  lemma {:induction false} NothingIsLost(run: seq<At>)
    requires Legal(run) && FullHistory(run)
    ensures After(run).lost == multiset{}
    ensures UnboundTaken(After(run).db.intents, After(run).inputs, After(run).unbound)
  {
    UnboundAreTaken(run);
    if run != [] {
      var n := |run| - 1;
      NothingIsLost(run[..n]);
      ReachableIsGood(run[..n]);
      StepLosesNothing(After(run[..n]), run[n]);
    }
  }

  /**
    Given that full history shows every accepted input, and that an RPC error means not accepted:
    at most one accepted input for an attention, plus one for each time a ledger step requeued it.
   */
  lemma AcceptedAtMostOncePlusRequeues(run: seq<At>, a: AttId)
    requires Legal(run) && FullHistory(run)
    ensures After(run).accepted[a] <= 1 + After(run).requeued[a]
  {
    AcceptedAtMostOncePerRequeue(run, a);
    NothingIsLost(run);
  }
}
