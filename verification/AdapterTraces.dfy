/**
  Runs of AdapterRuns as the methods of CodexAdapter produce them: what one committed store call adds to
  the run. The lease is not part of a run's ledger; a call's epoch is.
 */
module AdapterTraces {
  import opened Common
  import opened Leases
  import opened Ledgers
  import opened LedgerInvariants
  import opened AgentOutput
  import opened AdapterRuns
  import opened RecoverySteps

  ghost function Unleased(l: Ledger): Ledger {
    l.(lease := None)
  }

  /** The run is legal and ends in this world. */
  ghost predicate Traced(run: seq<At>, w: World) {
    Legal(run) && AdapterRuns.After(run) == w
  }

  ghost predicate Fenced(run: seq<At>, epoch: nat) {
    forall at :: at in run ==> at.epoch <= epoch
  }

  lemma Extends(run: seq<At>, w: World, at: At)
    requires Traced(run, w) && Enabled(w, at.event, at.now)
    ensures Traced(run + [at], Apply(w, at))
  {
    assert (run + [at])[..|run|] == run;
  }

  lemma TracedFacts(run: seq<At>, w: World)
    requires Traced(run, w)
    ensures Good(w) && TurnRowsOk(w.db.turns)
  {
    ReachableIsGood(run);
    ReachableTurnRows(run);
  }

  ghost predicate SameInputs(w: World, v: World) {
    v.inputs == w.inputs && v.accepted == w.accepted
  }

  /** Of the inputs known to be accepted, these are new. */
  ghost predicate Takes(w: World, v: World, taken: seq<Input>) {
    v.inputs == w.inputs + taken && v.accepted == w.accepted + multiset(Senders(taken))
  }

  lemma TakesChain(w: World, v: World, u: World, some: seq<Input>, more: seq<Input>)
    requires Takes(w, v, some) && Takes(v, u, more)
    ensures Takes(w, u, some + more)
  {
    assert Senders(some + more) == Senders(some) + Senders(more);
  }

  /** Three stretches of a run, of which at most the middle one takes an input. */
  lemma TakesOnly(w: World, v: World, u: World, z: World, taken: seq<Input>)
    requires Takes(w, v, []) && Takes(v, u, taken) && Takes(u, z, [])
    ensures Takes(w, z, taken)
  {
    TakesChain(w, v, u, [], taken);
    TakesChain(w, u, z, taken, []);
    assert [] + taken + [] == taken && [] + taken == taken && taken + [] == taken;
  }

  lemma TakesNothing(w: World, v: World)
    requires SameInputs(w, v)
    ensures Takes(w, v, [])
  {
    assert Senders([]) == [];
  }

  function Senders(taken: seq<Input>): seq<AttId> {
    seq(|taken|, k requires 0 <= k < |taken| => taken[k].a)
  }

  /** The run goes on, in the same phase and with the same threads; no input is accepted. */
  ghost predicate Continues(run: seq<At>, w: World, more: seq<At>, v: World) {
    run <= more && v.phase == w.phase && v.cache == w.cache && SameInputs(w, v)
  }

  // ---- What each committed call adds ----

  lemma RecordUnleased(l: Ledger, x: TurnId, item: AgentItem, live: bool, epoch: nat, now: int)
    ensures RecordItem(Unleased(l), x, item, live, epoch, now) == Unleased(RecordItem(l, x, item, live, epoch, now))
    ensures RecordItem(l, x, item, live, epoch, now).lease == l.lease
  {
  }

  lemma ItemAdds(w: World, l: Ledger, x: TurnId, item: AgentItem, live: bool, epoch: nat, now: int)
    requires w.db == Unleased(l) && Up(w.phase)
    ensures Enabled(w, ItemRecorded(x, item, live), now)
    ensures Apply(w, At(ItemRecorded(x, item, live), now, epoch)) == w.(db := Unleased(RecordItem(l, x, item, live, epoch, now)))
    ensures RecordItem(l, x, item, live, epoch, now).lease == l.lease
  {
    RecordUnleased(l, x, item, live, epoch, now);
    hide RecordItem;
  }

  lemma NoReplyAdds(w: World, l: Ledger, x: TurnId, epoch: nat, now: int)
    requires w.db == Unleased(l) && Up(w.phase)
    ensures Enabled(w, NoReplyMarked(x), now)
    ensures Apply(w, At(NoReplyMarked(x), now, epoch)) == w.(db := Unleased(TurnNoReply(l, x)))
    ensures TurnNoReply(l, x).lease == l.lease
  {
  }

  lemma FallbackAdds(w: World, l: Ledger, x: TurnId, held: Relay, live: bool, epoch: nat, now: int)
    requires w.db == Unleased(l) && Up(w.phase) && LatestCandidate(l.relays, x, held) && Promotes(l, x, held)
    ensures Enabled(w, FallbackRecorded(x, held, live), now)
    ensures Apply(w, At(FallbackRecorded(x, held, live), now, epoch)) == w.(db := Unleased(RecordFallback(l, x, held, live, epoch, now)))
    ensures RecordFallback(l, x, held, live, epoch, now).lease == l.lease
  {
  }

  lemma CompletionAdds(w: World, l: Ledger, x: TurnId, terminal: Option<Terminal>, epoch: nat, now: int)
    requires w.db == Unleased(l) && Up(w.phase)
    ensures Enabled(w, Completed(x, terminal), now)
    ensures Apply(w, At(Completed(x, terminal), now, epoch)) == w.(db := Unleased(TurnCompleted(l, x, terminal, now)))
    ensures TurnCompleted(l, x, terminal, now).lease == l.lease
  {
  }

  lemma AdoptionAdds(w: World, l: Ledger, x: TurnId, epoch: nat, now: int)
    requires w.db == Unleased(l) && (w.phase.Recovering? || w.phase.Idle?)
    ensures Enabled(w, Adopted(x), now)
    ensures Apply(w, At(Adopted(x), now, epoch)) == w.(db := Unleased(Adopt(l, x, epoch)))
    ensures Adopt(l, x, epoch).lease == l.lease
  {
  }

  lemma GivingUpAdds(w: World, l: Ledger, x: TurnId, epoch: nat, now: int)
    requires w.db == Unleased(l) && (w.phase.Recovering? || w.phase.Idle? || w.phase.Refused?)
    ensures Enabled(w, TurnGivenUp(x), now)
    ensures var v := Apply(w, At(TurnGivenUp(x), now, epoch));
            v == w.(db := v.db, requeued := v.requeued) && v.db == Unleased(RequeueMissingTurn(l, x.thread, x, now))
    ensures RequeueMissingTurn(l, x.thread, x, now).lease == l.lease
  {
  }

  lemma BeginningAdds(w: World, l: Ledger, a: AttId, t: ThreadId, operation: Operation, epoch: nat, now: int)
    requires w.db == Unleased(l) && w.phase.Idle? && a in l.attentions && Waiting(l.attentions[a])
    requires l.attentions[a].event.Work? || l.attentions[a].event.OtherControl?
    requires l.attentions[a].scope in w.cache && w.cache[l.attentions[a].scope] == t
    ensures Enabled(w, Began(a, operation), now)
    ensures Apply(w, At(Began(a, operation), now, epoch))
            == w.(db := Unleased(Prepare(l, a, t, operation, epoch, now)), phase := Sending(a, t))
    ensures Prepare(l, a, t, operation, epoch, now).lease == l.lease
  {
  }

  lemma AcceptanceAdds(w: World, x: TurnId, epoch: nat, now: int)
    requires w.phase.Sending? && x.thread == w.phase.t
    ensures Enabled(w, InputAccepted(x), now)
    ensures var v := Apply(w, At(InputAccepted(x), now, epoch));
            Takes(w, v, [Input(x, w.phase.a)]) && v.db == w.db && v.cache == w.cache && v.phase == Bound(w.phase.a, w.phase.t, x)
  {
  }

  lemma RefusalAdds(w: World, epoch: nat, now: int)
    requires w.phase.Sending?
    ensures Enabled(w, InputRefused, now)
    ensures Apply(w, At(InputRefused, now, epoch)) == w.(phase := Refused(w.phase.a))
  {
  }

  lemma RetryUnleased(l: Ledger, a: AttId, epoch: nat, now: int)
    ensures RetryUnobserved(Unleased(l), a, epoch, now) == Unleased(RetryUnobserved(l, a, epoch, now))
    ensures RetryUnobserved(l, a, epoch, now).lease == l.lease
  {
  }

  lemma RetryAdds(w: World, l: Ledger, epoch: nat, now: int)
    requires w.db == Unleased(l) && w.phase.Refused?
    ensures Enabled(w, RefusalRecorded, now)
    ensures var v := Apply(w, At(RefusalRecorded, now, epoch));
            SameInputs(w, v) && v.db == Unleased(RetryUnobserved(l, w.phase.a, epoch, now)) && v.cache == w.cache && v.phase == Retried(w.phase.a)
    ensures RetryUnobserved(l, w.phase.a, epoch, now).lease == l.lease
  {
    RetryUnleased(l, w.phase.a, epoch, now);
    hide RetryUnobserved;
  }

  lemma DeferralAdds(w: World, l: Ledger, delay: int, epoch: nat, now: int)
    requires w.db == Unleased(l) && w.phase.Retried?
    ensures Enabled(w, RefusalDeferred(delay), now)
    ensures Apply(w, At(RefusalDeferred(delay), now, epoch)) == w.(db := Unleased(Defer(l, w.phase.a, delay, now)), phase := Idle)
    ensures Defer(l, w.phase.a, delay, now).lease == l.lease
  {
  }

  lemma BindingAdds(w: World, l: Ledger, epoch: nat, now: int)
    requires w.db == Unleased(l) && w.phase.Bound? && w.phase.a in l.attentions && w.phase.a in l.intents
    ensures Enabled(w, Finalized, now)
    ensures var v := Apply(w, At(Finalized, now, epoch));
            SameInputs(w, v) && v.db == Unleased(Finalize(l, w.phase.a, w.phase.t, w.phase.x, epoch, false, now)) && v.cache == w.cache && v.phase == Idle
    ensures Finalize(l, w.phase.a, w.phase.t, w.phase.x, epoch, false, now).lease == l.lease
  {
    hide Join, SlotsOf;
  }

  lemma StartAdds(w: World, epoch: nat, now: int)
    requires w.phase.Down?
    ensures Enabled(w, Started, now)
    ensures Apply(w, At(Started, now, epoch)) == w.(phase := Recovering(w.db.threads.Values))
  {
  }

  lemma ResumptionAdds(w: World, l: Ledger, s: Scope, t: ThreadId, epoch: nat, now: int)
    requires w.db == Unleased(l) && w.phase.Recovering? && t in w.phase.todo && s in l.threads && l.threads[s] == t
    ensures Enabled(w, ThreadResumed(s), now)
    ensures Apply(w, At(ThreadResumed(s), now, epoch)) == w.(db := Unleased(Ledgers.SetThread(l, s, t)), cache := w.cache[s := t])
    ensures Ledgers.SetThread(l, s, t).lease == l.lease
  {
  }

  lemma RebindingAdds(w: World, l: Ledger, a: AttId, t: ThreadId, turns: seq<HistoryTurn>, x: TurnId, epoch: nat, now: int)
    requires w.db == Unleased(l) && w.phase.Recovering? && Prepared?(l.intents, a) && l.intents[a].thread == t && t in w.phase.todo
    requires a in l.attentions && TurnForClientMessage(turns, a) == Some(x) && forall h :: h in turns ==> h.id.thread == t
    ensures Enabled(w, DispatchReconciled(a, turns), now)
    ensures var v := Apply(w, At(DispatchReconciled(a, turns), now, epoch));
            SameInputs(w, v) && v.cache == w.cache && v.phase == w.phase && v.db == Unleased(Finalize(l, a, t, x, epoch, true, now))
    ensures Finalize(l, a, t, x, epoch, true, now).lease == l.lease
  {
    hide Join, SlotsOf, TurnForClientMessage;
  }

  lemma RetryingAdds(w: World, l: Ledger, a: AttId, t: ThreadId, turns: seq<HistoryTurn>, epoch: nat, now: int)
    requires w.db == Unleased(l) && w.phase.Recovering? && Prepared?(l.intents, a) && l.intents[a].thread == t && t in w.phase.todo
    requires TurnForClientMessage(turns, a) == None && forall h :: h in turns ==> h.id.thread == t
    ensures Enabled(w, DispatchReconciled(a, turns), now)
    ensures var v := Apply(w, At(DispatchReconciled(a, turns), now, epoch));
            SameInputs(w, v) && v.cache == w.cache && v.phase == w.phase && v.db == Unleased(RetryUnobserved(l, a, epoch, now))
    ensures RetryUnobserved(l, a, epoch, now).lease == l.lease
  {
    RetryUnleased(l, a, epoch, now);
    hide RetryUnobserved, TurnForClientMessage;
  }

  lemma LossAdds(w: World, l: Ledger, a: AttId, epoch: nat, now: int)
    requires w.db == Unleased(l) && w.phase.Recovering? && Prepared?(l.intents, a) && l.intents[a].thread in w.phase.todo
    ensures Enabled(w, IntentLost(a), now)
    ensures var v := Apply(w, At(IntentLost(a), now, epoch));
            SameInputs(w, v) && v.db == Unleased(RetryUnobserved(l, a, epoch, now)) && v.cache == w.cache && v.phase == w.phase
    ensures RetryUnobserved(l, a, epoch, now).lease == l.lease
  {
    RetryUnleased(l, a, epoch, now);
    hide RetryUnobserved;
  }

  lemma GoneAdds(w: World, l: Ledger, t: ThreadId, epoch: nat, now: int)
    requires w.db == Unleased(l) && w.phase.Recovering? && t in w.phase.todo && t !in w.cache.Values && NoPreparedOn(l.intents, t)
    ensures Enabled(w, ThreadGone(t), now)
    ensures var v := Apply(w, At(ThreadGone(t), now, epoch));
            SameInputs(w, v) && v.db == Unleased(RequeueMissingThread(l, t, now)) && v.cache == w.cache && v.phase == Recovering(w.phase.todo - {t})
    ensures RequeueMissingThread(l, t, now).lease == l.lease
  {
  }

  lemma DoneAdds(w: World, t: ThreadId, epoch: nat, now: int)
    requires w.phase.Recovering? && t in w.phase.todo && t in w.cache.Values && NoPreparedOn(w.db.intents, t)
    ensures Enabled(w, ThreadDone(t), now)
    ensures Apply(w, At(ThreadDone(t), now, epoch)) == w.(phase := Recovering(w.phase.todo - {t}))
  {
  }

  lemma ReapingAdds(w: World, l: Ledger, epoch: nat, now: int)
    requires w.db == Unleased(l) && w.phase == Recovering({})
    ensures Enabled(w, Reaped, now)
    ensures Apply(w, At(Reaped, now, epoch)) == w.(db := Unleased(Reap(l, epoch, now)), phase := Idle)
    ensures Reap(l, epoch, now).lease == l.lease
  {
  }

  lemma StopAdds(w: World, l: Ledger, x: TurnId, epoch: nat, now: int)
    requires w.db == Unleased(l) && w.phase.Idle?
    ensures Enabled(w, Stopped(x), now)
    ensures var v := Apply(w, At(Stopped(x), now, epoch));
            SameInputs(w, v) && v.db == Unleased(InterruptTurn(l, x, now)) && v.cache == w.cache && v.phase == w.phase
    ensures InterruptTurn(l, x, now).lease == l.lease && InterruptTurn(l, x, now).threads == l.threads
  {
    hide Dense, StopRows, Detach, SuppressFor;
  }

  lemma StopClosingAdds(w: World, l: Ledger, c: AttId, epoch: nat, now: int)
    requires w.db == Unleased(l) && w.phase.Idle? && c in l.attentions && l.attentions[c].event.StopControl?
    ensures Enabled(w, StopAcknowledged(c), now)
    ensures Apply(w, At(StopAcknowledged(c), now, epoch)) == w.(db := Unleased(CancelPending(l, c, epoch, now)))
    ensures CancelPending(l, c, epoch, now).lease == l.lease
  {
  }

  lemma StopDeferralAdds(w: World, l: Ledger, c: AttId, delay: int, epoch: nat, now: int)
    requires w.db == Unleased(l) && w.phase.Idle? && c in l.attentions && l.attentions[c].event.StopControl?
    ensures Enabled(w, StopDeferred(c, delay), now)
    ensures Apply(w, At(StopDeferred(c, delay), now, epoch)) == w.(db := Unleased(Defer(l, c, delay, now)))
    ensures Defer(l, c, delay, now).lease == l.lease
  {
  }

  lemma ClosureAdds(w: World, l: Ledger, c: AttId, epoch: nat, now: int)
    requires w.db == Unleased(l) && w.phase.Idle? && c in l.attentions && l.attentions[c].event.RoomClosedControl?
    ensures Enabled(w, RoomShut(c), now)
    ensures var v := Apply(w, At(RoomShut(c), now, epoch));
            v == w.(db := Unleased(CloseRoom(l, c, epoch, now)), cache := map s | s in w.cache && s != l.attentions[c].scope :: w.cache[s])
    ensures CloseRoom(l, c, epoch, now).lease == l.lease
  {
  }

  lemma SendingAdds(w: World, l: Ledger, op: OpId, epoch: nat, now: int)
    requires w.db == Unleased(l) && Up(w.phase) && exists r :: r in l.relays && r.op == op && r.status.Pending?
    ensures Enabled(w, RelaySent(op), now)
    ensures Apply(w, At(RelaySent(op), now, epoch)) == w.(db := Unleased(RelayAccepted(l, op, now)))
    ensures RelayAccepted(l, op, now).lease == l.lease
  {
  }

  lemma NotSendingAdds(w: World, l: Ledger, op: OpId, delay: int, epoch: nat, now: int)
    requires w.db == Unleased(l) && Up(w.phase)
    ensures Enabled(w, RelayUnsent(op, delay), now)
    ensures Apply(w, At(RelayUnsent(op, delay), now, epoch)) == w.(db := Unleased(RelayFailed(l, op, delay, now)))
    ensures RelayFailed(l, op, delay, now).lease == l.lease
  {
  }

  lemma RetirementAdds(w: World, l: Ledger, a: AttId, epoch: nat, now: int)
    requires w.db == Unleased(l) && w.phase.Idle?
    ensures Enabled(w, LegacyRetired(a), now)
    ensures Apply(w, At(LegacyRetired(a), now, epoch)) == w.(db := Unleased(RetireLegacy(l, a)))
    ensures RetireLegacy(l, a).lease == l.lease
  {
  }

  // ---- Epochs ----

  ghost predicate EpochsWithin(turns: Turns, epoch: nat) {
    forall x :: x in turns ==> turns[x].epoch <= epoch
  }

  lemma ClosedWithin(turns: Turns, xs: set<TurnId>, now: int, terminal: Terminal, epoch: nat)
    requires EpochsWithin(turns, epoch)
    ensures EpochsWithin(CloseTurns(turns, xs, now, terminal), epoch)
  {
  }

  lemma RowWithin(turns: Turns, x: TurnId, row: TurnRow, epoch: nat)
    requires EpochsWithin(turns, epoch) && row.epoch <= epoch
    ensures EpochsWithin(turns[x := row], epoch)
  {
  }

  lemma BindWithin(w: World, a: AttId, t: ThreadId, x: TurnId, reconciled: bool, at: At, epoch: nat)
    requires EpochsWithin(w.db.turns, epoch) && at.epoch <= epoch
    ensures EpochsWithin(Bind(w, a, t, x, reconciled, at).db.turns, epoch)
  {
    hide Join, SlotsOf;
  }

  lemma AdoptWithin(l: Ledger, x: TurnId, at: nat, epoch: nat)
    requires EpochsWithin(l.turns, epoch) && at <= epoch
    ensures EpochsWithin(Adopt(l, x, at).turns, epoch)
  {
    hide AdoptRows;
  }

  lemma RecoveryKeepsEpochs(w: World, at: At, epoch: nat)
    requires RecoveryEvent(at.event) && RecoveryEnabled(w, at.event) && EpochsWithin(w.db.turns, epoch) && at.epoch <= epoch
    ensures EpochsWithin(ApplyRecovery(w, at).db.turns, epoch)
  {
    hide EpochsWithin, CloseTurns, RequeueRows, EmptySlots, AbandonRows, GivenBack, LostTurns, Stale, SuppressFor, Bind, NoPreparedOn;
    match at.event {
      case Crashed =>
      case Started =>
      case IntentLost(_) =>
      case ThreadGone(t) => ClosedWithin(w.db.turns, LostTurns(w.db, t), at.now, Failed, epoch);
      case ThreadResumed(_) =>
      case DispatchReconciled(a, turns) =>
        var found := TurnForClientMessage(turns, a);
        if found.Some? {
          BindWithin(w, a, w.db.intents[a].thread, found.value, true, at, epoch);
        }
      case ThreadDone(_) =>
      case Reaped => ClosedWithin(w.db.turns, Stale(w.db, at.epoch), at.now, Interrupted, epoch);
    }
  }

  lemma DispatchKeepsEpochs(w: World, at: At, epoch: nat)
    requires DispatchEvent(at.event) && DispatchEnabled(w, at.event, at.now) && EpochsWithin(w.db.turns, epoch) && at.epoch <= epoch
    ensures EpochsWithin(ApplyDispatch(w, at).db.turns, epoch)
  {
    hide EpochsWithin, CloseTurns, RequeueRows, EmptySlots, GivenBack, LostTurns, RetryUnobserved, Defer, Bind;
    match at.event {
      case Ingested(_, _) =>
      case ThreadCreated(_, _) =>
      case Began(_, _) =>
      case InputAccepted(_) =>
      case InputMisreported(_) =>
      case InputRefused =>
      case RefusalRecorded => RetriedTurns(w.db, w.phase.a, at.epoch, at.now);
      case RefusalDeferred(delay) => DeferredTurns(w.db, w.phase.a, delay, at.now);
      case Finalized => BindWithin(w, w.phase.a, w.phase.t, w.phase.x, false, at, epoch);
      case TurnGivenUp(x) => ClosedWithin(w.db.turns, {x}, at.now, Failed, epoch);
    }
  }

  lemma OutputKeepsEpochs(w: World, at: At, epoch: nat)
    requires OutputEvent(at.event) && OutputEnabled(w, at.event) && EpochsWithin(w.db.turns, epoch) && at.epoch <= epoch
    ensures EpochsWithin(ApplyOutput(w, at).db.turns, epoch)
  {
    hide EpochsWithin, AnswerRows, CancelRows, CompleteRows, AdoptRows, Waived, OutputKind, AcceptedForTurn, LatestCandidate, Promotes,
      Adopt, SuppressFor, RecordItem, RecordFallback;
    match at.event {
      case Adopted(x) => AdoptWithin(w.db, x, at.epoch, epoch);
      case ItemRecorded(x, item, live) => RecordedTurns(w.db, x, item, live, at.epoch, at.now);
      case NoReplyMarked(_) =>
      case FallbackRecorded(x, held, live) => PromotedTurns(w.db, x, held, live, at.epoch, at.now);
      case Completed(x, terminal) =>
        if x in w.db.turns {
          assert x in w.db.turns ==> w.db.turns[x].epoch <= epoch by { WithinAt(w.db.turns, x, epoch); }
          RowWithin(w.db.turns, x, Close(w.db.turns[x], at.now, terminal), epoch);
        }
      case RelaySent(_) =>
      case RelayUnsent(_, _) =>
    }
  }

  lemma WithinAt(turns: Turns, x: TurnId, epoch: nat)
    requires EpochsWithin(turns, epoch) && x in turns
    ensures turns[x].epoch <= epoch
  {
  }

  lemma ControlKeepsEpochs(w: World, at: At, epoch: nat)
    requires ControlEvent(at.event) && ControlEnabled(w, at.event) && EpochsWithin(w.db.turns, epoch)
    ensures EpochsWithin(ApplyControl(w, at).db.turns, epoch)
  {
    hide StopRows, Detach, CancelRows, SlotsOf, StopRequeued, StopCancelled, Dense, SuppressFor, CancelUnfinished;
    match at.event {
      case Stopped(_) =>
      case StopAcknowledged(_) =>
      case StopDeferred(_, _) =>
      case RoomShut(_) =>
      case LegacyRetired(_) =>
    }
  }

  /** Over every run: no turn row carries an epoch above those of the calls that wrote it. */
  lemma {:induction false} EpochsAreFenced(run: seq<At>, epoch: nat)
    requires Legal(run) && Fenced(run, epoch)
    ensures EpochsWithin(AdapterRuns.After(run).db.turns, epoch)
  {
    if run != [] {
      var n := |run| - 1;
      var w, at := AdapterRuns.After(run[..n]), run[n];
      EpochsAreFenced(run[..n], epoch);
      hide ApplyRecovery, ApplyDispatch, ApplyOutput, ApplyControl, RecoveryEnabled, DispatchEnabled, OutputEnabled, ControlEnabled, EpochsWithin;
      if RecoveryEvent(at.event) {
        RecoveryKeepsEpochs(w, at, epoch);
      } else if DispatchEvent(at.event) {
        DispatchKeepsEpochs(w, at, epoch);
      } else if OutputEvent(at.event) {
        OutputKeepsEpochs(w, at, epoch);
      } else {
        ControlKeepsEpochs(w, at, epoch);
      }
    }
  }
}
