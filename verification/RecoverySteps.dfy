/**
  What single ledger transactions do to turns and coverage, as the adapter of CodexAdapter composes
  them: output never covers anyone who has not joined the turn, and recovery adopts or closes.
 */
module RecoverySteps {
  import opened Common
  import opened Ledgers
  import opened LedgerInvariants
  import opened AgentOutput
  import opened AdapterRuns

  // ---- Output ----

  /** Rows were only appended, and the new ones cover members of their turn. */
  ghost predicate NewCovered(before: seq<Relay>, after: seq<Relay>, slots: Slots) {
    && Ops(before) <= Ops(after)
    && forall i :: |before| <= i < |after| ==> after[i].op.covered <= Members(slots, after[i].op.turn)
  }

  /** Output and completion: nobody joins or leaves a turn, and only the turns `xs` may close. */
  ghost predicate Outputs(l: Ledger, m: Ledger, xs: set<TurnId>) {
    && m.slots == l.slots && m.intents == l.intents && m.threads == l.threads && m.lease == l.lease
    && NewCovered(l.relays, m.relays, l.slots)
    && m.attentions.Keys == l.attentions.Keys
    && (forall a :: a in l.attentions ==>
          m.attentions[a].turn == l.attentions[a].turn && m.attentions[a].accepted == l.attentions[a].accepted)
    && m.turns.Keys == l.turns.Keys
    && forall x :: x in l.turns ==>
         m.turns[x] == l.turns[x] || (x in xs && !Open(m.turns[x]) && m.turns[x].thread == l.turns[x].thread)
  }

  lemma NothingOutput(l: Ledger)
    ensures Outputs(l, l, {})
  {
  }

  lemma OutputsChain(l: Ledger, m: Ledger, n: Ledger, xs: set<TurnId>)
    requires Outputs(l, m, xs) && Outputs(m, n, xs)
    ensures Outputs(l, n, xs)
  {
    forall i | |l.relays| <= i < |n.relays| ensures n.relays[i].op.covered <= Members(l.slots, n.relays[i].op.turn) {
      if i < |m.relays| {
        assert Ops(n.relays)[i] == Ops(m.relays)[i];
      }
    }
  }

  lemma MoreMayClose(l: Ledger, m: Ledger, xs: set<TurnId>, ys: set<TurnId>)
    requires Outputs(l, m, xs) && xs <= ys
    ensures Outputs(l, m, ys)
  {
  }

  lemma CreateOutputs(l: Ledger, op: OpId, text: string, live: bool, epoch: nat, now: int)
    requires op.covered <= Members(l.slots, op.turn)
    ensures Outputs(l, CreateOutput(l, op, text, live, epoch, now), {})
  {
  }

  lemma ItemOutputs(l: Ledger, x: TurnId, item: AgentItem, live: bool, epoch: nat, now: int)
    ensures Outputs(l, RecordItem(l, x, item, live, epoch, now), {})
  {
    NothingOutput(l);
    CreateOutputs(l, OpId(AcceptedForTurn(l, x), x, item.id, OutputKind(l, x, item)), item.text, live, epoch, now);
    hide Outputs, CreateOutput;
  }

  lemma NoReplyOutputs(l: Ledger, x: TurnId)
    ensures Outputs(l, TurnNoReply(l, x), {})
  {
  }

  lemma CompletionOutputs(l: Ledger, x: TurnId, terminal: Option<Terminal>, now: int)
    ensures Outputs(l, TurnCompleted(l, x, terminal, now), {x})
  {
    SuppressOps(l.relays, {x});
    hide SuppressFor, Members, SlotsOf;
  }

  /** An attention not yet accepted is not covered by anything output in between. */
  lemma UnacceptedIsNotCovered(l: Ledger, m: Ledger, xs: set<TurnId>, a: AttId)
    requires MembersOk(l.attentions, l.turns, l.slots) && Outputs(l, m, xs)
    requires a in l.attentions && l.attentions[a].accepted.None?
    ensures forall i :: |l.relays| <= i < |m.relays| ==> a !in m.relays[i].op.covered
  {
    forall x ensures a !in Members(l.slots, x) {}
  }

  // ---- Recovery ----

  datatype RemoteStatus = InProgress | Ended(terminal: Option<Terminal>)

  /** A turn of the durable history, with its agent messages. */
  datatype RemoteTurn = RemoteTurn(history: HistoryTurn, items: seq<AgentItem>, status: RemoteStatus)

  /** What the app-server says of a thread: gone, or its history, and for which turns it was idle when asked. */
  datatype Probe = Missing | Live(turns: seq<RemoteTurn>, idle: set<TurnId>)

  type Probes = ThreadId -> Probe

  ghost predicate Honest(probes: Probes) {
    forall t: ThreadId, r :: probes(t).Live? && r in probes(t).turns ==> r.history.id.thread == t
  }

  predicate InHistory(turns: seq<RemoteTurn>, x: TurnId) {
    exists r :: r in turns && r.history.id == x
  }

  /** Present in durable history, or on a thread not proven idle when that turn was looked at. */
  predicate Proven(known: set<ThreadId>, probes: Probes, x: TurnId) {
    x.thread in known && probes(x.thread).Live? && (InHistory(probes(x.thread).turns, x) || x !in probes(x.thread).idle)
  }

  /** The durable history says that the turn is over. */
  predicate Over(probes: Probes, x: TurnId) {
    probes(x.thread).Live? && exists r :: r in probes(x.thread).turns && r.history.id == x && r.status.Ended?
  }

  ghost predicate TurnRowsOk(turns: Turns) {
    forall x :: x in turns ==> turns[x].thread == x.thread && (Open(turns[x]) ==> turns[x].terminal.None?)
  }

  // ---- Every reachable ledger has such rows ----

  ghost predicate OpenAreLive(turns: Turns) {
    forall x :: x in turns && Open(turns[x]) ==> turns[x].terminal.None?
  }

  lemma ClosedAreLive(turns: Turns, xs: set<TurnId>, now: int, terminal: Terminal)
    requires OpenAreLive(turns)
    ensures OpenAreLive(CloseTurns(turns, xs, now, terminal))
  {
  }

  lemma RowIsLive(turns: Turns, x: TurnId, row: TurnRow)
    requires OpenAreLive(turns) && (Open(row) ==> row.terminal.None?)
    ensures OpenAreLive(turns[x := row])
  {
  }

  lemma BindIsLive(w: World, a: AttId, t: ThreadId, x: TurnId, reconciled: bool, at: At)
    requires OpenAreLive(w.db.turns)
    ensures OpenAreLive(Bind(w, a, t, x, reconciled, at).db.turns)
  {
    hide Join, SlotsOf;
  }

  lemma AdoptIsLive(l: Ledger, x: TurnId, epoch: nat)
    requires OpenAreLive(l.turns)
    ensures OpenAreLive(Adopt(l, x, epoch).turns)
  {
    hide AdoptRows;
  }

  lemma RecordedTurns(l: Ledger, x: TurnId, item: AgentItem, live: bool, epoch: nat, now: int)
    ensures RecordItem(l, x, item, live, epoch, now).turns == l.turns
  {
  }

  lemma PromotedTurns(l: Ledger, x: TurnId, held: Relay, live: bool, epoch: nat, now: int)
    ensures RecordFallback(l, x, held, live, epoch, now).turns == l.turns
  {
  }

  lemma RetriedTurns(l: Ledger, a: AttId, epoch: nat, now: int)
    ensures RetryUnobserved(l, a, epoch, now).turns == l.turns
  {
  }

  lemma DeferredTurns(l: Ledger, a: AttId, delay: int, now: int)
    ensures Defer(l, a, delay, now).turns == l.turns
  {
  }

  lemma RecoveryKeepsLive(w: World, at: At)
    requires RecoveryEvent(at.event) && RecoveryEnabled(w, at.event) && OpenAreLive(w.db.turns)
    ensures OpenAreLive(ApplyRecovery(w, at).db.turns)
  {
    hide OpenAreLive, CloseTurns, RequeueRows, EmptySlots, AbandonRows, GivenBack, LostTurns, Stale, SuppressFor, Bind, NoPreparedOn;
    match at.event {
      case Crashed =>
      case Started =>
      case IntentLost(_) =>
      case ThreadGone(t) => ClosedAreLive(w.db.turns, LostTurns(w.db, t), at.now, Failed);
      case ThreadResumed(_) =>
      case DispatchReconciled(a, turns) =>
        var found := TurnForClientMessage(turns, a);
        if found.Some? {
          BindIsLive(w, a, w.db.intents[a].thread, found.value, true, at);
        }
      case ThreadDone(_) =>
      case Reaped => ClosedAreLive(w.db.turns, Stale(w.db, at.epoch), at.now, Interrupted);
    }
  }

  lemma DispatchKeepsLive(w: World, at: At)
    requires DispatchEvent(at.event) && DispatchEnabled(w, at.event, at.now) && OpenAreLive(w.db.turns)
    ensures OpenAreLive(ApplyDispatch(w, at).db.turns)
  {
    hide OpenAreLive, CloseTurns, RequeueRows, EmptySlots, GivenBack, LostTurns, RetryUnobserved, Defer, Bind;
    match at.event {
      case Ingested(_, _) =>
      case ThreadCreated(_, _) =>
      case Began(_, _) =>
      case InputAccepted(_) =>
      case InputMisreported(_) =>
      case InputRefused =>
      case RefusalRecorded => RetriedTurns(w.db, w.phase.a, at.epoch, at.now);
      case RefusalDeferred(delay) => DeferredTurns(w.db, w.phase.a, delay, at.now);
      case Finalized => BindIsLive(w, w.phase.a, w.phase.t, w.phase.x, false, at);
      case TurnGivenUp(x) => ClosedAreLive(w.db.turns, {x}, at.now, Failed);
    }
  }

  lemma OutputKeepsLive(w: World, at: At)
    requires OutputEvent(at.event) && OutputEnabled(w, at.event) && OpenAreLive(w.db.turns)
    ensures OpenAreLive(ApplyOutput(w, at).db.turns)
  {
    hide OpenAreLive, AnswerRows, CancelRows, CompleteRows, AdoptRows, Waived, HasItem, OutputKind, AcceptedForTurn, LatestCandidate, Promotes, Adopt, RecordItem, RecordFallback;
    match at.event {
      case Adopted(x) => AdoptIsLive(w.db, x, at.epoch);
      case ItemRecorded(x, item, live) => RecordedTurns(w.db, x, item, live, at.epoch, at.now);
      case NoReplyMarked(_) =>
      case FallbackRecorded(x, held, live) => PromotedTurns(w.db, x, held, live, at.epoch, at.now);
      case Completed(x, terminal) =>
        if x in w.db.turns {
          RowIsLive(w.db.turns, x, Close(w.db.turns[x], at.now, terminal));
        }
      case RelaySent(_) =>
      case RelayUnsent(_, _) =>
    }
  }

  lemma ControlKeepsLive(w: World, at: At)
    requires ControlEvent(at.event) && ControlEnabled(w, at.event) && OpenAreLive(w.db.turns)
    ensures OpenAreLive(ApplyControl(w, at).db.turns)
  {
    hide StopRows, Detach, CancelRows, SlotsOf, StopRequeued, StopCancelled, Dense, SuppressFor;
    match at.event {
      case Stopped(_) =>
      case StopAcknowledged(_) =>
      case StopDeferred(_, _) =>
      case RoomShut(_) =>
      case LegacyRetired(_) =>
    }
  }

  lemma {:induction false} OpenTurnsAreLive(run: seq<At>)
    requires Legal(run)
    ensures OpenAreLive(After(run).db.turns)
  {
    if run != [] {
      var w, at := After(run[..|run| - 1]), run[|run| - 1];
      OpenTurnsAreLive(run[..|run| - 1]);
      hide ApplyRecovery, ApplyDispatch, ApplyOutput, ApplyControl, RecoveryEnabled, DispatchEnabled, OutputEnabled, ControlEnabled;
      if RecoveryEvent(at.event) {
        RecoveryKeepsLive(w, at);
      } else if DispatchEvent(at.event) {
        DispatchKeepsLive(w, at);
      } else if OutputEvent(at.event) {
        OutputKeepsLive(w, at);
      } else {
        ControlKeepsLive(w, at);
      }
    }
  }

  /** What recovery asks of the ledger it starts from holds of every reachable one. */
  lemma ReachableTurnRows(run: seq<At>)
    requires Legal(run)
    ensures TurnRowsOk(After(run).db.turns)
  {
    ReachableIsGood(run);
    OpenTurnsAreLive(run);
    var w := After(run);
    assert TurnsOk(w.db.turns, w.db.threads, w.used);
  }

  /** What is closed stays so. Open afterwards: untouched, or proven and under the new epoch. Closed meanwhile: not proven, or over. */
  ghost predicate Recovers(before: Turns, after: Turns, epoch: nat, known: set<ThreadId>, probes: Probes) {
    && TurnRowsOk(after)
    && before.Keys <= after.Keys
    && (forall x :: x in before && !Open(before[x]) ==> !Open(after[x]))
    && (forall x :: x in after && Open(after[x]) ==>
          (x in before && after[x] == before[x]) || (after[x].epoch == epoch && Proven(known, probes, x)))
    && (forall x :: x in before && Open(before[x]) && !Open(after[x]) ==> !Proven(known, probes, x) || Over(probes, x))
  }

  lemma RecoversChain(a: Turns, b: Turns, c: Turns, epoch: nat, known: set<ThreadId>, probes: Probes)
    requires Recovers(a, b, epoch, known, probes) && Recovers(b, c, epoch, known, probes)
    ensures Recovers(a, c, epoch, known, probes)
  {
    hide Proven, Over;
  }

  lemma RecoversSelf(a: Turns, epoch: nat, known: set<ThreadId>, probes: Probes)
    requires TurnRowsOk(a)
    ensures Recovers(a, a, epoch, known, probes)
  {
  }

  /** Every proven open turn of the thread carries the new epoch. */
  ghost predicate AllAdopted(turns: Turns, t: ThreadId, epoch: nat, known: set<ThreadId>, probes: Probes) {
    forall x :: x in turns && x.thread == t && Open(turns[x]) && Proven(known, probes, x) ==> turns[x].epoch == epoch
  }

  lemma StaysAdopted(before: Turns, after: Turns, t: ThreadId, epoch: nat, known: set<ThreadId>, probes: Probes)
    requires AllAdopted(before, t, epoch, known, probes) && Recovers(before, after, epoch, known, probes)
    ensures AllAdopted(after, t, epoch, known, probes)
  {
    hide Proven, Over;
  }

  lemma MissingThreadRecovers(l: Ledger, t: ThreadId, now: int, epoch: nat, known: set<ThreadId>, probes: Probes)
    requires TurnRowsOk(l.turns) && probes(t).Missing?
    ensures var m := RequeueMissingThread(l, t, now);
            Recovers(l.turns, m.turns, epoch, known, probes) && AllAdopted(m.turns, t, epoch, known, probes)
  {
  }

  lemma BoundRecovers(l: Ledger, a: AttId, t: ThreadId, x: TurnId, epoch: nat, now: int, known: set<ThreadId>, probes: Probes)
    requires TurnRowsOk(l.turns) && a in l.attentions && a in l.intents
    requires x.thread == t && t in known && probes(t).Live? && InHistory(probes(t).turns, x)
    ensures Recovers(l.turns, Finalize(l, a, t, x, epoch, true, now).turns, epoch, known, probes)
  {
  }

  lemma AdoptRecovers(l: Ledger, x: TurnId, epoch: nat, known: set<ThreadId>, probes: Probes)
    requires TurnRowsOk(l.turns) && Proven(known, probes, x)
    ensures var m := Adopt(l, x, epoch);
            Recovers(l.turns, m.turns, epoch, known, probes) && (x in m.turns && Open(m.turns[x]) ==> m.turns[x].epoch == epoch)
  {
    hide AdoptRows, Proven, Over;
  }

  lemma MissingTurnRecovers(l: Ledger, x: TurnId, now: int, epoch: nat, known: set<ThreadId>, probes: Probes)
    requires TurnRowsOk(l.turns) && !Proven(known, probes, x)
    ensures Recovers(l.turns, RequeueMissingTurn(l, x.thread, x, now).turns, epoch, known, probes)
  {
  }

  lemma OutputRecovers(l: Ledger, m: Ledger, xs: set<TurnId>, epoch: nat, known: set<ThreadId>, probes: Probes)
    requires TurnRowsOk(l.turns) && Outputs(l, m, xs) && forall x :: x in xs ==> Over(probes, x)
    ensures Recovers(l.turns, m.turns, epoch, known, probes)
  {
  }

  /**
    The reaper closes exactly what was not recovered: afterwards every open turn is proven and
    carries the new epoch, and a proven turn that history does not call over is still open.
   */
  lemma ReapCompletes(first: Turns, l: Ledger, epoch: nat, now: int, known: set<ThreadId>, probes: Probes)
    requires Recovers(first, l.turns, epoch, known, probes)
    requires forall t :: t in known ==> AllAdopted(l.turns, t, epoch, known, probes)
    requires forall x :: x in first ==> first[x].epoch < epoch
    ensures var turns := Reap(l, epoch, now).turns;
            && (forall x :: x in turns && Open(turns[x]) ==> turns[x].epoch == epoch && Proven(known, probes, x))
            && (forall x :: x in first && Open(first[x]) && Proven(known, probes, x) && !Over(probes, x) ==>
                  x in turns && Open(turns[x]) && turns[x].epoch == epoch)
  {
    forall x | x in first && Open(first[x]) && Proven(known, probes, x) && !Over(probes, x)
      ensures x in l.turns && Open(l.turns[x]) && l.turns[x].epoch == epoch
    {
      assert AllAdopted(l.turns, x.thread, epoch, known, probes);
    }
  }
}
