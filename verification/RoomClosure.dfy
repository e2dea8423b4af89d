/**
  A room-closed control: what its one transaction leaves (attention_store.py, `close_room`), and that
  output arriving later for a turn that was open at closure is never recorded, in any continuation.
 */
module RoomClosure {
  import opened Common
  import opened Ledgers
  import opened LedgerInvariants
  import opened AgentOutput
  import opened AdapterRuns
  import opened AdapterTheorems

  /** Nothing of the room is open, sendable or unfinished, and it has no thread. */
  ghost predicate Closed(l: Ledger, scope: Scope) {
    && scope !in l.threads
    && (forall x :: x in l.turns && l.turns[x].scope == scope ==> !Open(l.turns[x]))
    && (forall r :: r in l.relays && r.op.turn in l.turns && l.turns[r.op.turn].scope == scope ==> !Unsent(r))
    && (forall a :: a in l.attentions && l.attentions[a].scope == scope ==> !Unfinished(l.attentions[a]))
  }

  ghost predicate AllTerminal(rows: Rows, members: set<AttId>) {
    forall a :: a in members ==> a in rows && rows[a].terminal.Some?
  }

  /** A closed turn of a dropped thread whose members are all terminal. */
  ghost predicate Dead(l: Ledger, x: TurnId) {
    && x in l.turns && !Open(l.turns[x]) && x.thread !in l.threads.Values
    && AllTerminal(l.attentions, Members(l.slots, x))
  }

  /** No relay row on turn `x` was added. */
  ghost predicate NothingNewOn(before: seq<Relay>, after: seq<Relay>, x: TurnId) {
    && Ops(before) <= Ops(after)
    && forall i :: |before| <= i < |after| ==> after[i].op.turn != x
  }

  // ---- The transaction ----

  /** After the control, the room has nothing left to do. */
  lemma ControlClosesRoom(l: Ledger, c: AttId, epoch: nat, now: int)
    requires Inv(l) && c in l.attentions
    ensures Closed(CloseRoom(l, c, epoch, now), l.attentions[c].scope)
  {
    var m, scope := CloseRoom(l, c, epoch, now), l.attentions[c].scope;
    forall r | r in m.relays && r.op.turn in m.turns && m.turns[r.op.turn].scope == scope ensures !Unsent(r) {
      var i :| 0 <= i < |m.relays| && m.relays[i] == r;
      assert l.relays[i].op == r.op;
    }
  }

  lemma OpenTurnDies(w: World, c: AttId, epoch: nat, now: int, x: TurnId)
    requires Good(w) && c in w.db.attentions
    requires x in w.db.turns && Open(w.db.turns[x]) && w.db.turns[x].scope == w.db.attentions[c].scope
    ensures Dead(CloseRoom(w.db, c, epoch, now), x) && x.thread in w.used
  {
    var l, scope := w.db, w.db.attentions[c].scope;
    var m := CloseRoom(l, c, epoch, now);
    assert MembersOk(l.attentions, l.turns, l.slots) && OpenOk(l.attentions, l.turns, l.slots);
    forall a | a in Members(m.slots, x) ensures a in m.attentions && m.attentions[a].terminal.Some? {
      assert a in Members(l.slots, x);
    }
    assert TurnsOk(l.turns, l.threads, w.used);
  }

  // ---- Dead turns stay dead ----

  lemma NotAMember(l: Ledger, a: AttId, x: TurnId)
    requires Inv(l) && a in l.attentions && l.attentions[a].turn != Some(x)
    ensures a !in Members(l.slots, x)
  {
    assert MembersOk(l.attentions, l.turns, l.slots);
  }

  /** Binding `a` elsewhere leaves the rows, slots and turn of `x` as they were. */
  lemma BoundElsewhere(l: Ledger, a: AttId, t: ThreadId, y: TurnId, epoch: nat, reconciled: bool, now: int, x: TurnId)
    requires Dead(l, x) && a in l.attentions && a in l.intents && a !in Members(l.slots, x) && y != x
    ensures var m := Finalize(l, a, t, y, epoch, reconciled, now); Dead(m, x) && m.relays == l.relays
  {
    FinalizeFrame(l, a, t, y, epoch, reconciled, now);
    hide Finalize, Join;
  }

  lemma BindKeepsDead(w: World, a: AttId, t: ThreadId, y: TurnId, reconciled: bool, at: At, x: TurnId)
    requires Good(w) && Dead(w.db, x) && Prepared?(w.db.intents, a) && w.db.intents[a].thread == t && y.thread == t
    ensures Dead(Bind(w, a, t, y, reconciled, at).db, x) && Bind(w, a, t, y, reconciled, at).used == w.used
    ensures NothingNewOn(w.db.relays, Bind(w, a, t, y, reconciled, at).db.relays, x)
  {
    PreparedFacts(w, a, y);
    NotAMember(w.db, a, x);
    assert y != x;
    BoundElsewhere(w.db, a, t, y, at.epoch, reconciled, at.now, x);
    hide Finalize, Dead, Inv, Good;
  }

  lemma GiveUpKeepsDead(w: World, a: AttId, at: At, x: TurnId)
    requires Dead(w.db, x)
    ensures Dead(GiveUp(w, a, at).db, x) && NothingNewOn(w.db.relays, GiveUp(w, a, at).db.relays, x)
  {
  }

  lemma GiveBackKeepsDead(l: Ledger, xs: set<TurnId>, clearFirst: bool, now: int, x: TurnId)
    requires Inv(l) && Dead(l, x) && x !in xs
    ensures Dead(GiveBack(l, xs, clearFirst, now), x)
    ensures NothingNewOn(l.relays, GiveBack(l, xs, clearFirst, now).relays, x)
  {
    forall a | a in Members(l.slots, x) ensures a !in GivenBack(l, xs) {
      assert MembersOk(l.attentions, l.turns, l.slots);
    }
    assert SlotsOf(EmptySlots(l.slots, xs), x) == SlotsOf(l.slots, x);
  }

  lemma RecoveryKeepsDead(w: World, at: At, x: TurnId)
    requires Good(w) && RecoveryEvent(at.event) && RecoveryEnabled(w, at.event) && Dead(w.db, x)
    ensures var v := ApplyRecovery(w, at); Dead(v.db, x) && v.used == w.used && NothingNewOn(w.db.relays, v.db.relays, x)
  {
    match at.event {
      case Crashed =>
      case Started =>
      case IntentLost(a) => GiveUpKeepsDead(w, a, at, x);
      case ThreadGone(t) => GiveBackKeepsDead(w.db, LostTurns(w.db, t), false, at.now, x);
      case ThreadResumed(_) => ResumedKeepsDead(w, at, x);
      case DispatchReconciled(a, turns) =>
        FoundInHistory(turns, a);
        var t := w.db.intents[a].thread;
        if TurnForClientMessage(turns, a).Some? {
          BindKeepsDead(w, a, t, TurnForClientMessage(turns, a).value, true, at, x);
        } else {
          GiveUpKeepsDead(w, a, at, x);
        }
      case ThreadDone(_) =>
      case Reaped => SuppressOps(w.db.relays, Stale(w.db, at.epoch));
    }
  }

  lemma ResumedKeepsDead(w: World, at: At, x: TurnId)
    requires at.event.ThreadResumed? && RecoveryEnabled(w, at.event) && Dead(w.db, x)
    ensures var v := ApplyRecovery(w, at); Dead(v.db, x) && v.used == w.used && v.db.relays == w.db.relays
  {
    assert w.db.threads[at.event.scope := w.db.threads[at.event.scope]] == w.db.threads;
  }

  lemma DispatchKeepsDead(w: World, at: At, x: TurnId)
    requires Good(w) && DispatchEvent(at.event) && DispatchEnabled(w, at.event, at.now) && Dead(w.db, x) && x.thread in w.used
    ensures var v := ApplyDispatch(w, at); Dead(v.db, x) && w.used <= v.used && NothingNewOn(w.db.relays, v.db.relays, x)
  {
    match at.event {
      case Ingested(_, _) =>
      case ThreadCreated(_, _) =>
      case Began(_, _) =>
      case InputAccepted(_) =>
      case InputMisreported(_) =>
      case InputRefused =>
      case RefusalRecorded => GiveUpKeepsDead(w, w.phase.a, at, x);
      case RefusalDeferred(_) =>
      case Finalized => BindKeepsDead(w, w.phase.a, w.phase.t, w.phase.x, false, at, x);
      case TurnGivenUp(y) =>
        if y in LostTurns(w.db, y.thread) {
          GiveBackKeepsDead(w.db, {y}, true, at.now, x);
        }
    }
  }

  lemma ItemKeepsDead(l: Ledger, y: TurnId, item: AgentItem, live: bool, epoch: nat, now: int, x: TurnId)
    requires Dead(l, x)
    ensures var m := RecordItem(l, y, item, live, epoch, now); Dead(m, x) && NothingNewOn(l.relays, m.relays, x)
  {
    assert y == x ==> AcceptedForTurn(l, x) == {};
    CreateAppends(l, OpId(AcceptedForTurn(l, y), y, item.id, OutputKind(l, y, item)), item.text, live, epoch, now);
    hide OutputKind;
  }

  lemma FallbackKeepsDead(l: Ledger, y: TurnId, held: Relay, live: bool, epoch: nat, now: int, x: TurnId)
    requires Dead(l, x)
    ensures var m := RecordFallback(l, y, held, live, epoch, now); Dead(m, x) && NothingNewOn(l.relays, m.relays, x)
  {
    assert y == x ==> AcceptedForTurn(l, x) * held.op.covered == {};
    CreateAppends(l, OpId(AcceptedForTurn(l, y) * held.op.covered, y, Fallback(held.op.item), Final), held.text, live, epoch, now);
  }

  lemma OutputKeepsDead(w: World, at: At, x: TurnId)
    requires OutputEvent(at.event) && OutputEnabled(w, at.event) && Dead(w.db, x)
    ensures var v := ApplyOutput(w, at); Dead(v.db, x) && v.used == w.used && NothingNewOn(w.db.relays, v.db.relays, x)
  {
    hide RecordItem, RecordFallback, LatestCandidate, Promotes;
    match at.event {
      case Adopted(_) =>
      case ItemRecorded(y, item, live) => ItemKeepsDead(w.db, y, item, live, at.epoch, at.now, x);
      case NoReplyMarked(_) =>
      case FallbackRecorded(y, held, live) => FallbackKeepsDead(w.db, y, held, live, at.epoch, at.now, x);
      case Completed(y, _) => SuppressOps(w.db.relays, {y});
      case RelaySent(_) => assert Ops(ApplyOutput(w, at).db.relays) == Ops(w.db.relays);
      case RelayUnsent(_, _) => assert Ops(ApplyOutput(w, at).db.relays) == Ops(w.db.relays);
    }
  }

  lemma StopKeepsDead(w: World, y: TurnId, now: int, x: TurnId)
    requires Inv(w.db) && Dead(w.db, x) && y in w.db.turns
    ensures var m := InterruptTurn(w.db, y, now); Dead(m, x) && NothingNewOn(w.db.relays, m.relays, x)
  {
    var l, back, m := w.db, StopRequeued(w.db, y), InterruptTurn(w.db, y, now);
    StopDetaches(l.attentions, l.turns, l.slots, y, back);
    SuppressOps(l.relays, {y});
    forall a | a in Members(m.slots, x) ensures a in m.attentions && m.attentions[a].terminal.Some? {
      assert a in Members(l.slots, x) && a !in back;
    }
  }

  lemma ShutKeepsDead(l: Ledger, c: AttId, epoch: nat, now: int, x: TurnId)
    requires Dead(l, x) && c in l.attentions
    ensures var m := CloseRoom(l, c, epoch, now); Dead(m, x) && NothingNewOn(l.relays, m.relays, x)
  {
    CloseRoomFrame(l, c, epoch, now);
  }

  lemma ControlKeepsDead(w: World, at: At, x: TurnId)
    requires Good(w) && ControlEvent(at.event) && ControlEnabled(w, at.event) && Dead(w.db, x)
    ensures var v := ApplyControl(w, at); Dead(v.db, x) && v.used == w.used && NothingNewOn(w.db.relays, v.db.relays, x)
  {
    match at.event {
      case Stopped(y) =>
        if y in w.db.turns {
          StopKeepsDead(w, y, at.now, x);
        }
      case StopAcknowledged(_) =>
      case StopDeferred(_, _) =>
      case RoomShut(c) => ShutKeepsDead(w.db, c, at.epoch, at.now, x);
      case LegacyRetired(_) =>
    }
  }

  lemma StepKeepsDead(w: World, at: At, x: TurnId)
    requires Good(w) && Enabled(w, at.event, at.now) && Dead(w.db, x) && x.thread in w.used
    ensures var v := Apply(w, at); Dead(v.db, x) && x.thread in v.used && NothingNewOn(w.db.relays, v.db.relays, x)
  {
    hide RecoveryEvent, DispatchEvent, OutputEvent, RecoveryEnabled, DispatchEnabled, OutputEnabled, ControlEnabled,
      ApplyRecovery, ApplyDispatch, ApplyOutput, ApplyControl, Good, Dead, NothingNewOn;
    if RecoveryEvent(at.event) {
      RecoveryKeepsDead(w, at, x);
    } else if DispatchEvent(at.event) {
      DispatchKeepsDead(w, at, x);
    } else if OutputEvent(at.event) {
      OutputKeepsDead(w, at, x);
    } else {
      ControlKeepsDead(w, at, x);
    }
  }

  lemma {:induction false} DeadForever(run: seq<At>, n: nat, x: TurnId)
    requires Legal(run) && n <= |run| && Legal(run[..n])
    requires Dead(After(run[..n]).db, x) && x.thread in After(run[..n]).used
    ensures Dead(After(run).db, x) && x.thread in After(run).used
    ensures NothingNewOn(After(run[..n]).db.relays, After(run).db.relays, x)
    decreases |run|
  {
    if n == |run| {
      assert run[..n] == run;
    } else {
      var m := |run| - 1;
      assert run[..m][..n] == run[..n];
      DeadForever(run[..m], n, x);
      ReachableIsGood(run[..m]);
      StepKeepsDead(After(run[..m]), run[m], x);
      NothingNewChains(After(run[..n]).db.relays, After(run[..m]).db.relays, After(run).db.relays, x);
    }
  }

  lemma NothingNewChains(first: seq<Relay>, second: seq<Relay>, third: seq<Relay>, x: TurnId)
    requires NothingNewOn(first, second, x) && NothingNewOn(second, third, x)
    ensures NothingNewOn(first, third, x)
  {
    forall i | |first| <= i < |third| ensures third[i].op.turn != x {
      if i < |second| {
        assert Ops(third)[i] == Ops(second)[i];
      }
    }
  }

  lemma {:induction false} LegalPrefix(run: seq<At>, n: nat)
    requires Legal(run) && n <= |run|
    ensures Legal(run[..n])
  {
    hide Enabled, Apply;
    if n == |run| {
      assert run[..n] == run;
    } else {
      LegalPrefix(run[..|run| - 1], n);
      assert run[..|run| - 1][..n] == run[..n];
    }
  }

  /** Step `n` of a run, as a step between the worlds around it. */
  lemma StepOfRun(run: seq<At>, n: nat)
    requires Legal(run) && n < |run|
    ensures Legal(run[..n]) && Legal(run[..n + 1])
    ensures Enabled(After(run[..n]), run[n].event, run[n].now)
    ensures After(run[..n + 1]) == Apply(After(run[..n]), run[n])
  {
    hide Enabled, Apply;
    LegalPrefix(run, n + 1);
    var longer := run[..n + 1];
    assert longer[..|longer| - 1] == run[..n] && longer[|longer| - 1] == run[n];
  }

  /**
    The room closed between worlds `w` and `v` has nothing open, sendable or unfinished; and a turn
    that was open then covers no attention and has no further relay row in the later world `u`.
   */
  ghost predicate Silenced(w: World, v: World, u: World, c: AttId, x: TurnId) {
    && c in w.db.attentions
    && Closed(v.db, w.db.attentions[c].scope)
    && (x in w.db.turns && Open(w.db.turns[x]) && w.db.turns[x].scope == w.db.attentions[c].scope ==>
          AcceptedForTurn(u.db, x) == {} && NothingNewOn(v.db.relays, u.db.relays, x))
  }

  /** A room-closed control at step `n` silences the room in every continuation of the run. */
  lemma RoomStaysSilent(run: seq<At>, n: nat, x: TurnId)
    requires Legal(run) && n < |run| && run[n].event.RoomShut?
    ensures Legal(run[..n]) && Legal(run[..n + 1])
    ensures Silenced(After(run[..n]), After(run[..n + 1]), After(run), run[n].event.c, x)
  {
    hide Good, Closed, Dead, NothingNewOn, Apply, Enabled, Legal, After, AcceptedForTurn, Open;
    StepOfRun(run, n);
    ReachableIsGood(run[..n]);
    var w := After(run[..n]);
    var v := Apply(w, run[n]);
    ShutStep(w, run[n], x);
    if x in w.db.turns && Dead(v.db, x) && x.thread in v.used {
      DeadForever(run, n + 1, x);
      DeadCoversNothing(After(run).db, x);
    }
  }

  lemma ShutStep(w: World, at: At, x: TurnId)
    requires Good(w) && at.event.RoomShut? && Enabled(w, at.event, at.now)
    ensures at.event.c in w.db.attentions && Closed(Apply(w, at).db, w.db.attentions[at.event.c].scope)
    ensures x in w.db.turns && Open(w.db.turns[x]) && w.db.turns[x].scope == w.db.attentions[at.event.c].scope ==>
              Dead(Apply(w, at).db, x) && x.thread in Apply(w, at).used
  {
    GoodIsInv(w);
    hide Good, ApplyRecovery, ApplyDispatch, ApplyOutput, Closed, Dead, Inv, CloseRoom;
    ControlClosesRoom(w.db, at.event.c, at.epoch, at.now);
    if x in w.db.turns && Open(w.db.turns[x]) && w.db.turns[x].scope == w.db.attentions[at.event.c].scope {
      OpenTurnDies(w, at.event.c, at.epoch, at.now, x);
    }
  }

  lemma GoodIsInv(w: World)
    requires Good(w)
    ensures Inv(w.db)
  {
    hide Inv;
  }

  lemma DeadCoversNothing(l: Ledger, x: TurnId)
    requires Dead(l, x)
    ensures AcceptedForTurn(l, x) == {}
  {
  }
}
