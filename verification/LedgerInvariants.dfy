/**
  What every ledger transaction keeps, given what the adapter guarantees about its arguments.
  The run theorems of AdapterRuns rest on these lemmas, one per transaction.
 */
module LedgerInvariants {
  import opened Common
  import opened Ledgers

  type Rows = map<AttId, Attention>
  type Turns = map<TurnId, TurnRow>
  type Slots = map<TurnId, map<nat, AttId>>

  /** Membership, the attention row and the turn row agree. */
  ghost predicate MembersOk(rows: Rows, turns: Turns, slots: Slots) {
    forall x, a {:trigger a in Members(slots, x)} :: a in Members(slots, x) ==>
      && a in rows && x in turns
      && rows[a].turn == Some(x) && rows[a].accepted.Some? && rows[a].scope == turns[x].scope
  }

  ghost predicate RowOk(relays: seq<Relay>, att: Attention) {
    && (att.accepted.None? ==> att.turn.None? && (att.turnCompleted.None? || att.terminal.Some?))
    && (att.finalResponse.Some? ==> att.accepted.Some? && att.turn.Some? && HasRelay(relays, att.turn.value))
  }

  ghost predicate RowsOk(rows: Rows, relays: seq<Relay>) {
    forall a :: a in rows ==> RowOk(relays, rows[a])
  }

  /** Only dispatchable attentions have intents, and a prepared one is not yet accepted. */
  ghost predicate IntentOk(rows: Rows, a: AttId, intent: Intent) {
    && a in rows && intent.scope == rows[a].scope && (intent.status.Prepared? ==> rows[a].accepted.None?)
    && !rows[a].event.StopControl? && !rows[a].event.RoomClosedControl?
  }

  ghost predicate IntentsOk(rows: Rows, intents: map<AttId, Intent>) {
    forall a :: a in intents ==> IntentOk(rows, a, intents[a])
  }

  predicate Unsent(r: Relay) {
    r.status.Pending? || r.status.Held?
  }

  /** Coverage names known attentions; while the relay may still be sent they are on its turn. */
  ghost predicate CoverageOk(rows: Rows, relays: seq<Relay>) {
    forall r, a :: r in relays && a in r.op.covered ==>
      a in rows && (Unsent(r) ==> rows[a].turn == Some(r.op.turn))
  }

  ghost predicate CoveredBySentFinal(relays: seq<Relay>, a: AttId) {
    exists r :: r in relays && r.status.Sent? && r.op.kind.Final? && a in r.op.covered
  }

  /** `final_response_at_ms` is set exactly when an accepted final covers the attention. */
  ghost predicate FinalsOk(rows: Rows, relays: seq<Relay>) {
    forall a :: a in rows ==> (rows[a].finalResponse.Some? <==> CoveredBySentFinal(relays, a))
  }

  /** A member of an open turn has not been completed, unless it is terminal. */
  ghost predicate OpenOk(rows: Rows, turns: Turns, slots: Slots) {
    forall x, a {:trigger a in Members(slots, x)} :: a in Members(slots, x) && x in turns && Open(turns[x]) && a in rows ==>
      rows[a].turnCompleted.None? || rows[a].terminal.Some?
  }

  ghost predicate Inv(l: Ledger) {
    && MembersOk(l.attentions, l.turns, l.slots)
    && RowsOk(l.attentions, l.relays)
    && IntentsOk(l.attentions, l.intents)
    && CoverageOk(l.attentions, l.relays)
    && FinalsOk(l.attentions, l.relays)
    && OpenOk(l.attentions, l.turns, l.slots)
  }

  predicate Fresh(row: Attention) {
    row.accepted.None? && row.turn.None? && row.finalResponse.None? && row.turnCompleted.None?
  }

  // ---- Transactions that only move milestones forward ----

  /** Same relays as far as ops, acceptance and the possibility of being sent are concerned. */
  ghost predicate SameOps(before: seq<Relay>, after: seq<Relay>) {
    |after| == |before| &&
    forall i :: 0 <= i < |before| ==>
      && after[i].op == before[i].op
      && (after[i].status.Sent? <==> before[i].status.Sent?)
      && (Unsent(after[i]) ==> Unsent(before[i]))
  }

  lemma SameOpsFacts(before: seq<Relay>, after: seq<Relay>)
    requires SameOps(before, after)
    ensures forall x :: HasRelay(before, x) ==> HasRelay(after, x)
    ensures forall a :: CoveredBySentFinal(after, a) <==> CoveredBySentFinal(before, a)
  {
    forall a ensures CoveredBySentFinal(after, a) <==> CoveredBySentFinal(before, a) {
      if CoveredBySentFinal(after, a) {
        var i :| 0 <= i < |after| && after[i].status.Sent? && after[i].op.kind.Final? && a in after[i].op.covered;
        assert before[i] in before;
      }
      if CoveredBySentFinal(before, a) {
        var i :| 0 <= i < |before| && before[i].status.Sent? && before[i].op.kind.Final? && a in before[i].op.covered;
        assert after[i] in after;
      }
    }
    forall x | HasRelay(before, x) ensures HasRelay(after, x) {
      var i :| 0 <= i < |before| && before[i].op.turn == x;
      assert after[i] in after;
    }
  }

  lemma SameOpsCoverage(rows: Rows, before: seq<Relay>, after: seq<Relay>)
    requires CoverageOk(rows, before) && |after| == |before|
    requires forall i :: 0 <= i < |before| ==> after[i].op == before[i].op && (Unsent(after[i]) ==> Unsent(before[i]))
    ensures CoverageOk(rows, after)
  {
    forall r, a | r in after && a in r.op.covered ensures a in rows && (Unsent(r) ==> rows[a].turn == Some(r.op.turn)) {
      var i :| 0 <= i < |after| && after[i] == r;
      assert before[i] in before;
    }
  }

  /** What membership, intents and open turns depend on. */
  ghost predicate SameBinding(p: Attention, q: Attention) {
    && q.turn == p.turn && q.scope == p.scope && q.event == p.event
    && q.accepted == p.accepted && q.turnCompleted == p.turnCompleted && q.terminal == p.terminal
  }

  lemma SameBindingKeeps(l: Ledger, rows: Rows)
    requires Inv(l) && rows.Keys == l.attentions.Keys
    requires forall a :: a in rows ==> SameBinding(l.attentions[a], rows[a])
    ensures MembersOk(rows, l.turns, l.slots) && OpenOk(rows, l.turns, l.slots) && IntentsOk(rows, l.intents)
  {
    forall x, a | a in Members(l.slots, x)
      ensures a in rows && rows[a].turn == Some(x) && rows[a].accepted.Some? && rows[a].scope == l.turns[x].scope
    {
      assert SameBinding(l.attentions[a], rows[a]);
    }
    forall a | a in l.intents ensures IntentOk(rows, a, l.intents[a]) {
      assert IntentOk(l.attentions, a, l.intents[a]) && SameBinding(l.attentions[a], rows[a]);
    }
  }

  lemma SuppressSameOps(relays: seq<Relay>, xs: set<TurnId>)
    ensures SameOps(relays, SuppressFor(relays, xs))
  {
  }

  /** The row keeps its turn, its final answer and its identity; milestones only move forward. */
  ghost predicate RowAdvances(l: Ledger, a: AttId, q: Attention)
    requires a in l.attentions
  {
    var p := l.attentions[a];
    && q.turn == p.turn && q.finalResponse == p.finalResponse && q.scope == p.scope && q.event == p.event
    && (p.accepted.Some? ==> q.accepted.Some?)
    && (p.accepted.None? && q.accepted.Some? ==> a !in l.intents || !l.intents[a].status.Prepared?)
    && (p.terminal.Some? ==> q.terminal.Some?)
    && (q.turnCompleted == p.turnCompleted || q.terminal.Some?
        || (q.turn.Some? && q.turn.value in l.turns && !Open(l.turns[q.turn.value])))
  }

  ghost predicate RowsAdvance(l: Ledger, rows: map<AttId, Attention>) {
    rows.Keys == l.attentions.Keys && forall a :: a in l.attentions ==> RowAdvances(l, a, rows[a])
  }

  lemma RowsKeep(l: Ledger, rows: map<AttId, Attention>)
    requires Inv(l) && RowsAdvance(l, rows)
    ensures Inv(l.(attentions := rows))
  {
    var m := l.(attentions := rows);
    forall a | a in l.attentions ensures RowOk(m.relays, rows[a]) {
      assert RowOk(l.relays, l.attentions[a]) && RowAdvances(l, a, rows[a]);
    }
  }

  lemma TurnsKeep(l: Ledger, turns: map<TurnId, TurnRow>)
    requires Inv(l) && turns.Keys == l.turns.Keys
    requires forall x :: x in l.turns ==> turns[x].scope == l.turns[x].scope && (Open(turns[x]) ==> Open(l.turns[x]))
    ensures Inv(l.(turns := turns))
  {
  }

  lemma IntentsKeep(l: Ledger, intents: map<AttId, Intent>)
    requires Inv(l) && IntentsOk(l.attentions, intents)
    ensures Inv(l.(intents := intents))
  {
  }

  lemma RelaysKeep(l: Ledger, relays: seq<Relay>)
    requires Inv(l) && SameOps(l.relays, relays)
    ensures Inv(l.(relays := relays))
  {
    var m := l.(relays := relays);
    SameOpsFacts(l.relays, relays);
    SameOpsCoverage(l.attentions, l.relays, relays);
    forall a | a in l.attentions ensures RowOk(relays, l.attentions[a]) {
      assert RowOk(l.relays, l.attentions[a]);
    }
  }

  lemma ThreadsKeep(l: Ledger, threads: map<Scope, ThreadId>)
    requires Inv(l)
    ensures Inv(l.(threads := threads))
  {
  }

  lemma RetryKeeps(l: Ledger, a: AttId, epoch: nat, now: int)
    requires Inv(l)
    ensures Inv(RetryUnobserved(l, a, epoch, now))
  {
    if a in l.intents {
      var m := l.(intents := l.intents[a := l.intents[a].(status := IntentFailed, epoch := epoch)]);
      IntentsKeep(l, m.intents);
      hide Inv;
      if a in l.attentions && l.attentions[a].accepted.None? && l.attentions[a].terminal.None? {
        RowsKeep(m, m.attentions[a := m.attentions[a].(nextAttempt := now)]);
      }
    }
  }

  lemma DeferKeeps(l: Ledger, a: AttId, delay: int, now: int)
    requires Inv(l)
    ensures Inv(Defer(l, a, delay, now))
  {
    hide Inv;
    if a in l.attentions {
      RowsKeep(l, Defer(l, a, delay, now).attentions);
    }
  }

  lemma CancelPendingKeeps(l: Ledger, c: AttId, epoch: nat, now: int)
    requires Inv(l) && c in l.attentions && l.attentions[c].event.StopControl?
    ensures Inv(CancelPending(l, c, epoch, now))
  {
    assert c !in l.intents;
    hide Inv;
    RowsKeep(l, CancelPending(l, c, epoch, now).attentions);
  }

  lemma CloseRoomKeeps(l: Ledger, c: AttId, epoch: nat, now: int)
    requires Inv(l) && c in l.attentions && l.attentions[c].event.RoomClosedControl?
    ensures Inv(CloseRoom(l, c, epoch, now))
  {
    hide Inv;
    var m := CloseRoom(l, c, epoch, now);
    CloseRoomRowsKeep(l, c, epoch, now);
    var rows := l.(attentions := m.attentions);
    TurnsKeep(rows, m.turns);
    SuppressSameOps(l.relays, set x | x in l.turns && l.turns[x].scope == l.attentions[c].scope);
    RelaysKeep(rows.(turns := m.turns), m.relays);
    ThreadsKeep(rows.(turns := m.turns, relays := m.relays), m.threads);
  }

  lemma CloseRoomRowsKeep(l: Ledger, c: AttId, epoch: nat, now: int)
    requires Inv(l) && c in l.attentions && l.attentions[c].event.RoomClosedControl?
    ensures Inv(l.(attentions := CloseRoom(l, c, epoch, now).attentions))
  {
    assert c !in l.intents;
    hide Inv;
    RowsKeep(l, CloseRoom(l, c, epoch, now).attentions);
  }

  lemma RelayFailedKeeps(l: Ledger, op: OpId, delay: int, now: int)
    requires Inv(l)
    ensures Inv(RelayFailed(l, op, delay, now))
  {
    hide Inv;
    RelaysKeep(l, RelayFailed(l, op, delay, now).relays);
  }

  lemma NoReplyKeeps(l: Ledger, x: TurnId)
    requires Inv(l)
    ensures Inv(TurnNoReply(l, x))
  {
    hide Inv;
    if x in l.turns {
      RowsKeep(l, TurnNoReply(l, x).attentions);
    }
  }

  lemma TurnCompletedKeeps(l: Ledger, x: TurnId, terminal: Option<Terminal>, now: int)
    requires Inv(l)
    ensures Inv(TurnCompleted(l, x, terminal, now))
  {
    hide Inv;
    if x in l.turns {
      var closed := l.(turns := l.turns[x := Close(l.turns[x], now, terminal)]);
      TurnsKeep(l, closed.turns);
      RowsKeep(closed, CompleteRows(l.attentions, x, terminal, now));
      SuppressSameOps(l.relays, {x});
      RelaysKeep(closed.(attentions := CompleteRows(l.attentions, x, terminal, now)), SuppressFor(l.relays, {x}));
    }
  }

  lemma AdoptKeeps(l: Ledger, x: TurnId, epoch: nat)
    requires Inv(l)
    ensures Inv(Adopt(l, x, epoch))
  {
    hide Inv;
    if x in l.turns {
      var m := Adopt(l, x, epoch);
      TurnsKeep(l, m.turns);
      RowsKeep(l.(turns := m.turns), m.attentions);
    }
  }

  lemma CloseAbandonedKeeps(l: Ledger, xs: set<TurnId>, now: int)
    requires Inv(l)
    ensures Inv(CloseAbandoned(l, xs, now))
  {
    hide Inv;
    var m := CloseAbandoned(l, xs, now);
    TurnsKeep(l, m.turns);
    RowsKeep(l.(turns := m.turns), m.attentions);
    SuppressSameOps(l.relays, xs);
    RelaysKeep(l.(turns := m.turns, attentions := m.attentions), m.relays);
  }

  lemma RetireKeeps(l: Ledger, a: AttId)
    requires Inv(l)
    ensures Inv(RetireLegacy(l, a))
  {
    hide Inv;
    if RetireLegacy(l, a) != l {
      RowsKeep(l, RetireLegacy(l, a).attentions);
    }
  }

  // ---- Transactions that bind, detach or answer ----

  lemma IngestKeeps(l: Ledger, a: AttId, row: Attention)
    requires Inv(l) && Fresh(row)
    ensures Inv(Ingest(l, a, row))
  {
    if a !in l.attentions {
      assert !CoveredBySentFinal(l.relays, a);
    }
  }

  lemma PrepareKeeps(l: Ledger, a: AttId, t: ThreadId, operation: Operation, epoch: nat, now: int)
    requires Inv(l) && a in l.attentions && l.attentions[a].accepted.None?
    requires !l.attentions[a].event.StopControl? && !l.attentions[a].event.RoomClosedControl?
    ensures Inv(Prepare(l, a, t, operation, epoch, now))
  {
    IntentsKeep(l, Prepare(l, a, t, operation, epoch, now).intents);
  }

  lemma JoinValues(m: map<nat, AttId>, a: AttId)
    ensures m.Values <= Join(m, a).Values <= m.Values + {a}
  {
    forall b | b in m.Values ensures b in Join(m, a).Values {
      var p :| p in m && m[p] == b;
      assert Join(m, a)[p] == b;
    }
  }

  lemma DetachValues(m: map<nat, AttId>, back: set<AttId>)
    ensures Detach(m, back).Values == m.Values - back
  {
    forall a | a in m.Values && a !in back ensures a in Detach(m, back).Values {
      var p :| p in m && m[p] == a;
      assert Detach(m, back)[p] == a;
    }
  }

  lemma FinalizeKeeps(l: Ledger, a: AttId, t: ThreadId, x: TurnId, epoch: nat, reconciled: bool, now: int)
    requires Inv(l) && a in l.attentions && a in l.intents && l.attentions[a].accepted.None?
    requires x in l.turns ==> l.turns[x].scope == l.attentions[a].scope
    ensures Inv(Finalize(l, a, t, x, epoch, reconciled, now))
  {
    var m := Finalize(l, a, t, x, epoch, reconciled, now);
    // Resolve the intent first, so that the acceptance below contradicts no prepared intent.
    var resolved := l.(intents := m.intents);
    assert IntentOk(l.attentions, a, l.intents[a]);
    IntentsKeep(l, m.intents);
    hide Inv;
    BoundKeeps(resolved, a, t, x, epoch, now);
    assert MarkAccepted(resolved, a, t, x, epoch, now) == m by {
      assert MarkAccepted(resolved, a, t, x, epoch, now) == MarkAccepted(l, a, t, x, epoch, now).(intents := m.intents);
    }
  }

  /** Binding an unaccepted attention with no prepared intent to a turn of its scope. */
  lemma BoundKeeps(l: Ledger, a: AttId, t: ThreadId, x: TurnId, epoch: nat, now: int)
    requires Inv(l) && a in l.attentions && l.attentions[a].accepted.None?
    requires a in l.intents ==> !l.intents[a].status.Prepared?
    requires x in l.turns ==> l.turns[x].scope == l.attentions[a].scope
    ensures Inv(MarkAccepted(l, a, t, x, epoch, now))
  {
    var m := MarkAccepted(l, a, t, x, epoch, now);
    BoundRows(l, m, a);
    JoinedMembers(l.slots, x, a);
    assert RowOk(l.relays, l.attentions[a]);
    BoundMembers(l.attentions, l.turns, l.slots, a, x, m.attentions[a], m.turns[x], m.slots);
    assert m.turns == l.turns[x := m.turns[x]];
  }

  lemma JoinedMembers(slots: Slots, x: TurnId, a: AttId)
    ensures forall y, b :: b in Members(slots[x := Join(SlotsOf(slots, x), a)], y) ==>
              b in Members(slots, y) || (b == a && y == x)
    ensures forall y :: Members(slots, y) <= Members(slots[x := Join(SlotsOf(slots, x), a)], y)
  {
    JoinValues(SlotsOf(slots, x), a);
  }

  /** Only `a` joins, and only turn `x`. */
  lemma BoundMembers(rows: Rows, turns: Turns, slots: Slots, a: AttId, x: TurnId, row: Attention, turn: TurnRow, joined: Slots)
    requires MembersOk(rows, turns, slots) && OpenOk(rows, turns, slots)
    requires a in rows && rows[a].accepted.None? && row.turn == Some(x) && row.accepted.Some?
    requires row.scope == turn.scope && (row.turnCompleted.None? || row.terminal.Some?)
    requires x in turns ==> turn == turns[x]
    requires forall y, b :: b in Members(joined, y) ==> b in Members(slots, y) || (b == a && y == x)
    ensures MembersOk(rows[a := row], turns[x := turn], joined) && OpenOk(rows[a := row], turns[x := turn], joined)
  {
    forall y, b | b in Members(joined, y) && b != a ensures b in Members(slots, y) {}
  }

  lemma BoundRows(l: Ledger, m: Ledger, a: AttId)
    requires RowsOk(l.attentions, l.relays) && IntentsOk(l.attentions, l.intents) && CoverageOk(l.attentions, l.relays) && FinalsOk(l.attentions, l.relays) && a in l.attentions
    requires m.relays == l.relays && m.intents == l.intents && a in m.attentions
    requires m.attentions == l.attentions[a := m.attentions[a]]
    requires a in l.intents ==> !l.intents[a].status.Prepared?
    requires m.attentions[a].finalResponse == l.attentions[a].finalResponse && m.attentions[a].event == l.attentions[a].event
    requires m.attentions[a].scope == l.attentions[a].scope
    requires l.attentions[a].accepted.None? && m.attentions[a].accepted.Some?
    ensures RowsOk(m.attentions, m.relays) && IntentsOk(m.attentions, m.intents) && CoverageOk(m.attentions, m.relays) && FinalsOk(m.attentions, m.relays)
  {
    assert RowOk(l.relays, l.attentions[a]);
    forall b | b in m.attentions ensures RowOk(m.relays, m.attentions[b]) {
      assert RowOk(l.relays, l.attentions[b]);
    }
  }

  lemma GiveBackKeeps(l: Ledger, xs: set<TurnId>, clearFirst: bool, now: int)
    requires Inv(l) && forall x :: x in xs ==> !HasRelay(l.relays, x)
    ensures Inv(GiveBack(l, xs, clearFirst, now))
  {
    var m := GiveBack(l, xs, clearFirst, now);
    TurnsKeep(l, m.turns);
    var closed := l.(turns := m.turns);
    forall a | a in GivenBack(l, xs) ensures Detachable(closed, a) {
      var x :| x in xs && a in Members(l.slots, x);
      assert l.attentions[a].turn == Some(x);
    }
    forall x ensures Members(m.slots, x) <= Members(l.slots, x) - GivenBack(l, xs) {
      forall a | a in Members(m.slots, x) ensures a in Members(l.slots, x) && a !in GivenBack(l, xs) {
        assert x !in xs && a in Members(l.slots, x);
      }
    }
    DetachKeeps(closed, m.slots, GivenBack(l, xs), clearFirst, now);
  }

  /** On a turn, and covered by nothing that could still be sent. */
  ghost predicate Detachable(l: Ledger, a: AttId) {
    && a in l.attentions && l.attentions[a].finalResponse.None?
    && forall r :: r in l.relays && a in r.op.covered ==> !Unsent(r)
  }

  /** Detaching and requeueing a set of unanswered attentions. */
  lemma DetachKeeps(l: Ledger, slots: map<TurnId, map<nat, AttId>>, back: set<AttId>, clearFirst: bool, now: int)
    requires Inv(l) && forall a :: a in back ==> Detachable(l, a)
    requires forall x :: Members(slots, x) <= Members(l.slots, x) - back
    ensures Inv(l.(slots := slots, attentions := RequeueRows(l.attentions, back, clearFirst, now)))
  {
    var m := l.(slots := slots, attentions := RequeueRows(l.attentions, back, clearFirst, now));
    forall a | a in m.attentions ensures RowOk(m.relays, m.attentions[a]) {
      assert RowOk(l.relays, l.attentions[a]);
    }
    forall r, a | r in m.relays && a in r.op.covered
      ensures a in m.attentions && (Unsent(r) ==> m.attentions[a].turn == Some(r.op.turn))
    {
      assert a in back ==> Detachable(l, a);
    }
  }

  lemma StopDetaches(rows: Rows, turns: Turns, slots: Slots, x: TurnId, back: set<AttId>)
    requires MembersOk(rows, turns, slots) && back <= Members(slots, x)
    ensures forall y :: Members(slots[x := Detach(SlotsOf(slots, x), back)], y) <= Members(slots, y) - back
  {
    DetachValues(SlotsOf(slots, x), back);
    forall y ensures Members(slots[x := Detach(SlotsOf(slots, x), back)], y) <= Members(slots, y) - back {
      if y != x {
        forall a | a in Members(slots, y) ensures a !in back {
          assert rows[a].turn == Some(y);
        }
      }
    }
  }

  /** The first half of a stop: the turn is closed and nothing of it can be sent any more. */
  lemma SilencedKeeps(l: Ledger, x: TurnId, now: int)
    requires Inv(l) && x in l.turns
    ensures var quiet := l.(relays := SuppressFor(l.relays, {x}), turns := l.turns[x := Close(l.turns[x], now, Some(Interrupted))]);
            Inv(quiet) && forall a :: a in StopRequeued(l, x) ==> Detachable(quiet, a)
  {
    var relays := SuppressFor(l.relays, {x});
    SuppressSameOps(l.relays, {x});
    RelaysKeep(l, relays);
    TurnsKeep(l.(relays := relays), l.turns[x := Close(l.turns[x], now, Some(Interrupted))]);
    assert CoverageOk(l.attentions, relays);
    forall a, r | a in StopRequeued(l, x) && r in relays && a in r.op.covered ensures !Unsent(r) {
      assert l.attentions[a].turn == Some(x);
      if r.op.turn == x {
        SuppressedQuiet(l.relays, x, r);
      }
    }
  }

  lemma EndRowsKeep(l: Ledger, ended: set<AttId>, now: int)
    requires Inv(l)
    ensures Inv(l.(attentions := StopRows(l.attentions, ended, {}, now)))
  {
    hide Inv;
    RowsKeep(l, StopRows(l.attentions, ended, {}, now));
  }

  lemma InterruptKeeps(l: Ledger, x: TurnId, now: int)
    requires Inv(l)
    ensures Inv(InterruptTurn(l, x, now))
  {
    if x in l.turns {
      var m := InterruptTurn(l, x, now);
      var back := StopRequeued(l, x);
      var quiet := l.(relays := m.relays, turns := m.turns);
      SilencedKeeps(l, x, now);
      StopDetaches(l.attentions, l.turns, l.slots, x, back);
      hide Inv;
      DetachKeeps(quiet, m.slots, back, false, now);
      var detached := quiet.(slots := m.slots, attentions := RequeueRows(l.attentions, back, false, now));
      EndRowsKeep(detached, Members(l.slots, x) - back, now);
      StopRowsSplit(l.attentions, Members(l.slots, x), back, now);
      assert m == detached.(attentions := m.attentions);
    }
  }

  lemma SuppressedQuiet(relays: seq<Relay>, x: TurnId, r: Relay)
    requires r in SuppressFor(relays, {x}) && r.op.turn == x
    ensures !Unsent(r)
  {
  }

  lemma StopRowsSplit(rows: Rows, touched: set<AttId>, back: set<AttId>, now: int)
    requires back <= touched
    ensures StopRows(rows, touched, back, now) == StopRows(RequeueRows(rows, back, false, now), touched - back, {}, now)
  {
  }

  /** One more row that is not sent changes neither who is answered nor which turns have output. */
  lemma UnsentAppended(relays: seq<Relay>, r: Relay)
    requires !r.status.Sent?
    ensures forall a :: CoveredBySentFinal(relays + [r], a) <==> CoveredBySentFinal(relays, a)
    ensures forall x :: HasRelay(relays, x) ==> HasRelay(relays + [r], x)
  {
    assert forall q :: q in relays + [r] <==> q in relays || q == r;
  }

  lemma CreateRelayKeeps(l: Ledger, op: OpId, text: string, status: RelayStatus, epoch: nat, now: int)
    requires Inv(l) && op.covered <= Members(l.slots, op.turn) && !status.Sent?
    ensures Inv(CreateRelay(l, op, text, status, epoch, now))
  {
    if !RelayTaken(l.relays, op) {
      var r := Relay(op, text, status, 0, 0, now, None, epoch);
      var relays := l.relays + [r];
      UnsentAppended(l.relays, r);
      hide CoveredBySentFinal, HasRelay;
      assert forall a :: a in l.attentions ==> RowOk(l.relays, l.attentions[a]);
      assert CoverageOk(l.attentions, relays) by {
        assert forall q :: q in relays <==> q in l.relays || q == r;
      }
      hide CoverageOk, MembersOk, IntentsOk, OpenOk;
    }
  }

  /** After acceptance an attention is covered by a sent final when it was, or this op is a final covering it. */
  lemma AcceptedCoverage(l: Ledger, op: OpId, now: int, a: AttId)
    requires exists r :: r in l.relays && r.op == op
    ensures CoveredBySentFinal(RelayAccepted(l, op, now).relays, a)
            <==> CoveredBySentFinal(l.relays, a) || (op.kind.Final? && a in op.covered)
  {
    var after := RelayAccepted(l, op, now).relays;
    var k :| 0 <= k < |l.relays| && l.relays[k].op == op;
    assert after[k] in after && after[k].op == op && after[k].status.Sent?;
    if CoveredBySentFinal(l.relays, a) {
      var i :| 0 <= i < |l.relays| && l.relays[i].status.Sent? && l.relays[i].op.kind.Final? && a in l.relays[i].op.covered;
      assert after[i] in after && after[i].status.Sent? && after[i].op == l.relays[i].op;
    }
    if CoveredBySentFinal(after, a) {
      var i :| 0 <= i < |after| && after[i].status.Sent? && after[i].op.kind.Final? && a in after[i].op.covered;
      assert l.relays[i] in l.relays && l.relays[i].op == after[i].op;
    }
  }

  lemma RelayAcceptedKeeps(l: Ledger, op: OpId, now: int)
    requires Inv(l) && exists r :: r in l.relays && r.op == op && r.status.Pending?
    ensures Inv(RelayAccepted(l, op, now))
  {
    var m := RelayAccepted(l, op, now);
    assert forall i :: 0 <= i < |l.relays| ==>
        m.relays[i].op == l.relays[i].op && (Unsent(m.relays[i]) ==> Unsent(l.relays[i]));
    forall x | HasRelay(l.relays, x) ensures HasRelay(m.relays, x) {
      var i :| 0 <= i < |l.relays| && l.relays[i].op.turn == x;
      assert m.relays[i] in m.relays;
    }
    SameBindingKeeps(l, m.attentions);
    assert FinalsOk(m.attentions, m.relays) by {
      forall a | a in m.attentions ensures m.attentions[a].finalResponse.Some? <==> CoveredBySentFinal(m.relays, a) {
        AcceptedCoverage(l, op, now, a);
      }
    }
    AnsweredRowsKeep(l, op, now);
  }

  lemma AnsweredRowsKeep(l: Ledger, op: OpId, now: int)
    requires Inv(l) && exists r :: r in l.relays && r.op == op && r.status.Pending?
    ensures var m := RelayAccepted(l, op, now);
            RowsOk(m.attentions, m.relays) && CoverageOk(m.attentions, m.relays)
  {
    var m := RelayAccepted(l, op, now);
    forall r | r in m.relays ensures exists q :: q in l.relays && q.op == r.op && (Unsent(r) ==> Unsent(q)) {
      var i :| 0 <= i < |m.relays| && m.relays[i] == r;
      assert l.relays[i] in l.relays;
    }
    forall x | HasRelay(l.relays, x) ensures HasRelay(m.relays, x) {
      var i :| 0 <= i < |l.relays| && l.relays[i].op.turn == x;
      assert m.relays[i] in m.relays;
    }
    forall a | a in m.attentions ensures RowOk(m.relays, m.attentions[a]) {
      assert RowOk(l.relays, l.attentions[a]);
      if a in op.covered {
        assert l.attentions[a].turn == Some(op.turn) && HasRelay(l.relays, op.turn);
      }
    }
  }

  /** reply_required_pending counts exactly the reply-required, nonterminal, unanswered attentions. */
  lemma PendingCountIsExact(l: Ledger)
    requires Inv(l)
    ensures ReplyRequiredPending(l)
            == set a | a in l.attentions && l.attentions[a].replyRequired && l.attentions[a].terminal.None?
                       && !CoveredBySentFinal(l.relays, a)
  {
  }
}
