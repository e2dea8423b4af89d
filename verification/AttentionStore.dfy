/**
  attention_store.py: the store whose methods update the tables in place, one method per
  transaction. Each method is proved against the function of Ledgers that says what the whole new
  database is; a method whose fence fails, or whose row is unknown, changes nothing.
 */
module AttentionStores {
  import opened Common
  import opened Leases
  import opened Ledgers

  /** How a transaction ends: committed, StaleLease, LeaseBusy, or ValueError for an unknown row. */
  datatype Outcome = Committed | StaleLease | LeaseBusy | UnknownRow

  // ---- Row by row is all at once ----

  lemma RequeueRowsTwice(rows: map<AttId, Attention>, b: set<AttId>, c: set<AttId>, clearFirst: bool, now: int)
    ensures RequeueRows(RequeueRows(rows, b, clearFirst, now), c, clearFirst, now) == RequeueRows(rows, b + c, clearFirst, now)
  {
  }

  lemma RequeueRowsStep(rows: map<AttId, Attention>, b: set<AttId>, a: AttId, clearFirst: bool, now: int)
    requires a in rows
    ensures RequeueRows(rows, b, clearFirst, now)[a := Requeue(rows[a], now, clearFirst)]
            == RequeueRows(rows, b + {a}, clearFirst, now)
  {
  }

  lemma CloseTurnsStep(turns: map<TurnId, TurnRow>, xs: set<TurnId>, x: TurnId, now: int, terminal: Terminal)
    requires x in turns
    ensures CloseTurns(turns, xs, now, terminal)[x := Close(CloseTurns(turns, xs, now, terminal)[x], now, Some(terminal))]
            == CloseTurns(turns, xs + {x}, now, terminal)
    ensures CloseTurns(turns, {x}, now, terminal) == turns[x := Close(turns[x], now, Some(terminal))]
    ensures CloseTurns(turns, {}, now, terminal) == turns
  {
  }

  /** Closing one more abandoned turn in place is closing it together with the others. */
  lemma CloseAbandonedStep(l: Ledger, xs: set<TurnId>, x: TurnId, now: int)
    requires x in l.turns
    ensures var m := CloseAbandoned(l, xs, now);
            CloseAbandoned(l, xs + {x}, now)
            == m.(turns := m.turns[x := Close(m.turns[x], now, Some(Interrupted))],
                  attentions := AbandonRows(m.attentions, {x}, now), relays := SuppressFor(m.relays, {x}))
  {
    var m := CloseAbandoned(l, xs, now);
    CloseTurnsStep(l.turns, xs, x, now, Interrupted);
    assert AbandonRows(m.attentions, {x}, now) == AbandonRows(l.attentions, xs + {x}, now);
    assert SuppressFor(m.relays, {x}) == SuppressFor(l.relays, xs + {x});
  }

  lemma CloseAbandonedNone(l: Ledger, now: int)
    ensures CloseAbandoned(l, {}, now) == l
  {
    assert CloseTurns(l.turns, {}, now, Interrupted) == l.turns;
    assert AbandonRows(l.attentions, {}, now) == l.attentions;
    assert SuppressFor(l.relays, {}) == l.relays;
  }

  lemma StopRowsStep(rows: map<AttId, Attention>, done: set<AttId>, back: set<AttId>, a: AttId, now: int)
    requires a !in done && back <= done
    ensures a in rows ==> StopRows(rows, done, back, now)[a] == rows[a]
    ensures a in rows ==> StopRows(rows, done, back, now)[a := Requeue(rows[a], now, false)]
                          == StopRows(rows, done + {a}, back + {a}, now)
    ensures a in rows ==> StopRows(rows, done, back, now)[a := rows[a].(turnCompleted := Some(now), terminal := Some(Interrupted))]
                          == StopRows(rows, done + {a}, back, now)
    ensures a !in rows ==> StopRows(rows, done, back, now) == StopRows(rows, done + {a}, back, now)
  {
  }

  /** A stop that has treated only the members in `done`. */
  ghost function StopPart(l: Ledger, x: TurnId, done: set<AttId>, now: int): Ledger
    requires x in l.turns
  {
    var back := done * StopRequeued(l, x);
    l.(turns := l.turns[x := Close(l.turns[x], now, Some(Interrupted))],
       slots := l.slots[x := Detach(SlotsOf(l.slots, x), back)],
       attentions := StopRows(l.attentions, done, back, now))
  }

  /** One member as `StopMember` treats it. */
  ghost predicate StopsOne(before: Ledger, after: Ledger, x: TurnId, a: AttId, again: bool, now: int)
    requires x in before.slots
  {
    && (again <==> a in before.attentions && Protected(before.attentions[a].priority)
                   && before.attentions[a].finalResponse.None?)
    && after == before.(
         slots := if again then before.slots[x := Detach(before.slots[x], {a})] else before.slots,
         attentions := if again then before.attentions[a := Requeue(before.attentions[a], now, false)]
                       else if a in before.attentions
                       then before.attentions[a := before.attentions[a].(turnCompleted := Some(now), terminal := Some(Interrupted))]
                       else before.attentions)
  }

  lemma StopPartStep(l: Ledger, x: TurnId, done: set<AttId>, a: AttId, after: Ledger, again: bool, now: int)
    requires x in l.turns && a in Members(l.slots, x) && a !in done
    requires StopsOne(StopPart(l, x, done, now), after, x, a, again, now)
    ensures after == StopPart(l, x, done + {a}, now)
    ensures |(done + {a}) * StopRequeued(l, x)| == |done * StopRequeued(l, x)| + if again then 1 else 0
  {
    var m := SlotsOf(l.slots, x);
    var back := done * StopRequeued(l, x);
    StopRowsStep(l.attentions, done, back, a, now);
    assert again <==> a in StopRequeued(l, x);
    if again {
      assert (done + {a}) * StopRequeued(l, x) == back + {a};
      assert Detach(Detach(m, back), {a}) == Detach(m, back + {a});
    } else {
      assert (done + {a}) * StopRequeued(l, x) == back;
    }
  }

  lemma StopPartEnds(l: Ledger, x: TurnId, now: int)
    requires x in l.turns
    ensures StopPart(l, x, {}, now)
            == l.(turns := l.turns[x := Close(l.turns[x], now, Some(Interrupted))], slots := l.slots[x := SlotsOf(l.slots, x)])
    ensures StopPart(l, x, Members(l.slots, x), now).(relays := SuppressFor(l.relays, {x})) == InterruptTurn(l, x, now)
    ensures Members(l.slots, x) * StopRequeued(l, x) == StopRequeued(l, x)
  {
    assert Members(l.slots, x) * StopRequeued(l, x) == StopRequeued(l, x);
    assert {} * StopRequeued(l, x) == {};
    assert StopRows(l.attentions, {}, {}, now) == l.attentions;
    assert Detach(SlotsOf(l.slots, x), {}) == SlotsOf(l.slots, x);
  }

  /** Giving back turns one at a time is giving them back together. */
  lemma GiveBackOneMore(l: Ledger, xs: set<TurnId>, x: TurnId, clearFirst: bool, now: int)
    requires x !in xs && x in l.turns
    ensures GiveBack(GiveBack(l, xs, clearFirst, now), {x}, clearFirst, now) == GiveBack(l, xs + {x}, clearFirst, now)
  {
    var once := GiveBack(l, xs, clearFirst, now);
    assert Members(once.slots, x) == Members(l.slots, x);
    assert GivenBack(once, {x}) == GivenBack(l, {x}) by {
      forall a | a in l.attentions
        ensures once.attentions[a].finalResponse == l.attentions[a].finalResponse
      {
      }
    }
    assert GivenBack(l, xs + {x}) == GivenBack(l, xs) + GivenBack(l, {x});
    RequeueRowsTwice(l.attentions, GivenBack(l, xs), GivenBack(l, {x}), clearFirst, now);
    assert EmptySlots(EmptySlots(l.slots, xs), {x}) == EmptySlots(l.slots, xs + {x});
    assert CloseTurns(CloseTurns(l.turns, xs, now, Failed), {x}, now, Failed) == CloseTurns(l.turns, xs + {x}, now, Failed);
  }

  class AttentionStore {
    var attentions: map<AttId, Attention>
    var turns: map<TurnId, TurnRow>
    var slots: map<TurnId, map<nat, AttId>>
    var intents: map<AttId, Intent>
    var relays: seq<Relay>
    var threads: map<Scope, ThreadId>
    var lease: Option<Lease>

    function State(): Ledger
      reads this
    {
      Ledger(attentions, turns, slots, intents, relays, threads, lease)
    }

    constructor ()
      ensures State() == EMPTY_LEDGER
    {
      attentions, turns, slots, intents := map[], map[], map[], map[];
      relays, threads, lease := [], map[], None;
    }

    method ClaimLease(owner: Owner, ttl: int, now: int, holderAlive: bool) returns (outcome: Outcome, epoch: nat)
      modifies this`lease
      ensures outcome == if MayClaim(old(lease), owner, now, holderAlive) then Committed else LeaseBusy
      ensures lease == Claim(old(lease), owner, ttl, now, holderAlive)
      ensures outcome == Committed ==> lease == Some(Lease(owner, epoch, now + ttl))
    {
      if lease.None? {
        lease := Some(Lease(owner, 1, now + ttl));
        return Committed, 1;
      }
      if lease.value.owner == owner {
        epoch := lease.value.epoch;
      } else if lease.value.expires <= now || !holderAlive {
        epoch := lease.value.epoch + 1;
      } else {
        return LeaseBusy, 0;
      }
      lease := Some(Lease(owner, epoch, now + ttl));
      outcome := Committed;
    }

    method RenewLease(owner: Owner, epoch: nat, ttl: int, now: int) returns (outcome: Outcome)
      modifies this`lease
      ensures outcome == if Holds(old(lease), owner, epoch, now) then Committed else StaleLease
      ensures lease == Renew(old(lease), owner, epoch, ttl, now)
    {
      if !Holds(lease, owner, epoch, now) {
        return StaleLease;
      }
      lease := Some(lease.value.(expires := now + ttl));
      outcome := Committed;
    }

    method ReleaseLease(owner: Owner, epoch: nat, now: int)
      modifies this`lease
      ensures lease == Release(old(lease), owner, epoch, now)
    {
      if lease.Some? && lease.value.owner == owner && lease.value.epoch == epoch {
        lease := Some(lease.value.(expires := now));
      }
    }

    /**
      `next_pending`: the most urgent pending row, by rank, stored time, source offset and id.
      `Before` is that lexicographic order.
     */
    method NextPending(now: int) returns (next: Option<AttId>)
      ensures next.Some? ==> next.value in attentions && Due(attentions[next.value], now)
      ensures next.Some? ==> forall a :: a in attentions && Due(attentions[a], now) ==> NoLater(attentions[next.value], next.value, attentions[a], a)
      ensures next.None? <==> forall a :: a in attentions ==> !Due(attentions[a], now)
      ensures next.None? <==> forall a :: a in attentions ==> !PendingWork(attentions[a], now)
      ensures next.Some? ==> next.value in attentions && PendingWork(attentions[next.value], now)
      ensures next.Some? ==>
                forall a :: a in attentions && PendingWork(attentions[a], now) && a != next.value
                  ==> Before(attentions[next.value], next.value, attentions[a], a)
    {
      next := None;
      var todo := attentions.Keys;
      while todo != {}
        invariant todo <= attentions.Keys
        invariant next.Some? ==> next.value in attentions && next.value !in todo && PendingWork(attentions[next.value], now)
        invariant next.None? ==> forall a :: a in attentions.Keys - todo ==> !PendingWork(attentions[a], now)
        invariant next.Some? ==>
                    forall a :: a in attentions.Keys - todo && PendingWork(attentions[a], now) && a != next.value
                      ==> Before(attentions[next.value], next.value, attentions[a], a)
        decreases todo
      {
        var a :| a in todo;
        todo := todo - {a};
        if PendingWork(attentions[a], now) {
          if next.None? || Before(attentions[a], a, attentions[next.value], next.value) {
            next := Some(a);
          }
        }
      }
    }

    method SetThread(scope: Scope, t: ThreadId, owner: Owner, epoch: nat, now: int) returns (outcome: Outcome)
      modifies this
      ensures outcome == if Holds(old(lease), owner, epoch, now) then Committed else StaleLease
      ensures State() == if outcome == Committed then Ledgers.SetThread(old(State()), scope, t) else old(State())
    {
      if !Holds(lease, owner, epoch, now) {
        return StaleLease;
      }
      threads := threads[scope := t];
      outcome := Committed;
    }

    /** One turn of either requeue transaction: close it, empty it, hand its members back. */
    method GiveBackTurn(x: TurnId, clearFirst: bool, now: int) returns (requeued: nat)
      requires x in turns
      modifies this
      ensures State() == GiveBack(old(State()), {x}, clearFirst, now)
      ensures requeued == |GivenBack(old(State()), {x})|
    {
      ghost var before := State();
      var ids := SlotsOf(slots, x).Values;
      CloseTurnsStep(turns, {}, x, now, Failed);
      turns := turns[x := Close(turns[x], now, Some(Failed))];
      slots := EmptySlots(slots, {x});
      requeued := 0;
      ghost var back: set<AttId> := {};
      assert attentions == RequeueRows(attentions, {}, clearFirst, now);
      while ids != {}
        invariant ids <= Members(before.slots, x)
        invariant back == set a | a in GivenBack(before, {x}) && a !in ids
        invariant requeued == |back|
        invariant State() == before.(turns := CloseTurns(before.turns, {x}, now, Failed),
                                     slots := EmptySlots(before.slots, {x}), attentions := attentions)
        invariant attentions == RequeueRows(before.attentions, back, clearFirst, now)
        decreases ids
      {
        var a :| a in ids;
        ids := ids - {a};
        if a in attentions && attentions[a].finalResponse.None? {
          assert x in {x} && a in GivenBack(before, {x});
          RequeueRowsStep(before.attentions, back, a, clearFirst, now);
          attentions := attentions[a := Requeue(attentions[a], now, clearFirst)];
          back := back + {a};
          requeued := requeued + 1;
        }
      }
      assert back == GivenBack(before, {x});
    }

    method RequeueMissingThread(t: ThreadId, owner: Owner, epoch: nat, now: int) returns (outcome: Outcome)
      modifies this
      ensures outcome == if Holds(old(lease), owner, epoch, now) then Committed else StaleLease
      ensures State() == if outcome == Committed then Ledgers.RequeueMissingThread(old(State()), t, now) else old(State())
    {
      if !Holds(lease, owner, epoch, now) {
        return StaleLease;
      }
      ghost var before := State();
      var todo := set x | x in turns && turns[x].thread == t && Open(turns[x]);
      ghost var done: set<TurnId> := {};
      assert GiveBack(before, {}, false, now) == before;
      while todo != {}
        invariant done !! todo && todo <= before.turns.Keys
        invariant forall x :: x in todo ==> before.turns[x].thread == t && Open(before.turns[x])
        invariant forall x :: x in LostTurns(before, t) ==> x in done + todo
        invariant done <= LostTurns(before, t)
        invariant State() == GiveBack(before, done, false, now)
        decreases todo
      {
        var x :| x in todo;
        todo := todo - {x};
        if HasRelay(relays, x) {
          continue;
        }
        GiveBackOneMore(before, done, x, false, now);
        var _ := GiveBackTurn(x, false, now);
        done := done + {x};
      }
      assert done == LostTurns(before, t);
      threads := map s | s in threads && threads[s] != t :: threads[s];
      outcome := Committed;
    }

    method RequeueMissingTurn(t: ThreadId, x: TurnId, owner: Owner, epoch: nat, now: int)
      returns (outcome: Outcome, requeued: nat)
      modifies this
      ensures outcome == if Holds(old(lease), owner, epoch, now) then Committed else StaleLease
      ensures State() == if outcome == Committed then Ledgers.RequeueMissingTurn(old(State()), t, x, now) else old(State())
      ensures requeued == if outcome == Committed && x in LostTurns(old(State()), t)
                          then |GivenBack(old(State()), {x})| else 0
    {
      requeued := 0;
      if !Holds(lease, owner, epoch, now) {
        return StaleLease, 0;
      }
      outcome := Committed;
      if x in turns && turns[x].thread == t && Open(turns[x]) && !HasRelay(relays, x) {
        requeued := GiveBackTurn(x, true, now);
      }
    }

    /** `incomplete_turn_ids` without its age bound. */
    method IncompleteTurns(t: ThreadId) returns (xs: set<TurnId>)
      ensures xs == set x | x in turns && turns[x].thread == t && Open(turns[x])
    {
      xs := set x | x in turns && turns[x].thread == t && Open(turns[x]);
    }

    method PrepareDispatch(a: AttId, t: ThreadId, operation: Operation, owner: Owner, epoch: nat, now: int)
      returns (outcome: Outcome)
      modifies this
      ensures outcome == if a !in old(attentions) then UnknownRow
                         else if Holds(old(lease), owner, epoch, now) then Committed else StaleLease
      ensures State() == if outcome == Committed then Prepare(old(State()), a, t, operation, epoch, now) else old(State())
    {
      if a !in attentions {
        return UnknownRow;
      }
      if !Holds(lease, owner, epoch, now) {
        return StaleLease;
      }
      intents := intents[a := Intent(attentions[a].scope, t, operation, Prepared, None, now, epoch)];
      outcome := Committed;
    }

    method FinalizeDispatch(a: AttId, t: ThreadId, x: TurnId, owner: Owner, epoch: nat, reconciled: bool, now: int)
      returns (outcome: Outcome)
      modifies this
      ensures outcome == if a !in old(intents) || a !in old(attentions) then UnknownRow
                         else if Holds(old(lease), owner, epoch, now) then Committed else StaleLease
      ensures State() == if outcome == Committed then Finalize(old(State()), a, t, x, epoch, reconciled, now)
                         else old(State())
    {
      if a !in intents || a !in attentions {
        return UnknownRow;
      }
      if !Holds(lease, owner, epoch, now) {
        return StaleLease;
      }
      var row := attentions[a];
      if x !in turns {
        turns := turns[x := TurnRow(row.scope, t, epoch, now, None, None)];
      }
      var position := |SlotsOf(slots, x)|;
      if position in SlotsOf(slots, x) || a in SlotsOf(slots, x).Values {
        slots := slots[x := SlotsOf(slots, x)];
      } else {
        slots := slots[x := SlotsOf(slots, x)[position := a]];
      }
      attentions := attentions[a := row.(accepted := if row.accepted.Some? then row.accepted else Some(now),
                                         turn := Some(x), epoch := Some(epoch), attempts := row.attempts + 1)];
      intents := intents[a := intents[a].(status := if reconciled then Reconciled else Accepted,
                                          turn := Some(x), epoch := epoch)];
      outcome := Committed;
    }

    method RetryUnobservedDispatch(a: AttId, owner: Owner, epoch: nat, now: int) returns (outcome: Outcome)
      modifies this
      ensures outcome == if a !in old(intents) || Holds(old(lease), owner, epoch, now) then Committed else StaleLease
      ensures State() == if outcome == Committed then RetryUnobserved(old(State()), a, epoch, now) else old(State())
    {
      if a !in intents {
        return Committed;
      }
      if !Holds(lease, owner, epoch, now) {
        return StaleLease;
      }
      intents := intents[a := intents[a].(status := IntentFailed, epoch := epoch)];
      if a in attentions && attentions[a].accepted.None? && attentions[a].terminal.None? {
        attentions := attentions[a := attentions[a].(nextAttempt := now)];
      }
      outcome := Committed;
    }

    method DeferAttention(a: AttId, delay: int, owner: Owner, epoch: nat, now: int) returns (outcome: Outcome)
      modifies this
      ensures outcome == if a !in old(attentions) || Holds(old(lease), owner, epoch, now) then Committed else StaleLease
      ensures State() == if outcome == Committed then Defer(old(State()), a, delay, now) else old(State())
    {
      if a !in attentions {
        return Committed;
      }
      if !Holds(lease, owner, epoch, now) {
        return StaleLease;
      }
      outcome := Committed;
      if delay <= 0 {
        attentions := attentions[a := attentions[a].(nextAttempt := now + delay)];
        return;
      }
      var attempt := attentions[a].attempts + 1;
      if attempt >= DEFER_MAX_ATTEMPTS {
        attentions := attentions[a := attentions[a].(attempts := attempt, terminal := Some(Failed))];
        return;
      }
      attentions := attentions[a := attentions[a].(attempts := attempt, nextAttempt := now + Backoff(delay, attempt))];
    }

    /** One member of an interrupted turn: protected unanswered work is detached and requeued. */
    method StopMember(x: TurnId, a: AttId, now: int) returns (requeued: bool)
      requires x in slots
      modifies this`slots, this`attentions
      ensures x in slots && StopsOne(old(State()), State(), x, a, requeued, now)
    {
      requeued := false;
      if a in attentions {
        if Protected(attentions[a].priority) && attentions[a].finalResponse.None? {
          slots := slots[x := Detach(slots[x], {a})];
          attentions := attentions[a := Requeue(attentions[a], now, false)];
          requeued := true;
        } else {
          attentions := attentions[a := attentions[a].(turnCompleted := Some(now), terminal := Some(Interrupted))];
        }
      }
    }

    /** Every member of an interrupted turn, one row at a time. */
    method StopMembers(x: TurnId, ids: set<AttId>, now: int, ghost before: Ledger) returns (requeued: nat)
      requires x in before.turns && x in slots && ids == Members(before.slots, x)
      requires State() == StopPart(before, x, {}, now)
      modifies this`slots, this`attentions
      ensures State() == StopPart(before, x, ids, now)
      ensures requeued == |ids * StopRequeued(before, x)|
    {
      hide *;
      requeued := 0;
      var todo := ids;
      ghost var done: set<AttId> := {};
      assert done * StopRequeued(before, x) == {};
      while todo != {}
        invariant done + todo == ids && done !! todo
        invariant x in before.turns && x in slots && State() == StopPart(before, x, done, now)
        invariant requeued == |done * StopRequeued(before, x)|
        decreases todo
      {
        var a :| a in todo;
        todo := todo - {a};
        var again := StopMember(x, a, now);
        StopPartStep(before, x, done, a, State(), again, now);
        if again {
          requeued := requeued + 1;
        }
        done := done + {a};
      }
      assert done == ids;
    }

    method InterruptTurnForControl(x: TurnId, owner: Owner, epoch: nat, now: int)
      returns (outcome: Outcome, requeued: nat)
      modifies this
      ensures outcome == if x !in old(turns) || Holds(old(lease), owner, epoch, now) then Committed else StaleLease
      ensures State() == if outcome == Committed then InterruptTurn(old(State()), x, now) else old(State())
      ensures requeued == if outcome == Committed && x in old(turns) then |StopRequeued(old(State()), x)| else 0
    {
      requeued := 0;
      if x !in turns {
        return Committed, 0;
      }
      if !Holds(lease, owner, epoch, now) {
        return StaleLease, 0;
      }
      ghost var before := State();
      StopPartEnds(before, x, now);
      turns := turns[x := Close(turns[x], now, Some(Interrupted))];
      slots := slots[x := SlotsOf(slots, x)];
      requeued := StopMembers(x, slots[x].Values, now, before);
      relays := SuppressFor(relays, {x});
      outcome := Committed;
    }

    method CancelPendingBeforeControl(c: AttId, owner: Owner, epoch: nat, now: int)
      returns (outcome: Outcome, cancelled: nat)
      modifies this
      ensures outcome == if c !in old(attentions) then UnknownRow
                         else if Holds(old(lease), owner, epoch, now) then Committed else StaleLease
      ensures State() == if outcome == Committed then CancelPending(old(State()), c, epoch, now) else old(State())
      ensures outcome == Committed ==> cancelled == |StopCancelled(old(State()), c)|
    {
      cancelled := 0;
      if c !in attentions {
        return UnknownRow, 0;
      }
      if !Holds(lease, owner, epoch, now) {
        return StaleLease, 0;
      }
      ghost var before := State();
      var control := attentions[c];
      var hit := set a | a in attentions && a != c && attentions[a].scope == control.scope
                         && attentions[a].accepted.None? && attentions[a].terminal.None?
                         && attentions[a].sourceOffset < control.sourceOffset && !Protected(attentions[a].priority);
      assert hit == StopCancelled(before, c);
      attentions := CancelRows(attentions, hit);
      attentions := attentions[c := control.(
        accepted := if control.accepted.Some? then control.accepted else Some(now),
        turnCompleted := if control.turnCompleted.Some? then control.turnCompleted else Some(now),
        terminal := Some(Cancelled), epoch := Some(epoch), attempts := control.attempts + 1)];
      cancelled := |hit|;
      outcome := Committed;
    }

    method CloseRoomForControl(c: AttId, owner: Owner, epoch: nat, now: int) returns (outcome: Outcome)
      modifies this
      ensures outcome == if c !in old(attentions) then UnknownRow
                         else if Holds(old(lease), owner, epoch, now) then Committed else StaleLease
      ensures State() == if outcome == Committed then CloseRoom(old(State()), c, epoch, now) else old(State())
    {
      if c !in attentions {
        return UnknownRow;
      }
      if !Holds(lease, owner, epoch, now) {
        return StaleLease;
      }
      var scope := attentions[c].scope;
      var rooms := set x | x in turns && turns[x].scope == scope;
      turns := CloseTurns(turns, (set x | x in turns && turns[x].scope == scope && Open(turns[x])), now, Cancelled);
      attentions := CancelUnfinished(attentions, scope, now);
      var control := attentions[c];
      attentions := attentions[c := control.(accepted := if control.accepted.Some? then control.accepted else Some(now),
                                             epoch := Some(epoch), attempts := control.attempts + 1)];
      relays := SuppressFor(relays, rooms);
      threads := map s | s in threads && s != scope :: threads[s];
      outcome := Committed;
    }

    method CreateRelayItem(op: OpId, text: string, status: RelayStatus, owner: Owner, epoch: nat, now: int)
      returns (outcome: Outcome, created: bool)
      modifies this
      ensures outcome == if Holds(old(lease), owner, epoch, now) then Committed else StaleLease
      ensures State() == if outcome == Committed then CreateRelay(old(State()), op, text, status, epoch, now) else old(State())
      ensures created <==> outcome == Committed && !RelayTaken(old(relays), op)
    {
      if !Holds(lease, owner, epoch, now) {
        return StaleLease, false;
      }
      created := !RelayTaken(relays, op);
      if created {
        relays := relays + [Relay(op, text, status, 0, 0, now, None, epoch)];
      }
      outcome := Committed;
    }

    method MarkRelayFailed(op: OpId, delay: int, owner: Owner, epoch: nat, now: int) returns (outcome: Outcome)
      modifies this
      ensures outcome == if (forall r :: r in old(relays) ==> r.op != op) || Holds(old(lease), owner, epoch, now)
                         then Committed else StaleLease
      ensures State() == if outcome == Committed then RelayFailed(old(State()), op, delay, now) else old(State())
    {
      if forall r :: r in relays ==> r.op != op {
        assert RelayFailed(State(), op, delay, now).relays == relays;
        return Committed;
      }
      if !Holds(lease, owner, epoch, now) {
        return StaleLease;
      }
      relays := seq(|relays|, i requires 0 <= i < |relays| reads this =>
        if relays[i].op == op
        then relays[i].(attempts := relays[i].attempts + 1,
                        nextAttempt := now + Min(60_000, delay * Pow2(Min(relays[i].attempts, 6))))
        else relays[i]);
      outcome := Committed;
    }

    method MarkRelayAccepted(op: OpId, owner: Owner, epoch: nat, now: int) returns (outcome: Outcome)
      modifies this
      ensures outcome == if forall r :: r in old(relays) ==> r.op != op then UnknownRow
                         else if Holds(old(lease), owner, epoch, now) then Committed else StaleLease
      ensures State() == if outcome == Committed then RelayAccepted(old(State()), op, now) else old(State())
    {
      if forall r :: r in relays ==> r.op != op {
        return UnknownRow;
      }
      if !Holds(lease, owner, epoch, now) {
        return StaleLease;
      }
      ghost var before := State();
      relays := seq(|relays|, i requires 0 <= i < |relays| reads this =>
        if relays[i].op == op
        then relays[i].(status := Sent, attempts := relays[i].attempts + 1, acceptedAt := Some(now), nextAttempt := 0)
        else relays[i]);
      var ids := op.covered;
      ghost var done: set<AttId> := {};
      while ids != {}
        invariant done !! ids && done + ids == op.covered
        invariant attentions == AnswerRows(before.attentions, done, op.kind == Final, now)
        invariant State() == before.(attentions := attentions, relays := RelayAccepted(before, op, now).relays)
        decreases ids
      {
        var a :| a in ids;
        ids := ids - {a};
        done := done + {a};
        if a in attentions {
          attentions := attentions[a := Answer(attentions[a], op.kind == Final, now)];
        }
      }
      assert done == op.covered;
      outcome := Committed;
    }

    method MarkTurnNoReply(x: TurnId, owner: Owner, epoch: nat, now: int) returns (outcome: Outcome, waived: nat)
      modifies this
      ensures outcome == if x !in old(turns) || Holds(old(lease), owner, epoch, now) then Committed else StaleLease
      ensures State() == if outcome == Committed then TurnNoReply(old(State()), x) else old(State())
      ensures waived == if outcome == Committed && x in old(turns) then |Waived(old(State()), x)| else 0
    {
      if x !in turns {
        return Committed, 0;
      }
      if !Holds(lease, owner, epoch, now) {
        return StaleLease, 0;
      }
      ghost var before := State();
      var hit := set a | a in attentions && attentions[a].turn == Some(x) && attentions[a].finalResponse.None?
                         && attentions[a].terminal.None? && !attentions[a].replyRequired;
      assert hit == Waived(before, x);
      attentions := CancelRows(attentions, hit);
      return Committed, |hit|;
    }

    method MarkTurnCompleted(x: TurnId, terminal: Option<Terminal>, owner: Owner, epoch: nat, now: int)
      returns (outcome: Outcome)
      modifies this
      ensures outcome == if x !in old(turns) || Holds(old(lease), owner, epoch, now) then Committed else StaleLease
      ensures State() == if outcome == Committed then TurnCompleted(old(State()), x, terminal, now) else old(State())
    {
      if x !in turns {
        return Committed;
      }
      if !Holds(lease, owner, epoch, now) {
        return StaleLease;
      }
      turns := turns[x := Close(turns[x], now, terminal)];
      attentions := CompleteRows(attentions, x, terminal, now);
      if terminal.Some? {
        relays := SuppressFor(relays, {x});
      }
      outcome := Committed;
    }

    method AdoptRecoveredTurn(x: TurnId, owner: Owner, epoch: nat, now: int) returns (outcome: Outcome)
      modifies this
      ensures outcome == if x !in old(turns) || Holds(old(lease), owner, epoch, now) then Committed else StaleLease
      ensures State() == if outcome == Committed then Adopt(old(State()), x, epoch) else old(State())
    {
      if x !in turns {
        return Committed;
      }
      if !Holds(lease, owner, epoch, now) {
        return StaleLease;
      }
      if Open(turns[x]) && turns[x].terminal.None? {
        turns := turns[x := turns[x].(epoch := epoch)];
      }
      attentions := AdoptRows(attentions, x, epoch);
      outcome := Committed;
    }

    /** One turn of the reaper: close it, end its optional attentions, suppress its unsent output. */
    method CloseAbandonedTurn(x: TurnId, now: int)
      requires x in turns
      modifies this`turns, this`attentions, this`relays
      ensures turns == old(turns)[x := Close(old(turns)[x], now, Some(Interrupted))]
      ensures attentions == AbandonRows(old(attentions), {x}, now)
      ensures relays == SuppressFor(old(relays), {x})
    {
      turns := turns[x := Close(turns[x], now, Some(Interrupted))];
      attentions := AbandonRows(attentions, {x}, now);
      relays := SuppressFor(relays, {x});
    }

    method CloseAbandonedTurns(xs: set<TurnId>, now: int, ghost before: Ledger)
      requires State() == before && xs <= turns.Keys
      modifies this`turns, this`attentions, this`relays
      ensures State() == CloseAbandoned(before, xs, now)
    {
      var todo := xs;
      ghost var done: set<TurnId> := {};
      CloseAbandonedNone(before, now);
      while todo != {}
        invariant done !! todo && done + todo == xs
        invariant State() == CloseAbandoned(before, done, now) && turns.Keys == before.turns.Keys
        decreases todo
      {
        var x :| x in todo;
        todo := todo - {x};
        CloseAbandonedTurn(x, now);
        CloseAbandonedStep(before, done, x, now);
        done := done + {x};
      }
      assert done == xs;
    }

    method ReapStaleTurns(owner: Owner, epoch: nat, now: int) returns (outcome: Outcome, reaped: nat)
      modifies this
      ensures outcome == if Holds(old(lease), owner, epoch, now) then Committed else StaleLease
      ensures State() == if outcome == Committed then Reap(old(State()), epoch, now) else old(State())
      ensures reaped == if outcome == Committed then |Stale(old(State()), epoch)| else 0
    {
      if !Holds(lease, owner, epoch, now) {
        return StaleLease, 0;
      }
      ghost var before := State();
      var todo := set x | x in turns && turns[x].epoch < epoch && Open(turns[x]) && turns[x].terminal.None?;
      assert todo == Stale(before, epoch);
      reaped := |todo|;
      CloseAbandonedTurns(todo, now, before);
      outcome := Committed;
    }

    method RetireLegacyContext(a: AttId, owner: Owner, epoch: nat, now: int) returns (outcome: Outcome, retired: bool)
      modifies this
      ensures outcome == if Holds(old(lease), owner, epoch, now) then Committed else StaleLease
      ensures State() == if outcome == Committed then RetireLegacy(old(State()), a) else old(State())
      ensures retired ==> State() != old(State())
    {
      if !Holds(lease, owner, epoch, now) {
        return StaleLease, false;
      }
      outcome := Committed;
      if a !in attentions || attentions[a].accepted.Some? || attentions[a].terminal.Some?
         || Protected(attentions[a].priority) || !attentions[a].event.RetiredMetadata? {
        return Committed, false;
      }
      attentions := attentions[a := attentions[a].(terminal := Some(Cancelled))];
      retired := true;
      assert attentions[a] != old(attentions)[a];
    }
  }

  /** Neither accepted nor ended, and its time has come. */
  predicate Due(att: Attention, now: int) {
    att.accepted.None? && att.terminal.None? && att.nextAttempt <= now
  }

  /** At least as urgent; of the same rank stored no later; at the same time no further on in the inbox; then by id. */
  predicate NoLater(x: Attention, a: AttId, y: Attention, b: AttId) {
    && x.rank <= y.rank
    && (x.rank == y.rank ==> x.storedAt <= y.storedAt)
    && (x.rank == y.rank && x.storedAt == y.storedAt ==> x.sourceOffset <= y.sourceOffset)
    && (x.rank == y.rank && x.storedAt == y.storedAt && x.sourceOffset == y.sourceOffset ==> a <= b)
  }

  /** ORDER BY priority_rank, stored_at_ms, source_offset, attention_id. */
  predicate Before(x: Attention, a: AttId, y: Attention, b: AttId) {
    if x.rank != y.rank then x.rank < y.rank
    else if x.storedAt != y.storedAt then x.storedAt < y.storedAt
    else if x.sourceOffset != y.sourceOffset then x.sourceOffset < y.sourceOffset
    else a < b
  }
}
