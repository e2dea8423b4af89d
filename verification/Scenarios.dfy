/** Steps of concrete runs: what several events in a row do to a reachable world. */
module Scenarios {
  import opened Common
  import opened Ledgers
  import opened LedgerInvariants
  import opened AgentOutput
  import opened AdapterRuns

  const ROOM := Scope("server", "room")
  const THREAD: ThreadId := 7

  /** A row as it is ingested. */
  function Incoming(priority: Priority, event: EventKind, at: nat): Attention {
    Attention(ROOM, priority, Rank(priority), event.Work?, event, at, 0, None, None, None, None, None, None, None, 0, 0)
  }

  ghost predicate Reachable(w: World) {
    exists run :: Legal(run) && After(run) == w
  }

  lemma Next(w: World, at: At, v: World)
    requires Reachable(w) && Enabled(w, at.event, at.now) && Apply(w, at) == v
    ensures Reachable(v)
  {
    var run :| Legal(run) && After(run) == w;
    assert (run + [at])[..|run|] == run;
    assert Legal(run + [at]) && After(run + [at]) == v;
  }

  lemma Recover(w: World, at: At, v: World)
    requires Reachable(w) && RecoveryEvent(at.event) && RecoveryEnabled(w, at.event) && ApplyRecovery(w, at) == v
    ensures Reachable(v)
  {
    Next(w, at, v);
  }

  lemma Dispatch(w: World, at: At, v: World)
    requires Reachable(w) && DispatchEvent(at.event) && DispatchEnabled(w, at.event, at.now) && ApplyDispatch(w, at) == v
    ensures Reachable(v)
  {
    Next(w, at, v);
  }

  lemma Output(w: World, at: At, v: World)
    requires Reachable(w) && OutputEvent(at.event) && OutputEnabled(w, at.event) && ApplyOutput(w, at) == v
    ensures Reachable(v)
  {
    Next(w, at, v);
  }

  lemma Control(w: World, at: At, v: World)
    requires Reachable(w) && ControlEvent(at.event) && ControlEnabled(w, at.event) && ApplyControl(w, at) == v
    ensures Reachable(v)
  {
    Next(w, at, v);
  }

  /** A reaper that finds nothing stale changes nothing. */
  lemma ReapsNothing(l: Ledger, epoch: nat, now: int)
    requires Stale(l, epoch) == {}
    ensures Reap(l, epoch, now) == l
  {
    assert CloseTurns(l.turns, {}, now, Interrupted) == l.turns;
    assert AbandonRows(l.attentions, {}, now) == l.attentions;
    assert SuppressFor(l.relays, {}) == l.relays;
  }

  // ---- A started adapter with one room ----

  function Ready(rows: Rows): World {
    INITIAL.(phase := Idle, db := EMPTY_LEDGER.(attentions := rows, threads := map[ROOM := THREAD]),
             cache := map[ROOM := THREAD], used := {THREAD})
  }

  lemma ReachReady()
    ensures Reachable(Ready(map[]))
  {
    assert Legal([]) && After([]) == INITIAL;
    hide Legal, After, Reachable;
    var up, idle := INITIAL.(phase := Recovering({})), INITIAL.(phase := Idle);
    assert INITIAL.db.threads.Values == {};
    Recover(INITIAL, At(Started, 1, 1), up);
    assert Stale(EMPTY_LEDGER, 1) == {};
    ReapsNothing(EMPTY_LEDGER, 1, 1);
    Recover(up, At(Reaped, 1, 1), idle);
    Dispatch(idle, At(ThreadCreated(ROOM, THREAD), 1, 1), Ready(map[]));
  }

  /** Not a direct message: nothing but the row is recorded. */
  lemma Receive(w: World, a: AttId, row: Attention, now: int)
    requires Reachable(w) && w.phase.Idle? && a !in w.db.attentions && Fresh(row)
    ensures Reachable(w.(db := w.db.(attentions := w.db.attentions[a := row]),
                         direct := if Direct(row.priority) then w.direct + {a} else w.direct))
  {
    hide Reachable;
    Dispatch(w, At(Ingested(a, row), now, 1), w.(db := w.db.(attentions := w.db.attentions[a := row]),
                                                 direct := if Direct(row.priority) then w.direct + {a} else w.direct));
  }

  ghost predicate Ripe(w: World, a: AttId, now: int) {
    && w.phase.Idle? && w.db.threads == map[ROOM := THREAD] && w.cache == map[ROOM := THREAD] && w.unbound == {}
    && a in w.db.attentions && w.db.attentions[a].scope == ROOM && w.db.attentions[a].event.Work?
    && PendingWork(w.db.attentions[a], now)
  }

  /** A dispatch is prepared, its input taken by turn `x`, and bound to it. */
  function Joined(w: World, a: AttId, x: TurnId, operation: Operation, epoch: nat, now: int): World
    requires a in w.db.attentions
  {
    w.(db := Finalize(Prepare(w.db, a, THREAD, operation, epoch, now), a, THREAD, x, epoch, false, now),
       inputs := w.inputs + [Input(x, a)], accepted := w.accepted + multiset{a},
       joined := w.joined[x := JoinedOf(w.joined, x) + {a}])
  }

  lemma ReachJoined(w: World, a: AttId, x: TurnId, operation: Operation, epoch: nat, now: int)
    requires Reachable(w) && Ripe(w, a, now) && x.thread == THREAD
    ensures Reachable(Joined(w, a, x, operation, epoch, now))
  {
    hide Reachable;
    var sending := w.(db := Prepare(w.db, a, THREAD, operation, epoch, now), phase := Sending(a, THREAD));
    Dispatch(w, At(Began(a, operation), now, epoch), sending);
    var bound := sending.(phase := Bound(a, THREAD, x), inputs := w.inputs + [Input(x, a)],
                          accepted := w.accepted + multiset{a}, unbound := {a});
    Dispatch(sending, At(InputAccepted(x), now, epoch), bound);
    hide Finalize;
    assert {a} - {a} == {};
    Dispatch(bound, At(Finalized, now, epoch), Joined(w, a, x, operation, epoch, now));
  }

  // ---- A dispatch that a crash cuts short ----

  /** The dispatch is prepared; `taken` is the turn that took its input before the crash, if any. */
  function CutShort(w: World, a: AttId, taken: Option<TurnId>, epoch: nat, now: int): World
    requires a in w.db.attentions
  {
    var prepared := w.(db := Prepare(w.db, a, THREAD, StartTurn, epoch, now), phase := Recovering({THREAD}));
    match taken
    case None => prepared
    case Some(x) => prepared.(inputs := w.inputs + [Input(x, a)], accepted := w.accepted + multiset{a}, unbound := {a})
  }

  lemma ReachCutShort(w: World, a: AttId, taken: Option<TurnId>, epoch: nat, now: int)
    requires Reachable(w) && Ripe(w, a, now) && (taken.Some? ==> taken.value.thread == THREAD)
    ensures Reachable(CutShort(w, a, taken, epoch, now))
  {
    hide Reachable;
    var v := CutShort(w, a, taken, epoch, now);
    var sending := w.(db := v.db, phase := Sending(a, THREAD));
    Dispatch(w, At(Began(a, StartTurn), now, epoch), sending);
    if taken.Some? {
      var bound := v.(phase := Bound(a, THREAD, taken.value));
      Dispatch(sending, At(InputAccepted(taken.value), now, epoch), bound);
      Restart(bound, v, epoch, now);
    } else {
      Restart(sending, v, epoch, now);
    }
  }

  lemma Restart(w: World, v: World, epoch: nat, now: int)
    requires Reachable(w) && Up(w.phase) && w.db.threads == map[ROOM := THREAD]
    requires v == w.(phase := Recovering({THREAD}), cache := map[ROOM := THREAD])
    ensures Reachable(v)
  {
    hide Reachable;
    var down := w.(phase := Down, cache := map[]);
    Recover(w, At(Crashed, now, epoch), down);
    var up := down.(phase := Recovering({THREAD}));
    assert w.db.threads[ROOM] == THREAD && w.db.threads.Values == {THREAD};
    Recover(down, At(Started, now, epoch), up);
    Recover(up, At(ThreadResumed(ROOM), now, epoch), v);
  }

  /** Recovery finds the attention's id in the history of the thread, first on turn `x`. */
  function Rebound(w: World, a: AttId, x: TurnId, epoch: nat, now: int): World
    requires a in w.db.attentions && a in w.db.intents
  {
    w.(db := Finalize(w.db, a, THREAD, x, epoch, true, now), unbound := {}, phase := Idle,
       joined := w.joined[x := JoinedOf(w.joined, x) + {a}])
  }

  lemma NothingPrepared(l: Ledger, a: AttId, x: TurnId, epoch: nat, now: int)
    requires a in l.attentions && a in l.intents && NoOtherPrepared(l.intents, a)
    ensures NoPreparedOn(Finalize(l, a, THREAD, x, epoch, true, now).intents, THREAD)
  {
    forall b | b in l.intents && b != a ensures !l.intents[b].status.Prepared? {
      assert !Prepared?(l.intents, b);
    }
  }

  lemma ReachRebound(w: World, a: AttId, x: TurnId, turns: seq<HistoryTurn>, epoch: nat, now: int)
    requires Reachable(w) && w.phase == Recovering({THREAD}) && w.cache == map[ROOM := THREAD] && w.unbound <= {a}
    requires a in w.db.attentions && Prepared?(w.db.intents, a) && w.db.intents[a].thread == THREAD
    requires NoOtherPrepared(w.db.intents, a)
    requires (forall h :: h in turns ==> h.id.thread == THREAD) && TurnForClientMessage(turns, a) == Some(x)
    requires Stale(Rebound(w, a, x, epoch, now).db, epoch) == {}
    ensures Reachable(Rebound(w, a, x, epoch, now))
  {
    var v := Rebound(w, a, x, epoch, now);
    NothingPrepared(w.db, a, x, epoch, now);
    assert w.unbound - {a} == {};
    hide Reachable, Finalize, Stale, NoPreparedOn, TurnForClientMessage;
    var found := v.(phase := Recovering({THREAD}));
    assert found == Bind(w, a, THREAD, x, true, At(DispatchReconciled(a, turns), now, epoch));
    Recover(w, At(DispatchReconciled(a, turns), now, epoch), found);
    Finish(found, epoch, now);
    assert found.(phase := Idle) == v;
  }

  lemma Finish(w: World, epoch: nat, now: int)
    requires Reachable(w) && w.phase == Recovering({THREAD}) && w.cache == map[ROOM := THREAD]
    requires NoPreparedOn(w.db.intents, THREAD) && Stale(w.db, epoch) == {}
    ensures Reachable(w.(phase := Idle))
  {
    ReapsNothing(w.db, epoch, now);
    hide Reachable, Reap, Stale, NoPreparedOn;
    var done := w.(phase := Recovering({}));
    assert w.cache[ROOM] == THREAD && {THREAD} - {THREAD} == {};
    Recover(w, At(ThreadDone(THREAD), now, epoch), done);
    Recover(done, At(Reaped, now, epoch), w.(phase := Idle));
  }

  ghost predicate NoOtherPrepared(intents: Intents, a: AttId) {
    forall b :: Prepared?(intents, b) ==> b == a
  }
}
