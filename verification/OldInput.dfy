/**
  Two concrete runs in which recovery binds a requeued task to the turn that a stop interrupted, because
  history shows the task's client message id for that turn. In one the crash came before the second
  dispatch reached the app-server; in the other a new turn had already taken it.
 */
module OldInput {
  import opened Common
  import opened Ledgers
  import opened LedgerInvariants
  import opened AgentOutput
  import opened AdapterRuns
  import opened AdapterTheorems
  import opened Rebinding
  import opened Scenarios

  const OLD := TurnId(THREAD, 1)
  const NEW := TurnId(THREAD, 2)
  const TASK: AttId := 0
  const STOP: AttId := 1

  const NEW_TASK := Incoming(ExplicitTask, Work, 0)
  const NEW_STOP := Incoming(SecurityControl, StopControl, 1)

  // ---- The task is accepted on a turn ----

  const FIRST := Intent(ROOM, THREAD, StartTurn, Accepted, Some(OLD), 1, 1)

  function Working(): World {
    Ready(map[TASK := NEW_TASK]).(
      db := Ready(map[]).db.(
        attentions := map[TASK := NEW_TASK.(accepted := Some(1), turn := Some(OLD), epoch := Some(1), attempts := 1)],
        turns := map[OLD := TurnRow(ROOM, THREAD, 1, 1, None, None)],
        slots := map[OLD := map[0 := TASK]],
        intents := map[TASK := FIRST]),
      inputs := [Input(OLD, TASK)], accepted := multiset{TASK}, joined := map[OLD := {TASK}])
  }

  lemma JoinsTask()
    ensures var ready := Ready(map[TASK := NEW_TASK]); Ripe(ready, TASK, 1) && Joined(ready, TASK, OLD, StartTurn, 1, 1) == Working()
  {
    var db := Ready(map[TASK := NEW_TASK]).db;
    assert Finalize(Prepare(db, TASK, THREAD, StartTurn, 1, 1), TASK, THREAD, OLD, 1, false, 1) == Working().db;
    hide Finalize, Prepare;
  }

  lemma ReachWorking()
    ensures Reachable(Working())
  {
    hide Reachable, Joined, Working, Ripe;
    ReachReady();
    Receive(Ready(map[]), TASK, NEW_TASK, 1);
    JoinsTask();
    ReachJoined(Ready(map[TASK := NEW_TASK]), TASK, OLD, StartTurn, 1, 1);
  }

  // ---- A stop gives it back ----

  function Asked(): World {
    Working().(db := Working().db.(attentions := Working().db.attentions[STOP := NEW_STOP]))
  }

  function Interrupted(): World {
    Asked().(
      requeued := multiset{TASK},
      db := Asked().db.(
        attentions := map[TASK := NEW_TASK.(attempts := 1, nextAttempt := 2), STOP := NEW_STOP],
        turns := map[OLD := TurnRow(ROOM, THREAD, 1, 1, Some(2), Some(Terminal.Interrupted))],
        slots := map[OLD := map[]]))
  }

  lemma InterruptsTask()
    ensures StopRequeued(Asked().db, OLD) == {TASK} && InterruptTurn(Asked().db, OLD, 2) == Interrupted().db
  {
    assert Members(Asked().db.slots, OLD) == {TASK} by {
      assert SlotsOf(Asked().db.slots, OLD)[0] == TASK;
    }
    assert StopRequeued(Asked().db, OLD) == {TASK};
  }

  lemma ReachInterrupted()
    ensures Reachable(Interrupted())
  {
    hide Reachable;
    ReachWorking();
    Receive(Working(), STOP, NEW_STOP, 2);
    InterruptsTask();
    hide InterruptTurn, StopRequeued;
    Control(Asked(), At(Event.Stopped(OLD), 2, 1), Interrupted());
  }

  function Stopped(): World {
    Interrupted().(db := Interrupted().db.(attentions := Interrupted().db.attentions[STOP :=
      NEW_STOP.(accepted := Some(2), turnCompleted := Some(2), terminal := Some(Cancelled), epoch := Some(1), attempts := 1)]))
  }

  lemma ReachStopped()
    ensures Reachable(Stopped())
  {
    ReachInterrupted();
    hide Reachable;
    ClosesStop();
    hide CancelPending;
    Control(Interrupted(), At(StopAcknowledged(STOP), 2, 1), Stopped());
  }

  lemma ClosesStop()
    ensures CancelPending(Interrupted().db, STOP, 1, 2) == Stopped().db
  {
    assert StopCancelled(Interrupted().db, STOP) == {};
  }

  // ---- Its next dispatch is cut short by a crash ----

  const SECOND := Intent(ROOM, THREAD, StartTurn, Prepared, None, 3, 1)

  function Cut(taken: Option<TurnId>): World {
    CutShort(Stopped(), TASK, taken, 1, 3)
  }

  lemma ReachCut(taken: Option<TurnId>)
    requires taken.Some? ==> taken.value.thread == THREAD
    ensures Reachable(Cut(taken))
  {
    ReachStopped();
    hide Reachable;
    ReachCutShort(Stopped(), TASK, taken, 1, 3);
  }

  // ---- Recovery finds the id on the old turn ----

  /** The full history: the new turn is there exactly when it took the input. */
  function History(taken: Option<TurnId>): seq<HistoryTurn> {
    [HistoryTurn(OLD, [TASK])] + if taken.Some? then [HistoryTurn(taken.value, [TASK])] else []
  }

  function Stuck(taken: Option<TurnId>): World {
    Cut(taken).(
      phase := Idle, unbound := {}, joined := map[OLD := {TASK}],
      db := Stopped().db.(
        attentions := Stopped().db.attentions[TASK :=
          NEW_TASK.(accepted := Some(4), turn := Some(OLD), epoch := Some(2), attempts := 2, nextAttempt := 2)],
        slots := map[OLD := map[0 := TASK]],
        intents := map[TASK := SECOND.(status := Reconciled, turn := Some(OLD), epoch := 2)]))
  }

  lemma BindsOldRow()
    ensures var cut := Prepare(Stopped().db, TASK, THREAD, StartTurn, 1, 3);
            Finalize(cut, TASK, THREAD, OLD, 2, true, 4) == Stuck(None).db
  {
  }

  lemma BindsOld(taken: Option<TurnId>)
    ensures Rebound(Cut(taken), TASK, OLD, 2, 4) == Stuck(taken)
  {
    BindsOldRow();
    hide Finalize, Prepare;
    assert JoinedOf(Cut(taken).joined, OLD) + {TASK} == {TASK};
    assert Cut(taken).joined[OLD := {TASK}] == map[OLD := {TASK}];
  }

  lemma ReachStuck(taken: Option<TurnId>)
    requires taken.Some? ==> taken.value.thread == THREAD
    ensures Reachable(Stuck(taken))
  {
    hide Reachable, Rebound;
    ReachCut(taken);
    BindsOld(taken);
    IdIsOnOld(taken);
    assert Stale(Stuck(taken).db, 2) == {};
    hide Stuck, Stale, TurnForClientMessage;
    ReachRebound(Cut(taken), TASK, OLD, History(taken), 2, 4);
  }

  lemma IdIsOnOld(taken: Option<TurnId>)
    ensures TurnForClientMessage(History(taken), TASK) == Some(OLD)
  {
    assert History(taken)[0].inputs == [TASK];
  }

  /** The history is full, truthful and in order, and still the first turn that shows the id is not the one that took the input. */
  lemma FullHistoryMisleads()
    ensures var w, turns := Cut(Some(NEW)), History(Some(NEW));
            && Reachable(w) && OneActiveTurn(w.inputs) && Durable(turns, w.inputs, TASK, THREAD)
            && OwnTurn(w, TASK) == Some(NEW) && TurnForClientMessage(turns, TASK) == Some(OLD)
  {
    hide Reachable;
    var w, turns := Cut(Some(NEW)), History(Some(NEW));
    ReachCut(Some(NEW));
    IdIsOnOld(Some(NEW));
    assert LastTaker(w.inputs, TASK) == Some(NEW);
    assert w.inputs == [Input(OLD, TASK), Input(NEW, TASK)];
    assert turns == [HistoryTurn(OLD, [TASK]), HistoryTurn(NEW, [TASK])];
    assert w.inputs[0].turn in Takers(w.inputs, TASK, THREAD) && w.inputs[1].turn in Takers(w.inputs, TASK, THREAD);
    assert turns[0] in turns && turns[1] in turns;
  }

  /** Owed an input or a response, on a turn that is closed, and never due for dispatch. */
  ghost predicate Stranded(w: World, a: AttId) {
    && w.phase.Idle?
    && a in w.db.attentions && w.db.attentions[a].replyRequired && w.db.attentions[a].finalResponse.None?
    && w.db.attentions[a].terminal.None? && (forall now :: !PendingWork(w.db.attentions[a], now))
    && w.db.attentions[a].turn.Some? && w.db.attentions[a].turn.value in w.db.turns
    && !Open(w.db.turns[w.db.attentions[a].turn.value])
  }

  /** No input was accepted for the second dispatch, and none ever will be. */
  lemma StoppedWorkIsBoundToItsOldTurn()
    ensures exists run :: Legal(run) && Stranded(After(run), TASK)
                          && After(run).accepted[TASK] == After(run).requeued[TASK] + After(run).lost[TASK]
  {
    hide Legal, After;
    ReachStuck(None);
    var run :| Legal(run) && After(run) == Stuck(None);
  }

  /**
    The input was accepted, on a new turn that full history shows after the old one. That turn is unknown to the
    ledger: it has no members, so nothing it writes is recorded.
   */
  lemma LiveTurnIsDisowned(item: AgentItem, live: bool, epoch: nat, now: int)
    ensures exists run :: Legal(run) && Stranded(After(run), TASK)
                          && After(run).accepted[TASK] == 1 + After(run).requeued[TASK] + After(run).lost[TASK]
                          && LastTaker(After(run).inputs, TASK) == Some(NEW) && NEW !in After(run).db.turns
                          && RecordItem(After(run).db, NEW, item, live, epoch, now) == After(run).db
  {
    hide Legal, After;
    ReachStuck(Some(NEW));
    NothingRecorded(Stuck(Some(NEW)).db, NEW, item, live, epoch, now);
    hide RecordItem;
    assert LastTaker(Stuck(Some(NEW)).inputs, TASK) == Some(NEW);
    var run :| Legal(run) && After(run) == Stuck(Some(NEW));
  }

  /** A turn without members: its output covers nobody, so it is dropped. */
  lemma NothingRecorded(l: Ledger, x: TurnId, item: AgentItem, live: bool, epoch: nat, now: int)
    requires x !in l.slots
    ensures RecordItem(l, x, item, live, epoch, now) == l
  {
    assert AcceptedForTurn(l, x) == {};
  }
}
