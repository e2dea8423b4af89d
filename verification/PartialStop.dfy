/**
  A turn that a stop only partly detached. `position` is a row count inserted with OR IGNORE, so it can
  collide; an attention then names the turn without being covered by its output, and two concrete runs
  lose the budgets of OutputLimits. Only a stop leaves a gap, so such a turn is one the ledger calls
  interrupted; its items still arrive while the app-server has not ended it.
 */
module PartialStop {
  import opened Common
  import opened Ledgers
  import opened LedgerInvariants
  import opened AgentOutput
  import opened AdapterRuns
  import opened Scenarios

  lemma CoverageMore(ops: seq<OpId>, op: OpId, x: TurnId)
    requires op.turn == x && op.kind.Final?
    ensures Coverage(ops + [op], x, Final) == Coverage(ops, x, Final) + op.covered
  {
    assert (ops + [op])[..|ops|] == ops;
  }

  /** Someone who names the turn but got no row: every further final is let through. */
  lemma GateStaysOpen(l: Ledger, x: TurnId, item: AgentItem, live: bool, epoch: nat, now: int, b: AttId)
    requires b in LiveOn(l, x) && b !in Coverage(Ops(l.relays), x, Final) && b !in AcceptedForTurn(l, x)
    requires item.phase.FinalPhase? && item.text != NO_REPLY_SENTINEL
    ensures var m := RecordItem(l, x, item, live, epoch, now);
            && OutputKind(l, x, item).Final?
            && b in LiveOn(m, x) && b !in Coverage(Ops(m.relays), x, Final) && b !in AcceptedForTurn(m, x)
  {
    assert b in Uncovered(l, x);
    var m := RecordItem(l, x, item, live, epoch, now);
    var op := OpId(AcceptedForTurn(l, x), x, item.id, Final);
    assert m == l.(relays := m.relays);
    if m != l {
      assert Ops(m.relays) == Ops(l.relays) + [op];
      CoverageMore(Ops(l.relays), op, x);
    }
    hide RecordItem, Coverage, OutputKind, Uncovered;
  }

  /** The row a final leaves while the gate is open. */
  lemma FinalIsAppended(l: Ledger, x: TurnId, item: AgentItem, live: bool, epoch: nat, now: int, b: AttId)
    requires b in LiveOn(l, x) && b !in Coverage(Ops(l.relays), x, Final) && AcceptedForTurn(l, x) != {}
    requires item.phase.FinalPhase? && item.text != NO_REPLY_SENTINEL && item.text != ""
    requires !HasItem(l.relays, x, item.id)
    ensures var m := RecordItem(l, x, item, live, epoch, now); var op := OpId(AcceptedForTurn(l, x), x, item.id, Final);
            && Ops(m.relays) == Ops(l.relays) + [op] && AcceptedForTurn(m, x) == AcceptedForTurn(l, x)
            && forall other :: other != item.id && !HasItem(l.relays, x, other) ==> !HasItem(m.relays, x, other)
  {
    assert b in Uncovered(l, x);
    var m := RecordItem(l, x, item, live, epoch, now);
    assert !RelayTaken(l.relays, OpId(AcceptedForTurn(l, x), x, item.id, Final));
    assert AcceptedForTurn(m, x) == AcceptedForTurn(l, x);
  }

  /** Two finals in a row then cover the same attentions: the second covers nobody new. */
  lemma SecondFinalRepeats(l: Ledger, x: TurnId, one: AgentItem, two: AgentItem, live: bool, epoch: nat, now: int, b: AttId)
    requires b in LiveOn(l, x) && b !in Coverage(Ops(l.relays), x, Final)
    requires AcceptedForTurn(l, x) != {} && b !in AcceptedForTurn(l, x)
    requires one.phase.FinalPhase? && one.text != NO_REPLY_SENTINEL && one.text != "" && !HasItem(l.relays, x, one.id)
    requires two.phase.FinalPhase? && two.text != NO_REPLY_SENTINEL && two.text != "" && !HasItem(l.relays, x, two.id)
    requires one.id != two.id
    ensures var m := RecordItem(RecordItem(l, x, one, live, epoch, now), x, two, live, epoch, now);
            |m.relays| == |l.relays| + 2 && !EachFinalNew(Ops(m.relays), x)
  {
    GateStaysOpen(l, x, one, live, epoch, now, b);
    FinalIsAppended(l, x, one, live, epoch, now, b);
    var first := RecordItem(l, x, one, live, epoch, now);
    hide RecordItem, AcceptedForTurn, LiveOn, HasItem;
    FinalIsAppended(first, x, two, live, epoch, now, b);
    var m := RecordItem(first, x, two, live, epoch, now);
    var covered, n, ops := AcceptedForTurn(l, x), |l.relays|, Ops(m.relays);
    assert |ops| == n + 2;
    assert ops[..n + 1] == Ops(first.relays) && ops[..n + 1][..n] == Ops(l.relays);
    assert ops[n + 1].turn == x && ops[n + 1].kind.Final? && ops[n + 1].covered == covered;
    assert covered <= Coverage(ops[..n + 1], x, Final);
  }

  lemma FirstCommentary(l: Ledger, x: TurnId, item: AgentItem, live: bool, epoch: nat, now: int)
    requires item.phase.CommentaryPhase? && item.text != NO_REPLY_SENTINEL && item.text != ""
    requires l.relays == [] && AcceptedForTurn(l, x) != {}
    ensures var m := RecordItem(l, x, item, live, epoch, now);
            && Ops(m.relays) == [OpId(AcceptedForTurn(l, x), x, item.id, Commentary)] && m == l.(relays := m.relays)
  {
    assert !HasKind(Ops(l.relays), x, Commentary);
    assert !HasItem(l.relays, x, item.id);
    assert OutputKind(l, x, item) == Commentary;
    hide OutputKind, AcceptedForTurn;
  }

  /** A direct attention without a row lets a second commentary through, which covers nobody new. */
  lemma SecondCommentaryRepeats(l: Ledger, x: TurnId, one: AgentItem, two: AgentItem, live: bool, epoch: nat, now: int, b: AttId, direct: set<AttId>)
    requires one.phase.CommentaryPhase? && one.text != NO_REPLY_SENTINEL && one.text != ""
    requires two.phase.CommentaryPhase? && two.text != NO_REPLY_SENTINEL && two.text != "" && one.id != two.id
    requires l.relays == [] && AcceptedForTurn(l, x) != {}
    requires b in LiveOn(l, x) && Direct(l.attentions[b].priority) && b !in AcceptedForTurn(l, x)
    ensures var m := RecordItem(RecordItem(l, x, one, live, epoch, now), x, two, live, epoch, now);
            |m.relays| == 2 && !EachCommentaryNew(Ops(m.relays), x, direct)
  {
    FirstCommentary(l, x, one, live, epoch, now);
    var first, covered := RecordItem(l, x, one, live, epoch, now), AcceptedForTurn(l, x);
    hide RecordItem;
    OneCommentary(l, first, x, one.id, two, b);
    SecondCommentary(first, x, two, live, epoch, now, covered, one.id);
    var m := RecordItem(first, x, two, live, epoch, now);
    var ops := Ops(m.relays);
    assert ops[..1] == [ops[0]] && ops[..1][..0] == [];
    assert HasKind(ops[..1], x, Commentary) && Coverage(ops[..1], x, Commentary) == covered;
  }

  /** After the first commentary the gate is open for `b` alone. */
  lemma OneCommentary(l: Ledger, m: Ledger, x: TurnId, item: ItemId, two: AgentItem, b: AttId)
    requires m == l.(relays := m.relays) && Ops(m.relays) == [OpId(AcceptedForTurn(l, x), x, item, Commentary)]
    requires b in LiveOn(l, x) && Direct(l.attentions[b].priority) && b !in AcceptedForTurn(l, x) && item != two.id
    requires two.phase.CommentaryPhase? && two.text != NO_REPLY_SENTINEL
    ensures OutputKind(m, x, two) == Commentary && AcceptedForTurn(m, x) == AcceptedForTurn(l, x) && !HasItem(m.relays, x, two.id)
  {
    assert AcceptedForTurn(m, x) == AcceptedForTurn(l, x);
    var ops := Ops(m.relays);
    assert ops[..0] == [] && Coverage(ops, x, Commentary) == AcceptedForTurn(l, x);
    assert b in LiveOn(m, x) && AllowsCommentary(m, x);
    forall r | r in m.relays ensures r.op == ops[0] {
      var i :| 0 <= i < |m.relays| && m.relays[i] == r;
    }
  }

  lemma SecondCommentary(l: Ledger, x: TurnId, item: AgentItem, live: bool, epoch: nat, now: int, covered: set<AttId>, before: ItemId)
    requires OutputKind(l, x, item) == Commentary && AcceptedForTurn(l, x) == covered && covered != {} && item.text != ""
    requires !HasItem(l.relays, x, item.id) && Ops(l.relays) == [OpId(covered, x, before, Commentary)]
    ensures Ops(RecordItem(l, x, item, live, epoch, now).relays) == [OpId(covered, x, before, Commentary), OpId(covered, x, item.id, Commentary)]
  {
    hide OutputKind, AcceptedForTurn;
    assert !RelayTaken(l.relays, OpId(covered, x, item.id, Commentary));
  }

  // ---- A concrete run ----

  const X := TurnId(THREAD, 1)
  const STOP: AttId := 3

  const TASK := Incoming(ExplicitTask, Work, 0)
  const CHAT := Incoming(DirectUser, Work, 0)
  const HALT := Incoming(SecurityControl, StopControl, 0)

  /** Two tasks and a direct message. */
  function Received(): World {
    Ready(map[0 := TASK, 1 := TASK, 2 := CHAT]).(direct := {2})
  }

  lemma ReachReceived()
    ensures Reachable(Received())
  {
    hide Reachable;
    ReachReady();
    Receive(Ready(map[]), 0, TASK, 1);
    assert Ready(map[]).db.attentions[0 := TASK] == map[0 := TASK];
    Receive(Ready(map[0 := TASK]), 1, TASK, 1);
    assert Ready(map[0 := TASK]).db.attentions[1 := TASK] == map[0 := TASK, 1 := TASK];
    Receive(Ready(map[0 := TASK, 1 := TASK]), 2, CHAT, 1);
    assert Ready(map[0 := TASK, 1 := TASK]).db.attentions[2 := CHAT] == map[0 := TASK, 1 := TASK, 2 := CHAT];
    assert Ready(map[]).direct + {2} == {2};
  }

  function On(row: Attention): Attention {
    row.(accepted := Some(1), turn := Some(X), epoch := Some(1), attempts := 1)
  }

  function Done(operation: Operation): Intent {
    Intent(ROOM, THREAD, operation, Accepted, Some(X), 1, 1)
  }

  function Turns(): Turns {
    map[X := TurnRow(ROOM, THREAD, 1, 1, None, None)]
  }

  function First(): World {
    Received().(
      db := Received().db.(
        attentions := map[0 := On(TASK), 1 := TASK, 2 := CHAT], turns := Turns(), slots := map[X := map[0 := 0]],
        intents := map[0 := Done(StartTurn)]),
      inputs := [Input(X, 0)], accepted := multiset{0}, joined := map[X := {0}])
  }

  function Second(): World {
    Received().(
      db := Received().db.(
        attentions := map[0 := On(TASK), 1 := On(TASK), 2 := CHAT], turns := Turns(), slots := map[X := map[0 := 0, 1 := 1]],
        intents := map[0 := Done(StartTurn), 1 := Done(SteerTurn)]),
      inputs := [Input(X, 0), Input(X, 1)], accepted := multiset{0, 1}, joined := map[X := {0, 1}])
  }

  /** All three are on the turn, in that order. */
  function Loaded(): World {
    Received().(
      db := Received().db.(
        attentions := map[0 := On(TASK), 1 := On(TASK), 2 := On(CHAT)], turns := Turns(),
        slots := map[X := map[0 := 0, 1 := 1, 2 := 2]],
        intents := map[0 := Done(StartTurn), 1 := Done(SteerTurn), 2 := Done(SteerTurn)]),
      inputs := [Input(X, 0), Input(X, 1), Input(X, 2)], accepted := multiset{0, 1, 2}, joined := map[X := {0, 1, 2}])
  }

  lemma JoinsFirst()
    ensures Ripe(Received(), 0, 1) && Joined(Received(), 0, X, StartTurn, 1, 1) == First()
  {
    assert Finalize(Prepare(Received().db, 0, THREAD, StartTurn, 1, 1), 0, THREAD, X, 1, false, 1) == First().db;
    hide Finalize, Prepare;
  }

  lemma JoinsSecondRow()
    ensures Finalize(Prepare(First().db, 1, THREAD, SteerTurn, 1, 1), 1, THREAD, X, 1, false, 1) == Second().db
  {
    var m := map[0 := 0];
    assert Join(m, 1) == map[0 := 0, 1 := 1] by {
      assert m[0] == 0 && m.Values == {0};
    }
  }

  lemma JoinsSecond()
    ensures Ripe(First(), 1, 1) && Joined(First(), 1, X, SteerTurn, 1, 1) == Second()
  {
    hide Finalize, Prepare;
    JoinsSecondRow();
    assert JoinedOf(First().joined, X) + {1} == {0, 1};
    assert First().joined[X := JoinedOf(First().joined, X) + {1}] == map[X := {0, 1}];
    assert First().inputs + [Input(X, 1)] == Second().inputs;
  }

  lemma JoinsThirdRow()
    ensures Finalize(Prepare(Second().db, 2, THREAD, SteerTurn, 1, 1), 2, THREAD, X, 1, false, 1) == Loaded().db
  {
    var m := map[0 := 0, 1 := 1];
    assert Join(m, 2) == map[0 := 0, 1 := 1, 2 := 2] by {
      assert m.Values == {0, 1} by {
        assert m[0] == 0 && m[1] == 1;
      }
    }
  }

  lemma JoinsThird()
    ensures Ripe(Second(), 2, 1) && Joined(Second(), 2, X, SteerTurn, 1, 1) == Loaded()
  {
    hide Finalize, Prepare;
    JoinsThirdRow();
    assert JoinedOf(Second().joined, X) + {2} == {0, 1, 2};
    assert Second().joined[X := JoinedOf(Second().joined, X) + {2}] == map[X := {0, 1, 2}];
    assert Second().inputs + [Input(X, 2)] == Loaded().inputs;
  }

  lemma ReachLoaded()
    ensures Reachable(Loaded())
  {
    hide Reachable, Joined, Ripe, Received, First, Second, Loaded;
    ReachReceived();
    JoinsFirst();
    ReachJoined(Received(), 0, X, StartTurn, 1, 1);
    JoinsSecond();
    ReachJoined(First(), 1, X, SteerTurn, 1, 1);
    JoinsThird();
    ReachJoined(Second(), 2, X, SteerTurn, 1, 1);
  }

  // ---- A stop detaches the two tasks and leaves the message at position 2 ----

  function Asked(): World {
    Loaded().(db := Loaded().db.(attentions := Loaded().db.attentions[STOP := HALT]))
  }

  const AGAIN := TASK.(attempts := 1, nextAttempt := 2)
  const HALTED := HALT.(accepted := Some(2), turnCompleted := Some(2), terminal := Some(Cancelled), epoch := Some(1), attempts := 1)

  function Cleared(halt: Attention): Ledger {
    Loaded().db.(
      attentions := map[0 := AGAIN, 1 := AGAIN, STOP := halt,
                        2 := On(CHAT).(turnCompleted := Some(2), terminal := Some(Interrupted))],
      turns := map[X := TurnRow(ROOM, THREAD, 1, 1, Some(2), Some(Interrupted))],
      slots := map[X := map[2 := 2]])
  }

  function Stopped(): World {
    Loaded().(requeued := multiset{0, 1}, torn := {X}, db := Cleared(HALTED))
  }

  lemma StopFinds()
    ensures Members(Asked().db.slots, X) == {0, 1, 2} && StopRequeued(Asked().db, X) == {0, 1}
  {
    var m := map[0 := 0, 1 := 1, 2 := 2];
    assert Members(Asked().db.slots, X) == {0, 1, 2} by {
      assert m[0] == 0 && m[1] == 1 && m[2] == 2;
    }
  }

  lemma StopsRows()
    ensures StopRows(Asked().db.attentions, {0, 1, 2}, {0, 1}, 2) == Cleared(HALT).attentions
  {
  }

  lemma StopDetachesTasks()
    ensures Detach(map[0 := 0, 1 := 1, 2 := 2], {0, 1}) == map[2 := 2]
  {
  }

  lemma StopsTasks()
    ensures InterruptTurn(Asked().db, X, 2) == Cleared(HALT)
  {
    assert Asked().db.slots[X] == map[0 := 0, 1 := 1, 2 := 2];
    hide Members, StopRequeued, Detach, StopRows;
    StopFinds();
    StopsRows();
    StopDetachesTasks();
    assert SuppressFor(Asked().db.relays, {X}) == [];
  }

  lemma ClosesStop()
    ensures CancelPending(Cleared(HALT), STOP, 1, 2) == Cleared(HALTED)
  {
    assert StopCancelled(Cleared(HALT), STOP) == {};
  }

  lemma PositionTwoIsLeft()
    ensures X in Asked().db.turns && !Dense(SlotsOf(Cleared(HALT).slots, X))
  {
    assert 2 in map[2 := 2] && |map[2 := 2]| == 1;
  }

  lemma ReachAsked()
    ensures Reachable(Asked()) && Asked().phase.Idle? && Asked().requeued == multiset{} && Asked().torn == {}
  {
    hide Reachable;
    ReachLoaded();
    Receive(Loaded(), STOP, HALT, 2);
  }

  lemma ReachStopped()
    ensures Reachable(Stopped())
  {
    hide Reachable, InterruptTurn, StopRequeued, CancelPending, Dense, SlotsOf, Loaded;
    ReachAsked();
    StopFinds();
    StopsTasks();
    PositionTwoIsLeft();
    ClosesStop();
    var stopped := Asked().(db := Cleared(HALT), requeued := multiset{0, 1}, torn := {X});
    assert multiset({0, 1}) == multiset{0, 1};
    Control(Asked(), At(Event.Stopped(X), 2, 1), stopped);
    Control(stopped, At(StopAcknowledged(STOP), 2, 1), stopped.(db := Cleared(HALTED)));
  }

  // ---- Two crashes, and recovery binds both tasks to the turn again ----

  /** Full history of the thread. */
  const HISTORY := [HistoryTurn(X, [0, 1, 2])]

  function Retried(epoch: nat, at: int): Intent {
    Intent(ROOM, THREAD, StartTurn, Reconciled, Some(X), at, epoch + 1)
  }

  function Bound(epoch: nat, now: int): Attention {
    AGAIN.(accepted := Some(now), turn := Some(X), epoch := Some(epoch), attempts := 2)
  }

  /** The first task takes position 1. */
  function FirstBack(): World {
    Stopped().(db := Stopped().db.(
      attentions := Stopped().db.attentions[0 := Bound(2, 4)],
      slots := map[X := map[2 := 2, 1 := 0]], intents := Stopped().db.intents[0 := Retried(1, 3)]))
  }

  /** The second finds position 2 taken: it is accepted on the turn, and not a member. */
  function SecondBack(): World {
    FirstBack().(db := FirstBack().db.(
      attentions := FirstBack().db.attentions[1 := Bound(3, 6)], intents := FirstBack().db.intents[1 := Retried(2, 5)]))
  }

  lemma FirstRow()
    ensures Finalize(Prepare(Stopped().db, 0, THREAD, StartTurn, 1, 3), 0, THREAD, X, 2, true, 4) == FirstBack().db
  {
    var m := map[2 := 2];
    assert Join(m, 0) == map[2 := 2, 1 := 0] by {
      assert m[2] == 2 && m.Values == {2} && |m| == 1;
    }
  }

  lemma SecondRow()
    ensures Finalize(Prepare(FirstBack().db, 1, THREAD, StartTurn, 2, 5), 1, THREAD, X, 3, true, 6) == SecondBack().db
  {
    var m := map[2 := 2, 1 := 0];
    assert |m| == 2 && Join(m, 1) == m;
  }

  lemma FirstRebinds()
    ensures Ripe(Stopped(), 0, 3) && Rebound(CutShort(Stopped(), 0, None, 1, 3), 0, X, 2, 4) == FirstBack()
  {
    hide Finalize, Prepare;
    FirstRow();
    assert JoinedOf(Stopped().joined, X) + {0} == {0, 1, 2};
    assert Stopped().joined[X := {0, 1, 2}] == Stopped().joined;
  }

  lemma SecondRebinds()
    ensures Ripe(FirstBack(), 1, 5) && Rebound(CutShort(FirstBack(), 1, None, 2, 5), 1, X, 3, 6) == SecondBack()
  {
    hide Finalize, Prepare;
    SecondRow();
    assert JoinedOf(FirstBack().joined, X) + {1} == {0, 1, 2};
    assert FirstBack().joined[X := {0, 1, 2}] == FirstBack().joined;
  }

  lemma ReachFirstBack()
    ensures Reachable(FirstBack())
  {
    hide Reachable, Rebound;
    var cut := CutShort(Stopped(), 0, None, 1, 3);
    ReachStopped();
    FirstRebinds();
    assert Stale(FirstBack().db, 2) == {};
    assert NoOtherPrepared(cut.db.intents, 0) && cut.unbound <= {0};
    assert TurnForClientMessage(HISTORY, 0) == Some(X);
    hide Stale, FirstBack, TurnForClientMessage;
    ReachCutShort(Stopped(), 0, None, 1, 3);
    ReachRebound(cut, 0, X, HISTORY, 2, 4);
  }

  lemma ReachSecondBack()
    ensures Reachable(SecondBack())
  {
    hide Reachable, Rebound;
    var cut := CutShort(FirstBack(), 1, None, 2, 5);
    ReachFirstBack();
    SecondRebinds();
    assert Stale(SecondBack().db, 3) == {};
    assert NoOtherPrepared(cut.db.intents, 1) && cut.unbound <= {1};
    assert TurnForClientMessage(HISTORY, 1) == Some(X);
    hide Stale, SecondBack, TurnForClientMessage;
    ReachCutShort(FirstBack(), 1, None, 2, 5);
    ReachRebound(cut, 1, X, HISTORY, 3, 6);
  }

  /** In a run of the adapter an attention is accepted on a turn, unanswered, and not a member of it. */
  lemma StopLeavesAStranger()
    ensures exists run :: Legal(run) && 1 in LiveOn(After(run).db, X) && 1 !in Members(After(run).db.slots, X)
  {
    hide Legal, After;
    ReachSecondBack();
    var run :| Legal(run) && After(run) == SecondBack();
    StrangerWaits();
    assert 1 in LiveOn(SecondBack().db, X) && 1 !in Members(SecondBack().db.slots, X);
  }

  lemma StrangerWaits()
    ensures var l := SecondBack().db;
            && 1 in LiveOn(l, X) && 1 !in Members(l.slots, X) && AcceptedForTurn(l, X) == {0} && l.relays == []
  {
    var m := map[2 := 2, 1 := 0];
    assert m[2] == 2 && m[1] == 0 && m.Values == {0, 2};
    assert Members(SecondBack().db.slots, X) == {0, 2};
  }

  const ONE := AgentItem(Item(1), "one", FinalPhase)
  const TWO := AgentItem(Item(2), "two", FinalPhase)

  /** And from there two finals are written that cover the same attention. */
  lemma FinalBudgetBreaks()
    ensures exists run :: Legal(run) && |After(run).db.relays| == 2 && !EachFinalNew(Ops(After(run).db.relays), X)
  {
    var w := SecondBack();
    StrangerWaits();
    assert Ops(w.db.relays) == [];
    hide Reachable, RecordItem, LiveOn, AcceptedForTurn, SecondBack, Members, EachFinalNew, Ops;
    ReachSecondBack();
    SecondFinalRepeats(w.db, X, ONE, TWO, true, 3, 7, 1);
    var first := w.(db := RecordItem(w.db, X, ONE, true, 3, 7));
    Output(w, At(ItemRecorded(X, ONE, true), 7, 3), first);
    var second := first.(db := RecordItem(first.db, X, TWO, true, 3, 7));
    Output(first, At(ItemRecorded(X, TWO, true), 7, 3), second);
    Witness(second);
  }

  lemma Witness(w: World)
    requires Reachable(w) && |w.db.relays| == 2 && !EachFinalNew(Ops(w.db.relays), X)
    ensures exists run :: Legal(run) && |After(run).db.relays| == 2 && !EachFinalNew(Ops(After(run).db.relays), X)
  {
    hide Legal, After, EachFinalNew;
    var run :| Legal(run) && After(run) == w;
  }

  // ---- After the first crash alone: a direct message is steered into the turn, and is ignored too ----

  const CALL: AttId := 4

  function Called(): World {
    FirstBack().(direct := {2, CALL}, db := FirstBack().db.(attentions := FirstBack().db.attentions[CALL := CHAT]))
  }

  function Steered(): World {
    Joined(Called(), CALL, X, SteerTurn, 2, 5)
  }

  lemma ReachSteered()
    ensures Reachable(Steered())
  {
    hide Reachable, Joined;
    ReachFirstBack();
    assert FirstBack().direct + {CALL} == {2, CALL};
    Receive(FirstBack(), CALL, CHAT, 5);
    ReachJoined(Called(), CALL, X, SteerTurn, 2, 5);
  }

  lemma CallWaits()
    ensures var l := Steered().db;
            && CALL in LiveOn(l, X) && Direct(l.attentions[CALL].priority) && AcceptedForTurn(l, X) == {0} && l.relays == []
  {
    var m := map[2 := 2, 1 := 0];
    assert m[2] == 2 && m[1] == 0 && m.Values == {0, 2} && |m| == 2;
    assert Join(m, CALL) == m;
    assert Steered().db.slots[X] == m;
    assert Members(Steered().db.slots, X) == {0, 2};
  }

  const NOTE := AgentItem(Item(1), "one", CommentaryPhase)
  const MORE := AgentItem(Item(2), "two", CommentaryPhase)

  /** A run of the adapter in which a turn gets two commentaries, and the second covers no new direct attention. */
  lemma CommentaryBudgetBreaks()
    ensures exists run :: Legal(run) && |After(run).db.relays| == 2 && !EachCommentaryNew(Ops(After(run).db.relays), X, After(run).direct)
  {
    hide Reachable, RecordItem, LiveOn, AcceptedForTurn, Steered, Members, EachCommentaryNew, Ops;
    var w := Steered();
    CallWaits();
    ReachSteered();
    UpAndIdle();
    SecondCommentaryRepeats(w.db, X, NOTE, MORE, true, 2, 6, CALL, w.direct);
    var first := w.(db := RecordItem(w.db, X, NOTE, true, 2, 6));
    Output(w, At(ItemRecorded(X, NOTE, true), 6, 2), first);
    var second := first.(db := RecordItem(first.db, X, MORE, true, 2, 6));
    Output(first, At(ItemRecorded(X, MORE, true), 6, 2), second);
    CommentaryWitness(second);
  }

  lemma UpAndIdle()
    ensures Steered().phase.Idle?
  {
  }

  lemma CommentaryWitness(w: World)
    requires Reachable(w) && |w.db.relays| == 2 && !EachCommentaryNew(Ops(w.db.relays), X, w.direct)
    ensures exists run :: Legal(run) && |After(run).db.relays| == 2 && !EachCommentaryNew(Ops(After(run).db.relays), X, After(run).direct)
  {
    hide Legal, After, EachCommentaryNew;
    var run :| Legal(run) && After(run) == w;
  }
}
