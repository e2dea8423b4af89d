/**
  Exactly when a turn keeps its output budgets. The gates of `handle_agent_item` look at the attentions
  whose row names the turn, while an output covers the members of the turn; a stop can make the two differ.
 */
module OutputLimits {
  import opened Common
  import opened Ledgers
  import opened LedgerInvariants
  import opened AgentOutput
  import opened AdapterRuns
  import opened AdapterTheorems

  /** Among `ids`, those the output of this step may answer: a fallback answers whom its held item covered. */
  ghost function Within(e: Event, ids: set<AttId>): set<AttId> {
    if e.FallbackRecorded? then ids * e.held.op.covered else ids
  }

  /** The final gate lets the step through only for attentions that name the turn without being its members. */
  ghost predicate OnlyStrangersWait(w: World, e: Event, x: TurnId) {
    Within(e, Uncovered(w.db, x)) !! Members(w.db.slots, x)
  }

  ghost function DirectWaiting(l: Ledger, x: TurnId): set<AttId> {
    set a | a in LiveOn(l, x) && Direct(l.attentions[a].priority) && a !in Coverage(Ops(l.relays), x, Commentary)
  }

  ghost predicate OnlyDirectStrangersWait(w: World, e: Event, x: TurnId) {
    Within(e, DirectWaiting(w.db, x)) !! Members(w.db.slots, x)
  }

  /** The step added an output of this kind to the turn. */
  ghost predicate Writes(before: seq<OpId>, after: seq<OpId>, x: TurnId, kind: RelayKind) {
    |after| == |before| + 1 && after[|before|].turn == x && after[|before|].kind == kind
  }

  lemma LiveMembers(w: World, e: Event, op: OpId)
    requires Good(w) && Appends(w, e, op)
    ensures op.covered == Within(e, LiveOn(w.db, op.turn)) * Members(w.db.slots, op.turn)
  {
    assert MembersOk(w.db.attentions, w.db.turns, w.db.slots);
  }

  /** An output covers nobody that finals do not cover already exactly when only strangers wait. */
  lemma CoversNobodyNewIff(w: World, e: Event, op: OpId)
    requires Good(w) && Appends(w, e, op)
    ensures op.covered <= Coverage(Ops(w.db.relays), op.turn, Final) <==> OnlyStrangersWait(w, e, op.turn)
  {
    LiveMembers(w, e, op);
    hide Good, Appends, LiveOn, Coverage, Members;
    var waiting := Within(e, Uncovered(w.db, op.turn)) * Members(w.db.slots, op.turn);
    assert waiting == op.covered - Coverage(Ops(w.db.relays), op.turn, Final);
  }

  lemma CoversNoDirectIff(w: World, e: Event, op: OpId)
    requires Good(w) && Appends(w, e, op)
    ensures op.covered * w.direct <= Coverage(Ops(w.db.relays), op.turn, Commentary) <==> OnlyDirectStrangersWait(w, e, op.turn)
  {
    LiveMembers(w, e, op);
    assert forall a :: a in w.direct <==> a in w.db.attentions && Direct(w.db.attentions[a].priority);
    hide Good, Appends, Coverage, Members;
    var waiting := Within(e, DirectWaiting(w.db, op.turn)) * Members(w.db.slots, op.turn);
    assert waiting == op.covered * w.direct - Coverage(Ops(w.db.relays), op.turn, Commentary);
  }

  lemma {:induction false} AppendedFinal(ops: seq<OpId>, op: OpId, x: TurnId)
    ensures EachFinalNew(ops + [op], x) <==>
              EachFinalNew(ops, x) && (op.turn == x && op.kind.Final? ==> !(op.covered <= Coverage(ops, x, Final)))
  {
    var more := ops + [op];
    assert more[..|ops|] == ops && more[|ops|] == op;
    assert forall j :: 0 <= j < |ops| ==> more[..j] == ops[..j] && more[j] == ops[j];
  }

  lemma {:induction false} AppendedCommentary(ops: seq<OpId>, op: OpId, x: TurnId, direct: set<AttId>)
    ensures EachCommentaryNew(ops + [op], x, direct) <==>
              EachCommentaryNew(ops, x, direct)
              && (op.turn == x && op.kind.Commentary? && HasKind(ops, x, Commentary) ==> !(op.covered * direct <= Coverage(ops, x, Commentary)))
  {
    var more := ops + [op];
    assert more[..|ops|] == ops && more[|ops|] == op;
    assert forall j :: 0 <= j < |ops| ==> more[..j] == ops[..j] && more[j] == ops[j];
  }

  lemma SameWithin(covered: set<AttId>, direct: set<AttId>, later: set<AttId>, known: set<AttId>)
    requires covered <= known && later * known == direct * known
    ensures covered * later == covered * direct
  {
    assert covered * later == covered * (later * known);
    assert covered * direct == covered * (direct * known);
  }

  /** Later direct attentions are nobody that earlier output covers. */
  lemma LaterDirect(ops: seq<OpId>, x: TurnId, direct: set<AttId>, later: set<AttId>, known: set<AttId>)
    requires later * known == direct * known && forall op :: op in ops ==> op.covered <= known
    ensures EachCommentaryNew(ops, x, later) <==> EachCommentaryNew(ops, x, direct)
  {
    forall j | 0 <= j < |ops| ensures ops[j].covered * later == ops[j].covered * direct {
      assert ops[j] in ops;
      SameWithin(ops[j].covered, direct, later, known);
    }
  }

  lemma StepDirect(w: World, at: At)
    requires Good(w) && Enabled(w, at.event, at.now)
    ensures Apply(w, at).direct * w.db.attentions.Keys == w.direct * w.db.attentions.Keys
  {
    hide Good;
    if at.event.Ingested? {
    } else if RecoveryEvent(at.event) {
      RecoveryDirect(w, at);
    } else if DispatchEvent(at.event) {
      DispatchDirect(w, at);
    } else if OutputEvent(at.event) {
      OutputDirect(w, at);
    } else {
      ControlDirect(w, at);
    }
  }

  lemma RecoveryDirect(w: World, at: At)
    requires RecoveryEvent(at.event) && RecoveryEnabled(w, at.event)
    ensures ApplyRecovery(w, at).direct == w.direct
  {
  }

  lemma DispatchDirect(w: World, at: At)
    requires DispatchEvent(at.event) && DispatchEnabled(w, at.event, at.now) && !at.event.Ingested?
    ensures ApplyDispatch(w, at).direct == w.direct
  {
  }

  lemma OutputDirect(w: World, at: At)
    requires OutputEvent(at.event) && OutputEnabled(w, at.event)
    ensures ApplyOutput(w, at).direct == w.direct
  {
  }

  lemma ControlDirect(w: World, at: At)
    requires ControlEvent(at.event) && ControlEnabled(w, at.event)
    ensures ApplyControl(w, at).direct == w.direct
  {
  }

  // ---- All runs ----

  /** The code writes an output of this kind for the item: it is new, it covers somebody, and the gate lets it through. */
  predicate ItemPasses(l: Ledger, x: TurnId, item: AgentItem, kind: RelayKind) {
    item.text != "" && !HasItem(l.relays, x, item.id) && AcceptedForTurn(l, x) != {} && OutputKind(l, x, item) == kind
  }

  /** Before the step: it will write a final on `x`. */
  predicate MayWriteFinal(w: World, e: Event, x: TurnId) {
    match e
    case ItemRecorded(y, item, _) => y == x && ItemPasses(w.db, x, item, Final)
    case FallbackRecorded(y, held, _) =>
      y == x && AcceptedForTurn(w.db, x) * held.op.covered != {}
      && !RelayTaken(w.db.relays, OpId({}, x, Fallback(held.op.item), Final))
    case _ => false
  }

  predicate MayWriteCommentary(w: World, e: Event, x: TurnId) {
    e.ItemRecorded? && e.x == x && ItemPasses(w.db, x, e.item, Commentary)
  }

  /** Before the step: a final will be written on `x` although only strangers wait for one. */
  ghost predicate RepeatsFinal(w: World, e: Event, x: TurnId) {
    MayWriteFinal(w, e, x) && OnlyStrangersWait(w, e, x)
  }

  ghost predicate RepeatsCommentary(w: World, e: Event, x: TurnId) {
    MayWriteCommentary(w, e, x) && HasKind(Ops(w.db.relays), x, Commentary) && OnlyDirectStrangersWait(w, e, x)
  }

  lemma CreateWrites(l: Ledger, op: OpId, text: string, live: bool, epoch: nat, now: int)
    ensures var m := CreateOutput(l, op, text, live, epoch, now);
            if op.covered == {} || RelayTaken(l.relays, op) then m == l else Ops(m.relays) == Ops(l.relays) + [op]
  {
  }

  lemma ItemWrites(l: Ledger, x: TurnId, item: AgentItem, live: bool, epoch: nat, now: int, kind: RelayKind)
    ensures Writes(Ops(l.relays), Ops(RecordItem(l, x, item, live, epoch, now).relays), x, kind) <==> ItemPasses(l, x, item, kind)
  {
    if item.text != "" && !HasItem(l.relays, x, item.id) {
      var op := OpId(AcceptedForTurn(l, x), x, item.id, OutputKind(l, x, item));
      CreateWrites(l, op, item.text, live, epoch, now);
      assert !RelayTaken(l.relays, op);
      hide CreateOutput, AcceptedForTurn, OutputKind, HasItem;
    }
  }

  lemma FallbackWrites(l: Ledger, x: TurnId, held: Relay, live: bool, epoch: nat, now: int, kind: RelayKind)
    ensures Writes(Ops(l.relays), Ops(RecordFallback(l, x, held, live, epoch, now).relays), x, kind) <==>
              kind == Final && AcceptedForTurn(l, x) * held.op.covered != {}
              && !RelayTaken(l.relays, OpId({}, x, Fallback(held.op.item), Final))
  {
    var op := OpId(AcceptedForTurn(l, x) * held.op.covered, x, Fallback(held.op.item), Final);
    CreateWrites(l, op, held.text, live, epoch, now);
    hide CreateOutput, AcceptedForTurn;
  }

  lemma ElsewhereNothingIsWritten(w: World, at: At, x: TurnId, kind: RelayKind)
    requires Enabled(w, at.event, at.now) && !(at.event.ItemRecorded? && at.event.x == x) && !(at.event.FallbackRecorded? && at.event.x == x)
    ensures !Writes(Ops(w.db.relays), Ops(Apply(w, at).db.relays), x, kind)
  {
    hide Apply, Enabled, Ops;
    StepAppendsOps(w, at);
  }

  /** What a step writes is decided before it. */
  lemma WritesIff(w: World, at: At, x: TurnId)
    requires Enabled(w, at.event, at.now)
    ensures Writes(Ops(w.db.relays), Ops(Apply(w, at).db.relays), x, Final) <==> MayWriteFinal(w, at.event, x)
    ensures Writes(Ops(w.db.relays), Ops(Apply(w, at).db.relays), x, Commentary) <==> MayWriteCommentary(w, at.event, x)
  {
    hide Writes, Ops, ItemPasses, RecordItem, RecordFallback, AcceptedForTurn, RelayTaken, LatestCandidate, Promotes;
    if at.event.ItemRecorded? && at.event.x == x {
      ItemWrites(w.db, x, at.event.item, at.event.live, at.epoch, at.now, Final);
      ItemWrites(w.db, x, at.event.item, at.event.live, at.epoch, at.now, Commentary);
    } else if at.event.FallbackRecorded? && at.event.x == x {
      FallbackWrites(w.db, x, at.event.held, at.event.live, at.epoch, at.now, Final);
      FallbackWrites(w.db, x, at.event.held, at.event.live, at.epoch, at.now, Commentary);
    } else {
      ElsewhereNothingIsWritten(w, at, x, Final);
      ElsewhereNothingIsWritten(w, at, x, Commentary);
    }
  }

  lemma StepFinal(w: World, at: At, x: TurnId)
    requires Good(w) && Enabled(w, at.event, at.now)
    ensures EachFinalNew(Ops(Apply(w, at).db.relays), x) <==> EachFinalNew(Ops(w.db.relays), x) && !RepeatsFinal(w, at.event, x)
  {
    hide Good, Apply, Enabled, OnlyStrangersWait, EachFinalNew, Coverage, Appends, MayWriteFinal, MayWriteCommentary;
    WritesIff(w, at, x);
    StepAppendsOps(w, at);
    var before, after := Ops(w.db.relays), Ops(Apply(w, at).db.relays);
    if after != before {
      var op := after[|before|];
      assert after == before + [op];
      AppendedFinal(before, op, x);
      CoversNobodyNewIff(w, at.event, op);
    }
  }

  lemma AppendRepeats(w: World, e: Event, op: OpId, x: TurnId, direct: set<AttId>)
    requires Good(w) && Appends(w, e, op) && direct * w.db.attentions.Keys == w.direct * w.db.attentions.Keys
    ensures var ops := Ops(w.db.relays);
            EachCommentaryNew(ops + [op], x, direct) <==>
              EachCommentaryNew(ops, x, w.direct)
              && !(op.turn == x && op.kind.Commentary? && HasKind(ops, x, Commentary) && OnlyDirectStrangersWait(w, e, x))
  {
    CoveredAreKnown(w);
    AppendCovers(w, e, op);
    CoversNoDirectIff(w, e, op);
    hide Good, Appends, OnlyDirectStrangersWait, EachCommentaryNew, Coverage, HasKind, Ops;
    var ops := Ops(w.db.relays);
    LaterDirect(ops, x, w.direct, direct, w.db.attentions.Keys);
    AppendedCommentary(ops, op, x, direct);
    SameWithin(op.covered, w.direct, direct, w.db.attentions.Keys);
  }

  lemma StepCommentary(w: World, at: At, x: TurnId)
    requires Good(w) && Enabled(w, at.event, at.now)
    ensures var v := Apply(w, at);
            EachCommentaryNew(Ops(v.db.relays), x, v.direct)
            <==> EachCommentaryNew(Ops(w.db.relays), x, w.direct) && !RepeatsCommentary(w, at.event, x)
  {
    hide Good, Apply, Enabled, OnlyDirectStrangersWait, EachCommentaryNew, Coverage, Appends, HasKind, MayWriteFinal, MayWriteCommentary;
    WritesIff(w, at, x);
    var before, after, direct := Ops(w.db.relays), Ops(Apply(w, at).db.relays), Apply(w, at).direct;
    StepDirect(w, at);
    StepAppendsOps(w, at);
    if after == before {
      CoveredAreKnown(w);
      LaterDirect(before, x, w.direct, direct, w.db.attentions.Keys);
    } else {
      var op := after[|before|];
      assert after == before + [op];
      AppendRepeats(w, at.event, op, x, direct);
    }
  }

  lemma AppendCovers(w: World, e: Event, op: OpId)
    requires Appends(w, e, op)
    ensures op.covered <= w.db.attentions.Keys
  {
  }

  lemma CoveredAreKnown(w: World)
    requires Good(w)
    ensures forall op :: op in Ops(w.db.relays) ==> op.covered <= w.db.attentions.Keys
  {
    forall op | op in Ops(w.db.relays) ensures op.covered <= w.db.attentions.Keys {
      var i :| 0 <= i < |w.db.relays| && Ops(w.db.relays)[i] == op;
      assert w.db.relays[i] in w.db.relays && CoverageOk(w.db.attentions, w.db.relays);
    }
  }

  ghost predicate NeverRepeatsFinal(run: seq<At>, x: TurnId)
    requires Legal(run)
    decreases |run|
  {
    run == [] ||
    var n := |run| - 1;
    NeverRepeatsFinal(run[..n], x) && !RepeatsFinal(After(run[..n]), run[n].event, x)
  }

  ghost predicate NeverRepeatsCommentary(run: seq<At>, x: TurnId)
    requires Legal(run)
    decreases |run|
  {
    run == [] ||
    var n := |run| - 1;
    NeverRepeatsCommentary(run[..n], x) && !RepeatsCommentary(After(run[..n]), run[n].event, x)
  }

  /** Over every run, each final of a turn covers someone new exactly when no step wrote one for strangers only. */
  lemma {:induction false} FinalBudgetIff(run: seq<At>, x: TurnId)
    requires Legal(run)
    ensures EachFinalNew(Ops(After(run).db.relays), x) <==> NeverRepeatsFinal(run, x)
  {
    if run != [] {
      var n := |run| - 1;
      FinalBudgetIff(run[..n], x);
      ReachableIsGood(run[..n]);
      hide Good, Apply, Enabled, RepeatsFinal, EachFinalNew, Ops;
      StepFinal(After(run[..n]), run[n], x);
    }
  }

  lemma {:induction false} CommentaryBudgetIff(run: seq<At>, x: TurnId)
    requires Legal(run)
    ensures EachCommentaryNew(Ops(After(run).db.relays), x, After(run).direct) <==> NeverRepeatsCommentary(run, x)
  {
    if run != [] {
      var n := |run| - 1;
      CommentaryBudgetIff(run[..n], x);
      ReachableIsGood(run[..n]);
      hide Good, Apply, Enabled, RepeatsCommentary, EachCommentaryNew, Ops;
      StepCommentary(After(run[..n]), run[n], x);
    }
  }

  // ---- Continuations ----

  /** The turn has no gap, every attention that names it is its member, and its budgets hold so far. */
  ghost predicate Sound(w: World, x: TurnId) {
    TurnBudgetOk(w.db.attentions, w.db.slots, Ops(w.db.relays), w.direct, x)
  }

  /** The same world, but for the record that some stop left the turn with a gap. */
  ghost function Untorn(w: World, x: TurnId): World {
    w.(torn := w.torn - {x})
  }

  /** The step is not a stop that leaves the turn with a gap. */
  ghost predicate LeavesNoGap(w: World, at: At, x: TurnId)
    requires Enabled(w, at.event, at.now)
  {
    at.event == Stopped(x) ==> Dense(SlotsOf(Apply(w, at).db.slots, x))
  }

  lemma SoundIsGood(w: World, x: TurnId)
    requires Good(w) && Sound(w, x)
    ensures Good(Untorn(w, x))
  {
  }

  lemma UntornRecovery(w: World, at: At, x: TurnId)
    requires RecoveryEvent(at.event) && RecoveryEnabled(w, at.event)
    ensures RecoveryEnabled(Untorn(w, x), at.event) && ApplyRecovery(Untorn(w, x), at) == Untorn(ApplyRecovery(w, at), x)
  {
    hide RequeueMissingThread, Reap, Finalize, RetryUnobserved, TurnForClientMessage, GivenBack, LostTurns, JoinedOf, NoPreparedOn;
    match at.event {
      case Crashed =>
      case Started =>
      case IntentLost(_) =>
      case ThreadGone(_) =>
      case ThreadResumed(_) =>
      case DispatchReconciled(_, _) =>
      case ThreadDone(_) =>
      case Reaped =>
    }
  }

  lemma UntornDispatch(w: World, at: At, x: TurnId)
    requires DispatchEvent(at.event) && DispatchEnabled(w, at.event, at.now)
    ensures DispatchEnabled(Untorn(w, x), at.event, at.now) && ApplyDispatch(Untorn(w, x), at) == Untorn(ApplyDispatch(w, at), x)
  {
    hide RequeueMissingTurn, Finalize, RetryUnobserved, Defer, Prepare, Ingest, GivenBack, LostTurns, JoinedOf;
    match at.event {
      case Ingested(_, _) =>
      case ThreadCreated(_, _) =>
      case Began(_, _) =>
      case InputAccepted(_) =>
      case InputMisreported(_) =>
      case InputRefused =>
      case RefusalRecorded =>
      case RefusalDeferred(_) =>
      case Finalized =>
      case TurnGivenUp(_) =>
    }
  }

  lemma UntornOutput(w: World, at: At, x: TurnId)
    requires OutputEvent(at.event) && OutputEnabled(w, at.event)
    ensures OutputEnabled(Untorn(w, x), at.event) && ApplyOutput(Untorn(w, x), at) == Untorn(ApplyOutput(w, at), x)
  {
    hide TurnCompleted, TurnNoReply, RelayAccepted, RelayFailed, RecordItem, RecordFallback, Adopt, LatestCandidate, Promotes;
    match at.event {
      case Adopted(_) =>
      case ItemRecorded(_, _, _) =>
      case NoReplyMarked(_) =>
      case FallbackRecorded(_, _, _) =>
      case Completed(_, _) =>
      case RelaySent(_) =>
      case RelayUnsent(_, _) =>
    }
  }

  lemma UntornControl(w: World, at: At, x: TurnId)
    requires ControlEvent(at.event) && ControlEnabled(w, at.event)
    requires at.event == Stopped(x) ==> Dense(SlotsOf(ApplyControl(w, at).db.slots, x))
    ensures ControlEnabled(Untorn(w, x), at.event) && ApplyControl(Untorn(w, x), at) == Untorn(ApplyControl(w, at), x)
  {
    hide InterruptTurn, CloseRoom, CancelPending, Defer, RetireLegacy, StopRequeued, Dense, SlotsOf;
    match at.event {
      case Stopped(_) =>
      case StopAcknowledged(_) =>
      case StopDeferred(_, _) =>
      case RoomShut(_) =>
      case LegacyRetired(_) =>
    }
  }

  /** Nothing a step does depends on that record. */
  lemma UntornStep(w: World, at: At, x: TurnId)
    requires Enabled(w, at.event, at.now) && LeavesNoGap(w, at, x)
    ensures Enabled(Untorn(w, x), at.event, at.now)
    ensures Apply(Untorn(w, x), at) == Untorn(Apply(w, at), x)
  {
    hide ApplyRecovery, ApplyDispatch, ApplyOutput, ApplyControl, RecoveryEnabled, OutputEnabled, ControlEnabled, DispatchEnabled, Untorn, Dense, SlotsOf;
    if RecoveryEvent(at.event) {
      UntornRecovery(w, at, x);
    } else if DispatchEvent(at.event) {
      UntornDispatch(w, at, x);
    } else if OutputEvent(at.event) {
      UntornOutput(w, at, x);
    } else {
      UntornControl(w, at, x);
    }
  }

  lemma StepKeepsSound(w: World, at: At, x: TurnId)
    requires Good(w) && Sound(w, x) && Enabled(w, at.event, at.now) && LeavesNoGap(w, at, x)
    ensures Sound(Apply(w, at), x)
  {
    SoundIsGood(w, x);
    hide Apply, Enabled, LeavesNoGap, Sound;
    UntornStep(w, at, x);
    StepKeepsGood(Untorn(w, x), at);
    UntornSound(Apply(w, at), x);
  }

  lemma UntornSound(w: World, x: TurnId)
    requires Good(Untorn(w, x))
    ensures Sound(w, x)
  {
  }

  /** From step `n` on, no stop leaves the turn with a gap. */
  ghost predicate NoGapSince(run: seq<At>, n: nat, x: TurnId)
    requires Legal(run)
    decreases |run|
  {
    |run| <= n ||
    var m := |run| - 1;
    NoGapSince(run[..m], n, x) && LeavesNoGap(After(run[..m]), run[m], x)
  }

  /**
    From any world in which the turn has no gap and every attention that names it is its member, its
    budgets hold in every continuation in which no stop leaves it with a gap, whatever stops did before.
   */
  lemma {:induction false} BudgetsHoldFromHere(run: seq<At>, n: nat, x: TurnId)
    requires Legal(run) && n <= |run| && NoGapSince(run, n, x)
    requires Legal(run[..n]) && Sound(After(run[..n]), x)
    ensures Sound(After(run), x)
    ensures EachFinalNew(Ops(After(run).db.relays), x) && EachCommentaryNew(Ops(After(run).db.relays), x, After(run).direct)
  {
    if n == |run| {
      assert run[..n] == run;
    } else {
      var m := |run| - 1;
      assert run[..m][..n] == run[..n];
      BudgetsHoldFromHere(run[..m], n, x);
      ReachableIsGood(run[..m]);
      hide Apply, Enabled, LeavesNoGap, Good;
      StepKeepsSound(After(run[..m]), run[m], x);
    }
  }
}
