/**
  Runs of the persistent adapter (codex_adapter_v2.py) against its ledger and a Codex app-server,
  with crashes possible between any two steps. A step is one store transaction, one RPC outcome,
  a crash or a restart. The app-server is free: it may refuse any input, lose a thread, forget a
  turn, or show any history that only names turns of the thread asked about.
 */
module AdapterRuns {
  import opened Common
  import opened Ledgers
  import opened LedgerInvariants
  import opened AgentOutput

  /** One turn of a thread's history, with the attentions of its user messages. */
  datatype HistoryTurn = HistoryTurn(id: TurnId, inputs: seq<AttId>)

  /** `turn_for_client_message`: the first turn showing the attention's client message id. */
  function TurnForClientMessage(turns: seq<HistoryTurn>, a: AttId): Option<TurnId> {
    if turns == [] then None
    else if a in turns[0].inputs then Some(turns[0].id)
    else TurnForClientMessage(turns[1..], a)
  }

  datatype Phase =
    | Down
    | Recovering(todo: set<ThreadId>)
    | Idle
    | Sending(a: AttId, t: ThreadId)
    | Bound(a: AttId, t: ThreadId, x: TurnId)
    | Refused(a: AttId)
    | Retried(a: AttId)

  /** An input that a turn took, for one attention. */
  datatype Input = Input(turn: TurnId, a: AttId)

  /**
    `cache` is scope_threads. The rest is history kept for the theorems: thread ids ever issued, the
    inputs the app-server accepted, in order and with the turn that took them, how often each
    attention was accepted, requeued by the ledger, or retried after its accepted input was lost,
    the attentions whose accepted input is not yet bound, the turns a stop left with a gap, who ever
    joined a turn, and the direct attentions.
   */
  datatype World = World(
    db: Ledger, phase: Phase, cache: map<Scope, ThreadId>,
    used: set<ThreadId>, inputs: seq<Input>,
    accepted: multiset<AttId>, requeued: multiset<AttId>, lost: multiset<AttId>,
    unbound: set<AttId>, torn: set<TurnId>, joined: map<TurnId, set<AttId>>, direct: set<AttId>)

  const INITIAL := World(EMPTY_LEDGER, Down, map[], {}, [], multiset{}, multiset{}, multiset{}, {}, {}, map[], {})

  datatype Event =
    | Ingested(a: AttId, row: Attention)
    | Crashed
    | Started
    | IntentLost(a: AttId)
    | ThreadGone(t: ThreadId)
    | ThreadResumed(scope: Scope)
    | DispatchReconciled(a: AttId, turns: seq<HistoryTurn>)
    | ThreadDone(t: ThreadId)
    | Reaped
    | ThreadCreated(scope: Scope, t: ThreadId)
    | Began(a: AttId, operation: Operation)
    | InputAccepted(x: TurnId)
    | InputMisreported(x: TurnId)
    | InputRefused
    | RefusalRecorded
    | RefusalDeferred(delay: int)
    | Finalized
    | TurnGivenUp(x: TurnId)
    | Adopted(x: TurnId)
    | ItemRecorded(x: TurnId, item: AgentItem, live: bool)
    | NoReplyMarked(x: TurnId)
    | FallbackRecorded(x: TurnId, held: Relay, live: bool)
    | Completed(x: TurnId, terminal: Option<Terminal>)
    | RelaySent(op: OpId)
    | RelayUnsent(op: OpId, delay: int)
    | Stopped(x: TurnId)
    | StopAcknowledged(c: AttId)
    | StopDeferred(c: AttId, delay: int)
    | RoomShut(c: AttId)
    | LegacyRetired(a: AttId)

  /** An event with the clock and the lease epoch it is written under. */
  datatype At = At(event: Event, now: int, epoch: nat)

  predicate Prepared?(intents: map<AttId, Intent>, a: AttId) {
    a in intents && intents[a].status.Prepared?
  }

  ghost predicate NoPreparedOn(intents: map<AttId, Intent>, t: ThreadId) {
    forall a :: Prepared?(intents, a) ==> intents[a].thread != t
  }

  predicate Up(p: Phase) {
    !p.Down?
  }

  predicate RecoveryEvent(e: Event) {
    e.Crashed? || e.Started? || e.IntentLost? || e.ThreadGone? || e.ThreadResumed? || e.DispatchReconciled?
    || e.ThreadDone? || e.Reaped?
  }

  predicate DispatchEvent(e: Event) {
    e.Ingested? || e.ThreadCreated? || e.Began? || e.InputAccepted? || e.InputMisreported? || e.InputRefused? || e.RefusalRecorded?
    || e.RefusalDeferred? || e.Finalized? || e.TurnGivenUp?
  }

  predicate OutputEvent(e: Event) {
    e.Adopted? || e.ItemRecorded? || e.NoReplyMarked? || e.FallbackRecorded? || e.Completed? || e.RelaySent?
    || e.RelayUnsent?
  }

  predicate ControlEvent(e: Event) {
    !RecoveryEvent(e) && !DispatchEvent(e) && !OutputEvent(e)
  }

  ghost predicate RecoveryEnabled(w: World, e: Event)
    requires RecoveryEvent(e)
  {
    match e
    case Crashed => Up(w.phase)
    case Started => w.phase.Down?
    case IntentLost(a) => w.phase.Recovering? && Prepared?(w.db.intents, a) && w.db.intents[a].thread in w.phase.todo
    case ThreadGone(t) => w.phase.Recovering? && t in w.phase.todo && t !in w.cache.Values && NoPreparedOn(w.db.intents, t)
    case ThreadResumed(s) => w.phase.Recovering? && s in w.db.threads && w.db.threads[s] in w.phase.todo
    case DispatchReconciled(a, turns) =>
      && w.phase.Recovering? && Prepared?(w.db.intents, a) && w.db.intents[a].thread in w.phase.todo
      && forall h :: h in turns ==> h.id.thread == w.db.intents[a].thread
    case ThreadDone(t) => w.phase.Recovering? && t in w.phase.todo && t in w.cache.Values && NoPreparedOn(w.db.intents, t)
    case Reaped => w.phase == Recovering({})
  }

  /** Neither accepted nor ended; the clock by which it was found due is read before the dispatch. */
  predicate Waiting(att: Attention) {
    att.accepted.None? && att.terminal.None?
  }

  ghost predicate DispatchEnabled(w: World, e: Event, now: int)
    requires DispatchEvent(e)
  {
    match e
    case Ingested(a, row) => Up(w.phase) && a !in w.db.attentions && Fresh(row)
    case ThreadCreated(s, t) => w.phase.Idle? && s !in w.cache && s !in w.db.threads && t !in w.used
    case Began(a, _) =>
      && w.phase.Idle? && a in w.db.attentions && Waiting(w.db.attentions[a])
      && (w.db.attentions[a].event.Work? || w.db.attentions[a].event.OtherControl?)
      && w.db.attentions[a].scope in w.cache
    case InputAccepted(x) => w.phase.Sending? && x.thread == w.phase.t
    case InputMisreported(x) => w.phase.Sending? && x.thread == w.phase.t
    case InputRefused => w.phase.Sending?
    case RefusalRecorded => w.phase.Refused?
    case RefusalDeferred(_) => w.phase.Retried?
    case Finalized => w.phase.Bound?
    case TurnGivenUp(x) => w.phase.Recovering? || w.phase.Idle? || w.phase.Refused?
  }

  ghost predicate OutputEnabled(w: World, e: Event)
    requires OutputEvent(e)
  {
    match e
    case Adopted(x) => w.phase.Recovering? || w.phase.Idle?
    case ItemRecorded(_, _, _) => Up(w.phase)
    case NoReplyMarked(_) => Up(w.phase)
    case FallbackRecorded(x, c, _) => Up(w.phase) && LatestCandidate(w.db.relays, x, c) && Promotes(w.db, x, c)
    case Completed(_, _) => Up(w.phase)
    case RelaySent(op) => Up(w.phase) && exists r :: r in w.db.relays && r.op == op && r.status.Pending?
    case RelayUnsent(_, _) => Up(w.phase)
  }

  ghost predicate ControlEnabled(w: World, e: Event)
    requires ControlEvent(e)
  {
    match e
    case Stopped(_) => w.phase.Idle?
    case StopAcknowledged(c) => w.phase.Idle? && c in w.db.attentions && w.db.attentions[c].event.StopControl?
    case StopDeferred(c, _) => w.phase.Idle? && c in w.db.attentions && w.db.attentions[c].event.StopControl?
    case RoomShut(c) => w.phase.Idle? && c in w.db.attentions && w.db.attentions[c].event.RoomClosedControl?
    case LegacyRetired(_) => w.phase.Idle?
  }

  ghost predicate Enabled(w: World, e: Event, now: int) {
    if RecoveryEvent(e) then RecoveryEnabled(w, e)
    else if DispatchEvent(e) then DispatchEnabled(w, e, now)
    else if OutputEvent(e) then OutputEnabled(w, e)
    else ControlEnabled(w, e)
  }

  function JoinedOf(joined: map<TurnId, set<AttId>>, x: TurnId): set<AttId> {
    if x in joined then joined[x] else {}
  }

  /** Bind `a` to turn `x` in the ledger; an unknown attention raises ValueError and changes nothing. */
  function Bind(w: World, a: AttId, t: ThreadId, x: TurnId, reconciled: bool, at: At): World {
    if a !in w.db.attentions || a !in w.db.intents then w
    else w.(db := Finalize(w.db, a, t, x, at.epoch, reconciled, at.now),
       unbound := w.unbound - {a},
       joined := w.joined[x := JoinedOf(w.joined, x) + {a}])
  }

  /** A prepared dispatch is given up for a retry; its accepted input, if any, is lost. */
  function GiveUp(w: World, a: AttId, at: At): World {
    w.(db := RetryUnobserved(w.db, a, at.epoch, at.now),
       lost := if a in w.unbound then w.lost + multiset{a} else w.lost,
       unbound := w.unbound - {a})
  }

  predicate Dense(m: map<nat, AttId>) {
    forall p :: p in m ==> p < |m|
  }

  ghost function ApplyRecovery(w: World, at: At): World
    requires RecoveryEvent(at.event) && RecoveryEnabled(w, at.event)
  {
    match at.event
    case Crashed => w.(phase := Down, cache := map[])
    case Started => w.(phase := Recovering(w.db.threads.Values))
    case IntentLost(a) => GiveUp(w, a, at)
    case ThreadGone(t) =>
      w.(db := RequeueMissingThread(w.db, t, at.now),
         requeued := w.requeued + multiset(GivenBack(w.db, LostTurns(w.db, t))),
         phase := Recovering(w.phase.todo - {t}))
    case ThreadResumed(s) =>
      w.(db := SetThread(w.db, s, w.db.threads[s]), cache := w.cache[s := w.db.threads[s]])
    case DispatchReconciled(a, turns) =>
      (match TurnForClientMessage(turns, a)
       case Some(x) => Bind(w, a, w.db.intents[a].thread, x, true, at)
       case None => GiveUp(w, a, at))
    case ThreadDone(t) => w.(phase := Recovering(w.phase.todo - {t}))
    case Reaped => w.(db := Reap(w.db, at.epoch, at.now), phase := Idle)
  }

  /** The app-server accepts an input; turn `x` takes it. */
  function TakeInput(w: World, a: AttId, x: TurnId): World {
    w.(accepted := w.accepted + multiset{a}, inputs := w.inputs + [Input(x, a)], unbound := w.unbound + {a})
  }

  ghost function ApplyDispatch(w: World, at: At): World
    requires DispatchEvent(at.event) && DispatchEnabled(w, at.event, at.now)
  {
    match at.event
    case Ingested(a, row) =>
      w.(db := Ingest(w.db, a, row), direct := if Direct(row.priority) then w.direct + {a} else w.direct)
    case ThreadCreated(s, t) => w.(db := SetThread(w.db, s, t), cache := w.cache[s := t], used := w.used + {t})
    case Began(a, operation) =>
      var t := w.cache[w.db.attentions[a].scope];
      w.(db := Prepare(w.db, a, t, operation, at.epoch, at.now), phase := Sending(a, t))
    case InputAccepted(x) => TakeInput(w, w.phase.a, x).(phase := Bound(w.phase.a, w.phase.t, x))
    case InputMisreported(x) => TakeInput(w, w.phase.a, x).(phase := Refused(w.phase.a))
    case InputRefused => w.(phase := Refused(w.phase.a))
    case RefusalRecorded => GiveUp(w, w.phase.a, at).(phase := Retried(w.phase.a))
    case RefusalDeferred(delay) => w.(db := Defer(w.db, w.phase.a, delay, at.now), phase := Idle)
    case Finalized => Bind(w, w.phase.a, w.phase.t, w.phase.x, false, at).(phase := Idle)
    case TurnGivenUp(x) =>
      w.(db := RequeueMissingTurn(w.db, x.thread, x, at.now),
         requeued := if x in LostTurns(w.db, x.thread) then w.requeued + multiset(GivenBack(w.db, {x})) else w.requeued)
  }

  ghost function ApplyOutput(w: World, at: At): World
    requires OutputEvent(at.event) && OutputEnabled(w, at.event)
  {
    match at.event
    case Adopted(x) => w.(db := Adopt(w.db, x, at.epoch))
    case ItemRecorded(x, item, live) => w.(db := RecordItem(w.db, x, item, live, at.epoch, at.now))
    case NoReplyMarked(x) => w.(db := TurnNoReply(w.db, x))
    case FallbackRecorded(x, c, live) => w.(db := RecordFallback(w.db, x, c, live, at.epoch, at.now))
    case Completed(x, terminal) => w.(db := TurnCompleted(w.db, x, terminal, at.now))
    case RelaySent(op) => w.(db := RelayAccepted(w.db, op, at.now))
    case RelayUnsent(op, delay) => w.(db := RelayFailed(w.db, op, delay, at.now))
  }

  ghost function ApplyControl(w: World, at: At): World
    requires ControlEvent(at.event) && ControlEnabled(w, at.event)
  {
    match at.event
    case Stopped(x) =>
      var db := InterruptTurn(w.db, x, at.now);
      w.(db := db,
         requeued := if x in w.db.turns then w.requeued + multiset(StopRequeued(w.db, x)) else w.requeued,
         torn := if Dense(SlotsOf(db.slots, x)) then w.torn else w.torn + {x})
    case StopAcknowledged(c) => w.(db := CancelPending(w.db, c, at.epoch, at.now))
    case StopDeferred(c, delay) => w.(db := Defer(w.db, c, delay, at.now))
    case RoomShut(c) =>
      w.(db := CloseRoom(w.db, c, at.epoch, at.now),
         cache := map s | s in w.cache && s != w.db.attentions[c].scope :: w.cache[s])
    case LegacyRetired(a) => w.(db := RetireLegacy(w.db, a))
  }

  ghost function Apply(w: World, at: At): World
    requires Enabled(w, at.event, at.now)
  {
    if RecoveryEvent(at.event) then ApplyRecovery(w, at)
    else if DispatchEvent(at.event) then ApplyDispatch(w, at)
    else if OutputEvent(at.event) then ApplyOutput(w, at)
    else ApplyControl(w, at)
  }

  // ---- What every reachable world satisfies ----

  /** The one attention a running adapter may have a prepared intent for. */
  function InFlight(p: Phase): set<AttId> {
    match p
    case Sending(a, _) => {a}
    case Bound(a, _, _) => {a}
    case Refused(a) => {a}
    case _ => {}
  }

  type Intents = map<AttId, Intent>
  type Threads = map<Scope, ThreadId>

  predicate Running(p: Phase) {
    !p.Down? && !p.Recovering?
  }

  /** A prepared intent is on the thread its scope maps to; running, it is the one in flight. */
  ghost predicate PreparedOk(intents: Intents, threads: Threads, p: Phase, a: AttId)
    requires a in intents
  {
    && intents[a].scope in threads && threads[intents[a].scope] == intents[a].thread
    && (Running(p) ==> a in InFlight(p))
    && (p.Recovering? ==> intents[a].thread in p.todo)
  }

  ghost predicate DispatchOk(intents: Intents, threads: Threads, p: Phase, unbound: set<AttId>) {
    && (forall a :: a in InFlight(p) ==> Prepared?(intents, a))
    && (p.Sending? || p.Bound? ==> Prepared?(intents, p.a) && intents[p.a].thread == p.t)
    && (p.Bound? ==> p.x.thread == p.t)
    && (forall a :: Prepared?(intents, a) ==> PreparedOk(intents, threads, p, a))
    && (forall a :: a in unbound ==> Prepared?(intents, a))
    && (Running(p) ==> unbound <= InFlight(p) && (p.Bound? ==> unbound == {p.a}) && (p.Sending? ==> unbound == {}))
  }

  /** Threads: one per scope, all issued; a cached one is the stored one; running, all are cached. */
  ghost predicate ThreadsOk(threads: Threads, cache: Threads, used: set<ThreadId>, p: Phase) {
    && (forall s :: s in threads ==> threads[s] in used)
    && (forall s, r :: s in threads && r in threads && threads[s] == threads[r] ==> s == r)
    && (forall s :: s in cache ==> s in threads && cache[s] == threads[s])
    && (Running(p) ==> forall s :: s in threads ==> s in cache)
    && (p.Recovering? ==> p.todo <= threads.Values && forall s :: s in threads && threads[s] !in p.todo ==> s in cache)
  }

  /** A turn is of its own thread, and of the scope that thread serves. */
  ghost predicate TurnsOk(turns: Turns, threads: Threads, used: set<ThreadId>) {
    forall x :: x in turns ==>
      && turns[x].thread == x.thread && x.thread in used
      && forall s :: s in threads && threads[s] == x.thread ==> turns[x].scope == s
  }

  /** More accepted inputs than requeues and losses only while accepted, or accepted and unbound. */
  ghost predicate CountOk(rows: Rows, unbound: set<AttId>, accepted: nat, excuses: nat, a: AttId) {
    && accepted <= 1 + excuses
    && (accepted > excuses ==> a in rows && (rows[a].accepted.Some? || a in unbound))
  }

  ghost predicate CountsOk(rows: Rows, unbound: set<AttId>, accepted: multiset<AttId>, requeued: multiset<AttId>, lost: multiset<AttId>) {
    forall a :: CountOk(rows, unbound, accepted[a], requeued[a] + lost[a], a)
  }

  /** On a turn without a gap, the rows that name it are its members and both budgets hold. */
  ghost predicate TurnBudgetOk(rows: Rows, slots: Slots, ops: seq<OpId>, direct: set<AttId>, x: TurnId) {
    && Dense(SlotsOf(slots, x))
    && (forall a :: a in rows && rows[a].turn == Some(x) ==> a in Members(slots, x))
    && EachFinalNew(ops, x) && EachCommentaryNew(ops, x, direct)
  }

  ghost predicate BudgetOk(rows: Rows, slots: Slots, ops: seq<OpId>, torn: set<TurnId>, direct: set<AttId>) {
    && (forall x :: x !in torn ==> TurnBudgetOk(rows, slots, ops, direct, x))
    && (forall a :: a in direct <==> a in rows && Direct(rows[a].priority))
  }

  /** Only attentions that joined a turn are its members or covered by its output. */
  ghost predicate JoinedOk(slots: Slots, ops: seq<OpId>, joined: map<TurnId, set<AttId>>) {
    && (forall x :: Members(slots, x) <= JoinedOf(joined, x))
    && (forall op :: op in ops ==> op.covered <= JoinedOf(joined, op.turn))
  }

  ghost predicate Good(w: World) {
    && Inv(w.db)
    && DispatchOk(w.db.intents, w.db.threads, w.phase, w.unbound)
    && ThreadsOk(w.db.threads, w.cache, w.used, w.phase)
    && TurnsOk(w.db.turns, w.db.threads, w.used)
    && CountsOk(w.db.attentions, w.unbound, w.accepted, w.requeued, w.lost)
    && BudgetOk(w.db.attentions, w.db.slots, Ops(w.db.relays), w.torn, w.direct)
    && JoinedOk(w.db.slots, Ops(w.db.relays), w.joined)
  }

  // ---- Steps that neither bind, detach nor dispatch ----

  /** Same turns, same members, same outputs; nothing becomes unaccepted. */
  ghost predicate CalmRow(p: Attention, q: Attention) {
    q.turn == p.turn && q.priority == p.priority && (q.accepted.None? ==> p.accepted.None?)
  }

  ghost predicate CalmRows(before: Rows, after: Rows) {
    after.Keys == before.Keys && forall a :: a in before ==> CalmRow(before[a], after[a])
  }

  ghost predicate CalmTurns(before: Turns, after: Turns) {
    after.Keys == before.Keys &&
    forall x :: x in before ==> after[x].scope == before[x].scope && after[x].thread == before[x].thread
  }

  lemma CalmRowsCount(before: Rows, after: Rows, unbound: set<AttId>, accepted: multiset<AttId>, requeued: multiset<AttId>, lost: multiset<AttId>)
    requires CountsOk(before, unbound, accepted, requeued, lost) && CalmRows(before, after)
    ensures CountsOk(after, unbound, accepted, requeued, lost)
  {
    forall a ensures CountOk(after, unbound, accepted[a], requeued[a] + lost[a], a) {
      assert CountOk(before, unbound, accepted[a], requeued[a] + lost[a], a);
      assert a in after ==> CalmRow(before[a], after[a]);
    }
  }

  lemma CalmRowsBudget(before: Rows, after: Rows, slots: Slots, ops: seq<OpId>, torn: set<TurnId>, direct: set<AttId>)
    requires BudgetOk(before, slots, ops, torn, direct) && CalmRows(before, after)
    ensures BudgetOk(after, slots, ops, torn, direct)
  {
    forall x | x !in torn ensures TurnBudgetOk(after, slots, ops, direct, x) {
      assert TurnBudgetOk(before, slots, ops, direct, x);
      forall a | a in after && after[a].turn == Some(x) ensures a in Members(slots, x) {
        assert CalmRow(before[a], after[a]);
      }
    }
    forall a ensures a in direct <==> a in after && Direct(after[a].priority) {
      assert a in after ==> CalmRow(before[a], after[a]);
    }
  }

  lemma CalmTurnsKeep(before: Turns, after: Turns, threads: Threads, used: set<ThreadId>)
    requires TurnsOk(before, threads, used) && CalmTurns(before, after)
    ensures TurnsOk(after, threads, used)
  {
  }

  lemma SuppressOps(relays: seq<Relay>, xs: set<TurnId>)
    ensures Ops(SuppressFor(relays, xs)) == Ops(relays)
  {
  }

  /** A step of the ledger alone that is calm keeps everything it does not touch. */
  lemma CalmKeeps(w: World, m: Ledger)
    requires Good(w) && Inv(m)
    requires CalmRows(w.db.attentions, m.attentions) && CalmTurns(w.db.turns, m.turns)
    requires m.slots == w.db.slots && Ops(m.relays) == Ops(w.db.relays)
    requires m.intents == w.db.intents && m.threads == w.db.threads
    ensures Good(w.(db := m))
  {
    CalmRowsCount(w.db.attentions, m.attentions, w.unbound, w.accepted, w.requeued, w.lost);
    CalmRowsBudget(w.db.attentions, m.attentions, w.db.slots, Ops(w.db.relays), w.torn, w.direct);
    CalmTurnsKeep(w.db.turns, m.turns, w.db.threads, w.used);
  }

  lemma AdoptStep(w: World, x: TurnId, epoch: nat)
    requires Good(w)
    ensures Good(w.(db := Adopt(w.db, x, epoch)))
  {
    AdoptKeeps(w.db, x, epoch);
    hide Inv, Good;
    CalmKeeps(w, Adopt(w.db, x, epoch));
  }

  lemma NoReplyStep(w: World, x: TurnId)
    requires Good(w)
    ensures Good(w.(db := TurnNoReply(w.db, x)))
  {
    NoReplyKeeps(w.db, x);
    hide Inv, Good;
    CalmKeeps(w, TurnNoReply(w.db, x));
  }

  lemma CompletedStep(w: World, x: TurnId, terminal: Option<Terminal>, now: int)
    requires Good(w)
    ensures Good(w.(db := TurnCompleted(w.db, x, terminal, now)))
  {
    TurnCompletedKeeps(w.db, x, terminal, now);
    hide Inv, Good;
    SuppressOps(w.db.relays, {x});
    CalmKeeps(w, TurnCompleted(w.db, x, terminal, now));
  }

  lemma RelaySentStep(w: World, op: OpId, now: int)
    requires Good(w) && exists r :: r in w.db.relays && r.op == op && r.status.Pending?
    ensures Good(w.(db := RelayAccepted(w.db, op, now)))
  {
    RelayAcceptedKeeps(w.db, op, now);
    hide Inv, Good;
    assert Ops(RelayAccepted(w.db, op, now).relays) == Ops(w.db.relays);
    CalmKeeps(w, RelayAccepted(w.db, op, now));
  }

  lemma RelayUnsentStep(w: World, op: OpId, delay: int, now: int)
    requires Good(w)
    ensures Good(w.(db := RelayFailed(w.db, op, delay, now)))
  {
    RelayFailedKeeps(w.db, op, delay, now);
    hide Inv, Good;
    assert Ops(RelayFailed(w.db, op, delay, now).relays) == Ops(w.db.relays);
    CalmKeeps(w, RelayFailed(w.db, op, delay, now));
  }

  lemma StopAcknowledgedStep(w: World, c: AttId, epoch: nat, now: int)
    requires Good(w) && c in w.db.attentions && w.db.attentions[c].event.StopControl?
    ensures Good(w.(db := CancelPending(w.db, c, epoch, now)))
  {
    CancelPendingKeeps(w.db, c, epoch, now);
    hide Inv, Good;
    CalmKeeps(w, CancelPending(w.db, c, epoch, now));
  }

  lemma DeferStep(w: World, a: AttId, delay: int, now: int)
    requires Good(w)
    ensures Good(w.(db := Defer(w.db, a, delay, now)))
  {
    DeferKeeps(w.db, a, delay, now);
    hide Inv, Good;
    CalmKeeps(w, Defer(w.db, a, delay, now));
  }

  lemma RetireStep(w: World, a: AttId)
    requires Good(w)
    ensures Good(w.(db := RetireLegacy(w.db, a)))
  {
    RetireKeeps(w.db, a);
    hide Inv, Good;
    CalmKeeps(w, RetireLegacy(w.db, a));
  }

  lemma ReapStep(w: World, epoch: nat, now: int)
    requires Good(w)
    ensures Good(w.(db := Reap(w.db, epoch, now)))
  {
    CloseAbandonedKeeps(w.db, Stale(w.db, epoch), now);
    hide Inv, Good;
    SuppressOps(w.db.relays, Stale(w.db, epoch));
    CalmKeeps(w, Reap(w.db, epoch, now));
  }

  /** Only the phase changes, and no prepared intent is stranded by it. */
  lemma PhaseKeeps(w: World, p: Phase, cache: Threads)
    requires Good(w) && DispatchOk(w.db.intents, w.db.threads, p, w.unbound)
    requires ThreadsOk(w.db.threads, cache, w.used, p)
    ensures Good(w.(phase := p, cache := cache))
  {
  }

  lemma CrashStep(w: World)
    requires Good(w)
    ensures Good(w.(phase := Down, cache := map[]))
  {
    hide Inv, CountsOk, BudgetOk, JoinedOk, TurnsOk;
    PhaseKeeps(w, Down, map[]);
  }

  lemma StartStep(w: World)
    requires Good(w) && w.phase.Down?
    ensures Good(w.(phase := Recovering(w.db.threads.Values)))
  {
    hide Inv, CountsOk, BudgetOk, JoinedOk, TurnsOk;
    PhaseKeeps(w, Recovering(w.db.threads.Values), w.cache);
  }

  lemma ThreadResumedStep(w: World, s: Scope)
    requires Good(w) && w.phase.Recovering? && s in w.db.threads
    ensures Good(w.(db := SetThread(w.db, s, w.db.threads[s]), cache := w.cache[s := w.db.threads[s]]))
  {
    hide Inv, CountsOk, BudgetOk, JoinedOk, TurnsOk;
    assert w.db.threads[s := w.db.threads[s]] == w.db.threads;
    PhaseKeeps(w, w.phase, w.cache[s := w.db.threads[s]]);
  }

  lemma ThreadDoneStep(w: World, t: ThreadId)
    requires Good(w) && w.phase.Recovering? && t in w.cache.Values && NoPreparedOn(w.db.intents, t)
    ensures Good(w.(phase := Recovering(w.phase.todo - {t})))
  {
    hide Inv, CountsOk, BudgetOk, JoinedOk, TurnsOk;
    PhaseKeeps(w, Recovering(w.phase.todo - {t}), w.cache);
  }

  /** Recovery is over: every stored thread is cached and nothing is prepared. */
  lemma RunningStep(w: World)
    requires Good(w) && w.phase == Recovering({})
    ensures Good(w.(phase := Idle))
  {
    hide Inv, CountsOk, BudgetOk, JoinedOk, TurnsOk;
    PhaseKeeps(w, Idle, w.cache);
  }

  lemma ThreadCreatedStep(w: World, s: Scope, t: ThreadId)
    requires Good(w) && w.phase.Idle? && s !in w.db.threads && t !in w.used
    ensures Good(w.(db := SetThread(w.db, s, t), cache := w.cache[s := t], used := w.used + {t}))
  {
    ThreadsKeep(w.db, w.db.threads[s := t]);
    hide Inv, CountsOk, BudgetOk, JoinedOk;
  }

  lemma DispatchBegan(intents: Intents, threads: Threads, cache: Threads, used: set<ThreadId>, a: AttId, intent: Intent)
    requires DispatchOk(intents, threads, Idle, {}) && ThreadsOk(threads, cache, used, Idle)
    requires intent.status.Prepared? && intent.scope in cache && cache[intent.scope] == intent.thread
    ensures DispatchOk(intents[a := intent], threads, Sending(a, intent.thread), {})
    ensures ThreadsOk(threads, cache, used, Sending(a, intent.thread))
  {
    var more := intents[a := intent];
    assert forall b :: Prepared?(intents, b) ==> b in InFlight(Idle);
    forall b | Prepared?(more, b) ensures b == a && PreparedOk(more, threads, Sending(a, intent.thread), b) {
      assert b == a || Prepared?(intents, b);
    }
  }

  /** Resolving the one prepared intent in flight, or one that recovery was looking at. */
  lemma DispatchResolved(intents: Intents, threads: Threads, p: Phase, q: Phase, unbound: set<AttId>, a: AttId, intent: Intent)
    requires DispatchOk(intents, threads, p, unbound) && !intent.status.Prepared?
    requires (q == p && p.Recovering?) || (InFlight(p) == {a} && (q.Idle? || q.Retried?))
    ensures DispatchOk(intents[a := intent], threads, q, unbound - {a})
  {
    var resolved := intents[a := intent];
    forall b | Prepared?(resolved, b) ensures PreparedOk(resolved, threads, q, b) {
      assert Prepared?(intents, b) && PreparedOk(intents, threads, p, b);
    }
  }

  lemma DispatchWithout(intents: Intents, threads: Threads, fewer: Threads, p: Phase, q: Phase, unbound: set<AttId>, t: ThreadId)
    requires DispatchOk(intents, threads, p, unbound) && NoPreparedOn(intents, t)
    requires fewer == map s | s in threads && threads[s] != t :: threads[s]
    requires p.Recovering? && q == Recovering(p.todo - {t})
    ensures DispatchOk(intents, fewer, q, unbound)
  {
    forall b | Prepared?(intents, b) ensures PreparedOk(intents, fewer, q, b) {
      assert PreparedOk(intents, threads, p, b);
    }
  }

  lemma BeganStep(w: World, a: AttId, operation: Operation, epoch: nat, now: int)
    requires Good(w) && w.phase.Idle? && a in w.db.attentions && Waiting(w.db.attentions[a])
    requires w.db.attentions[a].event.Work? || w.db.attentions[a].event.OtherControl?
    requires w.db.attentions[a].scope in w.cache
    ensures var t := w.cache[w.db.attentions[a].scope];
            Good(w.(db := Prepare(w.db, a, t, operation, epoch, now), phase := Sending(a, t)))
  {
    var t := w.cache[w.db.attentions[a].scope];
    var m := Prepare(w.db, a, t, operation, epoch, now);
    PrepareKeeps(w.db, a, t, operation, epoch, now);
    hide Inv, CountsOk, BudgetOk, JoinedOk, TurnsOk;
    DispatchBegan(w.db.intents, w.db.threads, w.cache, w.used, a, m.intents[a]);
    hide DispatchOk, ThreadsOk;
  }

  lemma TakenCounts(rows: Rows, a: AttId, accepted: multiset<AttId>, requeued: multiset<AttId>, lost: multiset<AttId>)
    requires CountsOk(rows, {}, accepted, requeued, lost) && a in rows && rows[a].accepted.None?
    ensures CountsOk(rows, {a}, accepted + multiset{a}, requeued, lost)
  {
    forall b ensures CountOk(rows, {a}, (accepted + multiset{a})[b], requeued[b] + lost[b], b) {
      assert CountOk(rows, {}, accepted[b], requeued[b] + lost[b], b);
    }
  }

  lemma TakenDispatch(intents: Intents, threads: Threads, p: Phase, q: Phase, x: TurnId)
    requires DispatchOk(intents, threads, p, {}) && p.Sending? && x.thread == p.t && (q == Bound(p.a, p.t, x) || q == Refused(p.a))
    ensures DispatchOk(intents, threads, q, {p.a})
  {
    forall b | Prepared?(intents, b) ensures PreparedOk(intents, threads, q, b) {
      assert PreparedOk(intents, threads, p, b);
    }
  }

  /** The input counts as accepted, whatever the answer to it says. */
  lemma InputTakenStep(w: World, x: TurnId, p: Phase)
    requires Good(w) && w.phase.Sending? && x.thread == w.phase.t
    requires p == Bound(w.phase.a, w.phase.t, x) || p == Refused(w.phase.a)
    ensures Good(TakeInput(w, w.phase.a, x).(phase := p))
  {
    var a := w.phase.a;
    assert Prepared?(w.db.intents, a) && w.unbound == {};
    assert IntentOk(w.db.attentions, a, w.db.intents[a]);
    hide Inv, BudgetOk, JoinedOk, TurnsOk, CountsOk, DispatchOk;
    TakenCounts(w.db.attentions, a, w.accepted, w.requeued, w.lost);
    TakenDispatch(w.db.intents, w.db.threads, w.phase, p, x);
    PhaseThreads(w.db.threads, w.cache, w.used, w.phase, p);
  }

  lemma InputRefusedStep(w: World)
    requires Good(w) && w.phase.Sending?
    ensures Good(w.(phase := Refused(w.phase.a)))
  {
    hide Inv, CountsOk, BudgetOk, JoinedOk, TurnsOk;
    PhaseKeeps(w, Refused(w.phase.a), w.cache);
  }

  lemma RefusalDeferredStep(w: World, delay: int, now: int)
    requires Good(w) && w.phase.Retried?
    ensures Good(w.(db := Defer(w.db, w.phase.a, delay, now), phase := Idle))
  {
    DeferStep(w, w.phase.a, delay, now);
    var v := w.(db := Defer(w.db, w.phase.a, delay, now));
    hide Inv, CountsOk, BudgetOk, JoinedOk, TurnsOk;
    PhaseKeeps(v, Idle, v.cache);
  }

  lemma IngestStep(w: World, a: AttId, row: Attention)
    requires Good(w) && a !in w.db.attentions && Fresh(row)
    ensures Good(w.(db := Ingest(w.db, a, row), direct := if Direct(row.priority) then w.direct + {a} else w.direct))
  {
    IngestKeeps(w.db, a, row);
    var rows, direct := w.db.attentions[a := row], if Direct(row.priority) then w.direct + {a} else w.direct;
    hide Inv;
    forall b ensures CountOk(rows, w.unbound, w.accepted[b], w.requeued[b] + w.lost[b], b) {
      assert CountOk(w.db.attentions, w.unbound, w.accepted[b], w.requeued[b] + w.lost[b], b);
    }
    forall x | x !in w.torn ensures TurnBudgetOk(rows, w.db.slots, Ops(w.db.relays), direct, x) {
      assert TurnBudgetOk(w.db.attentions, w.db.slots, Ops(w.db.relays), w.direct, x);
      MoreDirectKeeps(Ops(w.db.relays), x, w.direct, direct);
    }
  }

  lemma GiveUpCounts(before: Rows, after: Rows, a: AttId, unbound: set<AttId>, accepted: multiset<AttId>, requeued: multiset<AttId>, lost: multiset<AttId>)
    requires CountsOk(before, unbound, accepted, requeued, lost) && CalmRows(before, after)
    ensures CountsOk(after, unbound - {a}, accepted, requeued, if a in unbound then lost + multiset{a} else lost)
  {
    var more := if a in unbound then lost + multiset{a} else lost;
    forall b ensures CountOk(after, unbound - {a}, accepted[b], requeued[b] + more[b], b) {
      assert CountOk(before, unbound, accepted[b], requeued[b] + lost[b], b);
      assert b in after ==> CalmRow(before[b], after[b]);
    }
  }

  /** A prepared dispatch is given up: an accepted input not yet bound counts as lost. */
  lemma RetryFrame(l: Ledger, a: AttId, epoch: nat, now: int)
    requires a in l.intents
    ensures var m := RetryUnobserved(l, a, epoch, now);
            && m == l.(intents := m.intents, attentions := m.attentions) && CalmRows(l.attentions, m.attentions)
            && a in m.intents && m.intents == l.intents[a := m.intents[a]] && !m.intents[a].status.Prepared?
  {
  }

  lemma PhaseThreads(threads: Threads, cache: Threads, used: set<ThreadId>, p: Phase, q: Phase)
    requires ThreadsOk(threads, cache, used, p) && (q == p || (Running(p) && Running(q)))
    ensures ThreadsOk(threads, cache, used, q)
  {
  }

  lemma GiveUpStep(w: World, a: AttId, at: At, p: Phase)
    requires Good(w) && Prepared?(w.db.intents, a)
    requires (p == w.phase && p.Recovering?) || (w.phase == Refused(a) && p == Retried(a))
    ensures Good(GiveUp(w, a, at).(phase := p))
  {
    var m := RetryUnobserved(w.db, a, at.epoch, at.now);
    RetryKeeps(w.db, a, at.epoch, at.now);
    RetryFrame(w.db, a, at.epoch, at.now);
    hide Inv, RetryUnobserved, BudgetOk, CountsOk, DispatchOk, ThreadsOk, TurnsOk, JoinedOk;
    CalmRowsBudget(w.db.attentions, m.attentions, w.db.slots, Ops(w.db.relays), w.torn, w.direct);
    DispatchResolved(w.db.intents, w.db.threads, w.phase, p, w.unbound, a, m.intents[a]);
    PhaseThreads(w.db.threads, w.cache, w.used, w.phase, p);
    GiveUpCounts(w.db.attentions, m.attentions, a, w.unbound, w.accepted, w.requeued, w.lost);
  }

  lemma BindCounts(rows: Rows, row: Attention, a: AttId, unbound: set<AttId>, accepted: multiset<AttId>, requeued: multiset<AttId>, lost: multiset<AttId>)
    requires CountsOk(rows, unbound, accepted, requeued, lost) && row.accepted.Some?
    ensures CountsOk(rows[a := row], unbound - {a}, accepted, requeued, lost)
  {
    forall b ensures CountOk(rows[a := row], unbound - {a}, accepted[b], requeued[b] + lost[b], b) {
      assert CountOk(rows, unbound, accepted[b], requeued[b] + lost[b], b);
    }
  }

  /** On a turn without a gap the new attention takes the next position. */
  lemma BindBudget(rows: Rows, row: Attention, slots: Slots, ops: seq<OpId>, torn: set<TurnId>, direct: set<AttId>, a: AttId, x: TurnId)
    requires BudgetOk(rows, slots, ops, torn, direct) && a in rows && a !in Members(slots, x)
    requires rows[a].turn.None? && row.turn == Some(x) && row.priority == rows[a].priority
    ensures BudgetOk(rows[a := row], slots[x := Join(SlotsOf(slots, x), a)], ops, torn, direct)
  {
    var m := SlotsOf(slots, x);
    var joined := slots[x := Join(m, a)];
    JoinedMembers(slots, x, a);
    forall y | y !in torn ensures TurnBudgetOk(rows[a := row], joined, ops, direct, y) {
      assert TurnBudgetOk(rows, slots, ops, direct, y);
      if y == x {
        assert Join(m, a) == m[|m| := a] && Join(m, a)[|m|] == a;
        assert a in Members(joined, x);
      } else {
        assert SlotsOf(joined, y) == SlotsOf(slots, y);
      }
    }
  }

  lemma BindJoined(slots: Slots, ops: seq<OpId>, joined: map<TurnId, set<AttId>>, a: AttId, x: TurnId)
    requires JoinedOk(slots, ops, joined)
    ensures JoinedOk(slots[x := Join(SlotsOf(slots, x), a)], ops, joined[x := JoinedOf(joined, x) + {a}])
  {
    var more := slots[x := Join(SlotsOf(slots, x), a)];
    JoinValues(SlotsOf(slots, x), a);
    forall y ensures Members(more, y) <= JoinedOf(joined[x := JoinedOf(joined, x) + {a}], y) {
      assert Members(slots, y) <= JoinedOf(joined, y);
    }
  }

  lemma BindTurns(turns: Turns, threads: Threads, used: set<ThreadId>, x: TurnId, row: TurnRow)
    requires TurnsOk(turns, threads, used)
    requires if x in turns then row == turns[x] else
               row.thread == x.thread && row.scope in threads && threads[row.scope] == x.thread && x.thread in used
               && forall s, r :: s in threads && r in threads && threads[s] == threads[r] ==> s == r
    ensures TurnsOk(turns[x := row], threads, used)
  {
  }

  lemma FinalizeFrame(l: Ledger, a: AttId, t: ThreadId, x: TurnId, epoch: nat, reconciled: bool, now: int)
    requires a in l.attentions && a in l.intents
    ensures var m := Finalize(l, a, t, x, epoch, reconciled, now);
            && m == l.(intents := m.intents, attentions := m.attentions, turns := m.turns, slots := m.slots)
            && m.intents == l.intents[a := m.intents[a]] && !m.intents[a].status.Prepared?
            && m.slots == l.slots[x := Join(SlotsOf(l.slots, x), a)]
            && a in m.attentions && m.attentions == l.attentions[a := m.attentions[a]]
            && m.attentions[a].accepted.Some? && m.attentions[a].turn == Some(x)
            && m.attentions[a].priority == l.attentions[a].priority
            && x in m.turns && m.turns == l.turns[x := m.turns[x]]
            && if x in l.turns then m.turns[x] == l.turns[x]
               else m.turns[x].thread == t && m.turns[x].scope == l.attentions[a].scope
  {
  }

  /** What is known about an attention with a prepared intent on thread `t`. */
  lemma PreparedFacts(w: World, a: AttId, x: TurnId)
    requires Good(w) && Prepared?(w.db.intents, a) && w.db.intents[a].thread == x.thread
    ensures a in w.db.attentions && w.db.attentions[a].accepted.None? && w.db.attentions[a].turn.None?
    ensures a !in Members(w.db.slots, x)
    ensures w.db.attentions[a].scope in w.db.threads && w.db.threads[w.db.attentions[a].scope] == x.thread
    ensures x.thread in w.used && (x in w.db.turns ==> w.db.turns[x].scope == w.db.attentions[a].scope)
  {
    assert IntentOk(w.db.attentions, a, w.db.intents[a]) && RowOk(w.db.relays, w.db.attentions[a]);
    assert PreparedOk(w.db.intents, w.db.threads, w.phase, a);
  }

  lemma BindStep(w: World, a: AttId, t: ThreadId, x: TurnId, reconciled: bool, at: At, p: Phase)
    requires Good(w) && Prepared?(w.db.intents, a) && a in w.db.attentions
    requires w.db.intents[a].thread == t && x.thread == t
    requires (p == w.phase && p.Recovering?) || (w.phase == Bound(a, t, x) && p == Idle)
    ensures Good(Bind(w, a, t, x, reconciled, at).(phase := p))
  {
    var m := Finalize(w.db, a, t, x, at.epoch, reconciled, at.now);
    PreparedFacts(w, a, x);
    FinalizeFrame(w.db, a, t, x, at.epoch, reconciled, at.now);
    FinalizeKeeps(w.db, a, t, x, at.epoch, reconciled, at.now);
    hide Inv, Finalize, SlotsOf, Join, Members;
    BindBooks(w, a, x, p, m);
    BindBudget(w.db.attentions, m.attentions[a], w.db.slots, Ops(w.db.relays), w.torn, w.direct, a, x);
    BindJoined(w.db.slots, Ops(w.db.relays), w.joined, a, x);
    hide CountsOk, BudgetOk, JoinedOk, DispatchOk, TurnsOk;
  }

  lemma BindBooks(w: World, a: AttId, x: TurnId, p: Phase, m: Ledger)
    requires Good(w) && a in m.intents && a in m.attentions && x in m.turns
    requires m.intents == w.db.intents[a := m.intents[a]] && !m.intents[a].status.Prepared?
    requires m.attentions == w.db.attentions[a := m.attentions[a]] && m.attentions[a].accepted.Some?
    requires m.turns == w.db.turns[x := m.turns[x]]
    requires if x in w.db.turns then m.turns[x] == w.db.turns[x] else
               m.turns[x].thread == x.thread && m.turns[x].scope in w.db.threads
               && w.db.threads[m.turns[x].scope] == x.thread && x.thread in w.used
    requires (p == w.phase && p.Recovering?) || (InFlight(w.phase) == {a} && p == Idle)
    ensures DispatchOk(m.intents, w.db.threads, p, w.unbound - {a})
    ensures CountsOk(m.attentions, w.unbound - {a}, w.accepted, w.requeued, w.lost)
    ensures TurnsOk(m.turns, w.db.threads, w.used)
    ensures ThreadsOk(w.db.threads, w.cache, w.used, p)
  {
    hide Inv, BudgetOk, JoinedOk;
    BindCounts(w.db.attentions, m.attentions[a], a, w.unbound, w.accepted, w.requeued, w.lost);
    DispatchResolved(w.db.intents, w.db.threads, w.phase, p, w.unbound, a, m.intents[a]);
    BindTurns(w.db.turns, w.db.threads, w.used, x, m.turns[x]);
  }

  // ---- Requeueing ----

  lemma RequeueCounts(rows: Rows, back: set<AttId>, clearFirst: bool, now: int, unbound: set<AttId>, accepted: multiset<AttId>, requeued: multiset<AttId>, lost: multiset<AttId>)
    requires CountsOk(rows, unbound, accepted, requeued, lost) && unbound !! back
    ensures CountsOk(RequeueRows(rows, back, clearFirst, now), unbound, accepted, requeued + multiset(back), lost)
  {
    var after, more := RequeueRows(rows, back, clearFirst, now), requeued + multiset(back);
    forall b ensures CountOk(after, unbound, accepted[b], more[b] + lost[b], b) {
      assert CountOk(rows, unbound, accepted[b], requeued[b] + lost[b], b);
      assert more[b] == requeued[b] + if b in back then 1 else 0;
    }
  }

  /** Requeued rows name no turn; the turns `xs` are emptied. */
  lemma GiveBackBudget(rows: Rows, slots: Slots, ops: seq<OpId>, torn: set<TurnId>, direct: set<AttId>, xs: set<TurnId>, back: set<AttId>, clearFirst: bool, now: int)
    requires BudgetOk(rows, slots, ops, torn, direct)
    requires forall x, a :: x in xs && a in Members(slots, x) ==> a in back
    ensures BudgetOk(RequeueRows(rows, back, clearFirst, now), EmptySlots(slots, xs), ops, torn, direct)
  {
    var after := RequeueRows(rows, back, clearFirst, now);
    forall x | x !in torn ensures TurnBudgetOk(after, EmptySlots(slots, xs), ops, direct, x) {
      assert TurnBudgetOk(rows, slots, ops, direct, x);
      assert SlotsOf(EmptySlots(slots, xs), x) == if x in xs then map[] else SlotsOf(slots, x);
    }
    forall a ensures a in direct <==> a in after && Direct(after[a].priority) {
      assert a in direct <==> a in rows && Direct(rows[a].priority);
    }
  }

  lemma EmptiedJoined(slots: Slots, ops: seq<OpId>, joined: map<TurnId, set<AttId>>, xs: set<TurnId>)
    requires JoinedOk(slots, ops, joined)
    ensures JoinedOk(EmptySlots(slots, xs), ops, joined)
  {
    forall x ensures Members(EmptySlots(slots, xs), x) <= JoinedOf(joined, x) {
      assert Members(slots, x) <= JoinedOf(joined, x);
    }
  }

  /** Members of turns without output are unanswered, so giving such turns back requeues all of them. */
  lemma OutputFreeMembers(l: Ledger, xs: set<TurnId>)
    requires Inv(l) && forall x :: x in xs ==> !HasRelay(l.relays, x)
    ensures forall x, a :: x in xs && a in Members(l.slots, x) ==> a in GivenBack(l, xs)
    ensures forall a :: a in GivenBack(l, xs) ==> a in l.attentions && l.attentions[a].accepted.Some?
  {
    forall x, a | x in xs && a in Members(l.slots, x) ensures a in GivenBack(l, xs) {
      assert RowOk(l.relays, l.attentions[a]);
    }
  }

  lemma GiveBackStep(w: World, xs: set<TurnId>, clearFirst: bool, now: int)
    requires Good(w) && forall x :: x in xs ==> !HasRelay(w.db.relays, x)
    ensures Good(w.(db := GiveBack(w.db, xs, clearFirst, now), requeued := w.requeued + multiset(GivenBack(w.db, xs))))
  {
    var back := GivenBack(w.db, xs);
    GiveBackKeeps(w.db, xs, clearFirst, now);
    OutputFreeMembers(w.db, xs);
    forall a | a in w.unbound ensures a !in back {
      assert IntentOk(w.db.attentions, a, w.db.intents[a]);
    }
    hide Inv, GivenBack;
    RequeueCounts(w.db.attentions, back, clearFirst, now, w.unbound, w.accepted, w.requeued, w.lost);
    GiveBackBudget(w.db.attentions, w.db.slots, Ops(w.db.relays), w.torn, w.direct, xs, back, clearFirst, now);
    EmptiedJoined(w.db.slots, Ops(w.db.relays), w.joined, xs);
    CalmTurnsKeep(w.db.turns, CloseTurns(w.db.turns, xs, now, Failed), w.db.threads, w.used);
    hide CountsOk, BudgetOk, JoinedOk, TurnsOk, DispatchOk, ThreadsOk;
  }

  lemma ThreadGoneStep(w: World, t: ThreadId, now: int)
    requires Good(w) && w.phase.Recovering? && t in w.phase.todo && t !in w.cache.Values && NoPreparedOn(w.db.intents, t)
    ensures Good(w.(db := RequeueMissingThread(w.db, t, now),
                    requeued := w.requeued + multiset(GivenBack(w.db, LostTurns(w.db, t))),
                    phase := Recovering(w.phase.todo - {t})))
  {
    var xs := LostTurns(w.db, t);
    GiveBackStep(w, xs, false, now);
    GiveBackFrame(w.db, xs, false, now);
    var v := w.(db := GiveBack(w.db, xs, false, now), requeued := w.requeued + multiset(GivenBack(w.db, xs)));
    var threads := map s | s in w.db.threads && w.db.threads[s] != t :: w.db.threads[s];
    hide GiveBack, GivenBack, LostTurns, CountsOk, BudgetOk, JoinedOk;
    DropThread(v, t, threads);
    assert RequeueMissingThread(w.db, t, now) == v.db.(threads := threads);
  }

  lemma ThreadsWithout(threads: Threads, cache: Threads, used: set<ThreadId>, todo: set<ThreadId>, t: ThreadId, fewer: Threads)
    requires ThreadsOk(threads, cache, used, Recovering(todo)) && t !in cache.Values
    requires fewer == map s | s in threads && threads[s] != t :: threads[s]
    ensures ThreadsOk(fewer, cache, used, Recovering(todo - {t}))
  {
    forall u | u in todo - {t} ensures u in fewer.Values {
      var s :| s in threads && threads[s] == u;
      assert s in fewer && fewer[s] == u;
    }
  }

  lemma DropThread(w: World, t: ThreadId, fewer: Threads)
    requires Good(w) && w.phase.Recovering? && t !in w.cache.Values && NoPreparedOn(w.db.intents, t)
    requires fewer == map s | s in w.db.threads && w.db.threads[s] != t :: w.db.threads[s]
    ensures Good(w.(db := w.db.(threads := fewer), phase := Recovering(w.phase.todo - {t})))
  {
    ThreadsKeep(w.db, fewer);
    assert TurnsOk(w.db.turns, fewer, w.used);
    hide Inv, DispatchOk, CountsOk, BudgetOk, JoinedOk, ThreadsOk, TurnsOk, NoPreparedOn;
    DispatchWithout(w.db.intents, w.db.threads, fewer, w.phase, Recovering(w.phase.todo - {t}), w.unbound, t);
    ThreadsWithout(w.db.threads, w.cache, w.used, w.phase.todo, t, fewer);
  }

  lemma GiveBackFrame(l: Ledger, xs: set<TurnId>, clearFirst: bool, now: int)
    ensures var m := GiveBack(l, xs, clearFirst, now); m.threads == l.threads && m.intents == l.intents
  {
  }

  lemma TurnGivenUpStep(w: World, x: TurnId, now: int)
    requires Good(w)
    ensures Good(w.(db := RequeueMissingTurn(w.db, x.thread, x, now),
                    requeued := if x in LostTurns(w.db, x.thread) then w.requeued + multiset(GivenBack(w.db, {x})) else w.requeued))
  {
    if x in LostTurns(w.db, x.thread) {
      GiveBackStep(w, {x}, true, now);
    }
  }

  // ---- A stop, a closed room ----

  lemma StoppedStep(w: World, x: TurnId, now: int)
    requires Good(w) && x in w.db.turns
    ensures var db := InterruptTurn(w.db, x, now);
            Good(w.(db := db, requeued := w.requeued + multiset(StopRequeued(w.db, x)),
                    torn := if Dense(SlotsOf(db.slots, x)) then w.torn else w.torn + {x}))
  {
    var m := InterruptTurn(w.db, x, now);
    var back := StopRequeued(w.db, x);
    var torn := if Dense(SlotsOf(m.slots, x)) then w.torn else w.torn + {x};
    InterruptKeeps(w.db, x, now);
    StopDetaches(w.db.attentions, w.db.turns, w.db.slots, x, back);
    StopCounts(w, x, now);
    StopBudget(w, x, now);
    hide Inv, CountsOk, BudgetOk, StopRequeued;
    SuppressOps(w.db.relays, {x});
    CalmTurnsKeep(w.db.turns, m.turns, w.db.threads, w.used);
    forall y ensures Members(m.slots, y) <= JoinedOf(w.joined, y) {
      assert Members(w.db.slots, y) <= JoinedOf(w.joined, y);
    }
  }

  lemma StopCounts(w: World, x: TurnId, now: int)
    requires Good(w) && x in w.db.turns
    ensures CountsOk(InterruptTurn(w.db, x, now).attentions, w.unbound, w.accepted, w.requeued + multiset(StopRequeued(w.db, x)), w.lost)
  {
    var back := StopRequeued(w.db, x);
    forall a | a in w.unbound ensures a !in back {
      assert IntentOk(w.db.attentions, a, w.db.intents[a]);
    }
    var requeued := RequeueRows(w.db.attentions, back, false, now);
    RequeueCounts(w.db.attentions, back, false, now, w.unbound, w.accepted, w.requeued, w.lost);
    StopRowsSplit(w.db.attentions, Members(w.db.slots, x), back, now);
    var after := StopRows(w.db.attentions, Members(w.db.slots, x), back, now);
    hide Inv, Good, CountsOk, BudgetOk, JoinedOk, StopRequeued;
    assert CalmRows(requeued, after);
    CalmRowsCount(requeued, after, w.unbound, w.accepted, w.requeued + multiset(back), w.lost);
  }

  lemma StopBudget(w: World, x: TurnId, now: int)
    requires Good(w) && x in w.db.turns
    ensures var m := InterruptTurn(w.db, x, now);
            BudgetOk(m.attentions, m.slots, Ops(m.relays), if Dense(SlotsOf(m.slots, x)) then w.torn else w.torn + {x}, w.direct)
  {
    var m := InterruptTurn(w.db, x, now);
    var back := StopRequeued(w.db, x);
    SuppressOps(w.db.relays, {x});
    DetachValues(SlotsOf(w.db.slots, x), back);
    hide Inv, CountsOk, JoinedOk, DispatchOk, ThreadsOk, TurnsOk, EachFinalNew, EachCommentaryNew, SuppressFor;
    forall y | y !in w.torn && (y == x ==> Dense(SlotsOf(m.slots, x)))
      ensures TurnBudgetOk(m.attentions, m.slots, Ops(m.relays), w.direct, y)
    {
      assert TurnBudgetOk(w.db.attentions, w.db.slots, Ops(w.db.relays), w.direct, y);
      forall a | a in m.attentions && m.attentions[a].turn == Some(y) ensures a in Members(m.slots, y) {
        assert a !in back && a in Members(w.db.slots, y);
      }
    }
  }

  lemma RoomShutTables(intents: Intents, turns: Turns, threads: Threads, cache: Threads, used: set<ThreadId>, scope: Scope)
    requires DispatchOk(intents, threads, Idle, {}) && ThreadsOk(threads, cache, used, Idle) && TurnsOk(turns, threads, used)
    ensures var fewer := map s | s in threads && s != scope :: threads[s];
            && DispatchOk(intents, fewer, Idle, {}) && TurnsOk(turns, fewer, used)
            && ThreadsOk(fewer, map s | s in cache && s != scope :: cache[s], used, Idle)
  {
    assert forall a :: Prepared?(intents, a) ==> a in InFlight(Idle);
  }

  lemma RoomShutStep(w: World, c: AttId, epoch: nat, now: int)
    requires Good(w) && w.phase.Idle? && c in w.db.attentions && w.db.attentions[c].event.RoomClosedControl?
    ensures Good(w.(db := CloseRoom(w.db, c, epoch, now),
                    cache := map s | s in w.cache && s != w.db.attentions[c].scope :: w.cache[s]))
  {
    var m := CloseRoom(w.db, c, epoch, now);
    CloseRoomKeeps(w.db, c, epoch, now);
    CloseRoomFrame(w.db, c, epoch, now);
    hide Inv, CloseRoom;
    CalmRowsCount(w.db.attentions, m.attentions, w.unbound, w.accepted, w.requeued, w.lost);
    CalmRowsBudget(w.db.attentions, m.attentions, w.db.slots, Ops(w.db.relays), w.torn, w.direct);
    CalmTurnsKeep(w.db.turns, m.turns, w.db.threads, w.used);
    RoomShutTables(w.db.intents, m.turns, w.db.threads, w.cache, w.used, w.db.attentions[c].scope);
    hide CountsOk, BudgetOk, DispatchOk, ThreadsOk, TurnsOk, JoinedOk;
  }

  lemma CloseRoomFrame(l: Ledger, c: AttId, epoch: nat, now: int)
    requires c in l.attentions
    ensures var m := CloseRoom(l, c, epoch, now);
            && m == l.(attentions := m.attentions, turns := m.turns, relays := m.relays, threads := m.threads)
            && CalmRows(l.attentions, m.attentions) && CalmTurns(l.turns, m.turns) && Ops(m.relays) == Ops(l.relays)
            && m.threads == map s | s in l.threads && s != l.attentions[c].scope :: l.threads[s]
  {
    SuppressOps(l.relays, set x | x in l.turns && l.turns[x].scope == l.attentions[c].scope);
  }

  // ---- Output ----

  lemma CreateOutputStep(w: World, op: OpId, text: string, live: bool, epoch: nat, now: int)
    requires Good(w) && op.covered <= Members(w.db.slots, op.turn)
    requires op.turn !in w.torn && op.kind.Final? ==> !(op.covered <= Coverage(Ops(w.db.relays), op.turn, Final))
    requires op.turn !in w.torn && op.kind.Commentary? && HasKind(Ops(w.db.relays), op.turn, Commentary)
             ==> !(op.covered * w.direct <= Coverage(Ops(w.db.relays), op.turn, Commentary))
    ensures Good(w.(db := CreateOutput(w.db, op, text, live, epoch, now)))
  {
    var status := OutputStatus(op.kind, live);
    CreateRelayKeeps(w.db, op, text, status, epoch, now);
    var m := CreateOutput(w.db, op, text, live, epoch, now);
    if m != w.db {
      var ops := Ops(w.db.relays);
      assert Ops(m.relays) == ops + [op];
      hide Inv, CountsOk;
      forall x | x !in w.torn ensures TurnBudgetOk(w.db.attentions, w.db.slots, ops + [op], w.direct, x) {
        assert TurnBudgetOk(w.db.attentions, w.db.slots, ops, w.direct, x);
        AppendKeepsBudgets(ops, op, x, w.direct);
      }
      assert Members(w.db.slots, op.turn) <= JoinedOf(w.joined, op.turn);
    }
  }

  /** Where the turn has no gap, every uncovered attention is among those the output will cover. */
  lemma UncoveredAreCovered(w: World, x: TurnId)
    requires Good(w) && x !in w.torn
    ensures LiveOn(w.db, x) <= AcceptedForTurn(w.db, x)
  {
    assert TurnBudgetOk(w.db.attentions, w.db.slots, Ops(w.db.relays), w.direct, x);
  }

  lemma ItemStep(w: World, x: TurnId, item: AgentItem, live: bool, epoch: nat, now: int)
    requires Good(w)
    ensures Good(w.(db := RecordItem(w.db, x, item, live, epoch, now)))
  {
    if item.text != "" && !HasItem(w.db.relays, x, item.id) {
      var op := OpId(AcceptedForTurn(w.db, x), x, item.id, OutputKind(w.db, x, item));
      if x !in w.torn {
        UncoveredAreCovered(w, x);
        if op.kind.Final? {
          var a :| a in Uncovered(w.db, x);
          assert a in op.covered;
        } else if op.kind.Commentary? && HasKind(Ops(w.db.relays), x, Commentary) {
          var a :| a in LiveOn(w.db, x) && Direct(w.db.attentions[a].priority) && a !in Coverage(Ops(w.db.relays), x, Commentary);
          assert a in op.covered * w.direct;
        }
      }
      hide Inv, Good;
      CreateOutputStep(w, op, item.text, live, epoch, now);
    }
  }

  lemma FallbackStep(w: World, x: TurnId, held: Relay, live: bool, epoch: nat, now: int)
    requires Good(w) && Promotes(w.db, x, held)
    ensures Good(w.(db := RecordFallback(w.db, x, held, live, epoch, now)))
  {
    var op := OpId(AcceptedForTurn(w.db, x) * held.op.covered, x, Fallback(held.op.item), Final);
    if x !in w.torn {
      UncoveredAreCovered(w, x);
      var a :| a in held.op.covered * Uncovered(w.db, x);
      assert a in op.covered;
    }
    hide Inv, Good;
    CreateOutputStep(w, op, held.text, live, epoch, now);
  }

  // ---- All runs ----

  /** A run is legal when each step is enabled where it happens. */
  ghost predicate Legal(run: seq<At>)
    decreases |run|, 0
  {
    run == [] ||
    var n := |run| - 1;
    Legal(run[..n]) && Enabled(After(run[..n]), run[n].event, run[n].now)
  }

  ghost function After(run: seq<At>): World
    requires Legal(run)
    decreases |run|, 1
  {
    if run == [] then INITIAL else Apply(After(run[..|run| - 1]), run[|run| - 1])
  }

  lemma OutputKeepsGood(w: World, at: At)
    requires Good(w) && OutputEvent(at.event) && OutputEnabled(w, at.event)
    ensures Good(ApplyOutput(w, at))
  {
    hide Good;
    match at.event {
      case Adopted(x) => AdoptStep(w, x, at.epoch);
      case ItemRecorded(x, item, live) => ItemStep(w, x, item, live, at.epoch, at.now);
      case NoReplyMarked(x) => NoReplyStep(w, x);
      case FallbackRecorded(x, held, live) => FallbackStep(w, x, held, live, at.epoch, at.now);
      case Completed(x, terminal) => CompletedStep(w, x, terminal, at.now);
      case RelaySent(op) => RelaySentStep(w, op, at.now);
      case RelayUnsent(op, delay) => RelayUnsentStep(w, op, delay, at.now);
    }
  }

  lemma ControlKeepsGood(w: World, at: At)
    requires Good(w) && ControlEvent(at.event) && ControlEnabled(w, at.event)
    ensures Good(ApplyControl(w, at))
  {
    match at.event {
      case Stopped(x) =>
        if x in w.db.turns {
          StoppedStep(w, x, at.now);
        } else {
          NoTurnNoMembers(w, x);
        }
      case StopAcknowledged(c) => StopAcknowledgedStep(w, c, at.epoch, at.now);
      case StopDeferred(c, delay) => DeferStep(w, c, delay, at.now);
      case RoomShut(c) => RoomShutStep(w, c, at.epoch, at.now);
      case LegacyRetired(a) => RetireStep(w, a);
    }
  }

  lemma ReconcileStep(w: World, a: AttId, turns: seq<HistoryTurn>, at: At)
    requires Good(w) && at.event == DispatchReconciled(a, turns) && RecoveryEnabled(w, at.event)
    ensures Good(ApplyRecovery(w, at))
  {
    var t := w.db.intents[a].thread;
    assert IntentOk(w.db.attentions, a, w.db.intents[a]);
    FoundInHistory(turns, a);
    var found := TurnForClientMessage(turns, a);
    if found.Some? {
      BindStep(w, a, t, found.value, true, at, w.phase);
      assert Bind(w, a, t, found.value, true, at).(phase := w.phase) == Bind(w, a, t, found.value, true, at);
    } else {
      GiveUpStep(w, a, at, w.phase);
      assert GiveUp(w, a, at).(phase := w.phase) == GiveUp(w, a, at);
    }
  }

  lemma RecoveryKeepsGood(w: World, at: At)
    requires Good(w) && RecoveryEvent(at.event) && RecoveryEnabled(w, at.event)
    ensures Good(ApplyRecovery(w, at))
  {
    match at.event {
      case Crashed => CrashStep(w);
      case Started => StartStep(w);
      case IntentLost(a) =>
        GiveUpStep(w, a, at, w.phase);
        assert GiveUp(w, a, at).(phase := w.phase) == GiveUp(w, a, at);
      case ThreadGone(t) => ThreadGoneStep(w, t, at.now);
      case ThreadResumed(s) => ThreadResumedStep(w, s);
      case DispatchReconciled(a, turns) => ReconcileStep(w, a, turns, at);
      case ThreadDone(t) => ThreadDoneStep(w, t);
      case Reaped =>
        RunningStep(w);
        ReapStep(w.(phase := Idle), at.epoch, at.now);
    }
  }

  /** The turn that answers for a client message id is one of the turns shown, and shows that input. */
  lemma {:induction false} FoundInHistory(turns: seq<HistoryTurn>, a: AttId)
    ensures TurnForClientMessage(turns, a).Some? <==> exists h :: h in turns && a in h.inputs
    ensures TurnForClientMessage(turns, a).Some? ==>
              exists h :: h in turns && a in h.inputs && h.id == TurnForClientMessage(turns, a).value
  {
    if turns != [] {
      FoundInHistory(turns[1..], a);
      assert forall h :: h in turns <==> h == turns[0] || h in turns[1..];
    }
  }

  lemma DispatchKeepsGood(w: World, at: At)
    requires Good(w) && DispatchEvent(at.event) && DispatchEnabled(w, at.event, at.now)
    ensures Good(ApplyDispatch(w, at))
  {
    match at.event {
      case Ingested(a, row) => IngestStep(w, a, row);
      case ThreadCreated(s, t) => ThreadCreatedStep(w, s, t);
      case Began(a, operation) => BeganStep(w, a, operation, at.epoch, at.now);
      case InputAccepted(x) => InputTakenStep(w, x, Bound(w.phase.a, w.phase.t, x));
      case InputMisreported(x) => InputTakenStep(w, x, Refused(w.phase.a));
      case InputRefused => InputRefusedStep(w);
      case RefusalRecorded => GiveUpStep(w, w.phase.a, at, Retried(w.phase.a));
      case RefusalDeferred(delay) => RefusalDeferredStep(w, delay, at.now);
      case Finalized =>
        assert IntentOk(w.db.attentions, w.phase.a, w.db.intents[w.phase.a]);
        BindStep(w, w.phase.a, w.phase.t, w.phase.x, false, at, Idle);
      case TurnGivenUp(x) => TurnGivenUpStep(w, x, at.now);
    }
  }

  lemma NoTurnNoMembers(w: World, x: TurnId)
    requires Good(w) && x !in w.db.turns
    ensures Dense(SlotsOf(w.db.slots, x))
  {
    assert MembersOk(w.db.attentions, w.db.turns, w.db.slots);
    forall a ensures a !in Members(w.db.slots, x) {}
    assert forall p :: p in SlotsOf(w.db.slots, x) ==> SlotsOf(w.db.slots, x)[p] in Members(w.db.slots, x);
  }

  /** Every reachable world satisfies the invariants. */
  lemma {:induction false} ReachableIsGood(run: seq<At>)
    requires Legal(run)
    ensures Good(After(run))
  {
    if run == [] {
      InitialIsGood();
    } else {
      var n := |run| - 1;
      ReachableIsGood(run[..n]);
      StepKeepsGood(After(run[..n]), run[n]);
    }
  }

  lemma InitialIsGood()
    ensures Good(INITIAL)
  {
    assert Ops(EMPTY_LEDGER.relays) == [];
  }

  lemma StepKeepsGood(w: World, at: At)
    requires Good(w) && Enabled(w, at.event, at.now)
    ensures Good(Apply(w, at))
  {
    hide Good, RecoveryEvent, DispatchEvent, OutputEvent, ApplyRecovery, ApplyDispatch, ApplyOutput, ApplyControl;
    if RecoveryEvent(at.event) {
      RecoveryKeepsGood(w, at);
    } else if DispatchEvent(at.event) {
      DispatchKeepsGood(w, at);
    } else if OutputEvent(at.event) {
      OutputKeepsGood(w, at);
    } else {
      ControlKeepsGood(w, at);
    }
  }
}
