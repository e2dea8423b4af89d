/**
  What one dispatch, and one reconciliation, asks of the ledger (codex_adapter_v2.py, `dispatch_one`,
  `reconcile_active_turn`, `reconcile_dispatches`, `reconcile_accepted_turns`), and what that means row by row.
 */
module Dispatches {
  import opened Common
  import opened Ledgers
  import opened LedgerInvariants
  import opened AgentOutput
  import opened AppServers
  import opened AdapterRuns
  import opened RecoverySteps
  import opened Notices

  // ---- Dispatch ----

  /** The running turns after a steer: a refusal that names another active turn corrects the thread's. */
  function Repointed(active: map<ThreadId, TurnId>, t: ThreadId, stream: seq<Message>, id: nat): map<ThreadId, TurnId> {
    match ReplyTo(stream, id).answer
    case Some(Error(Some(y), _)) => active[t := y]
    case _ => active
  }

  lemma RepointedIs(active: map<ThreadId, TurnId>, t: ThreadId, stream: seq<Message>, id: nat)
    ensures Repointed(active, t, stream, id) == match ReplyTo(stream, id).answer case Some(Error(Some(y), _)) => active[t := y] case _ => active
  {
    hide ReplyTo;
  }

  /** The inputs that an accepted steer of turn `x` adds; a response without a turn id means `x`. */
  function SteerTaken(answer: Option<Answer>, x: TurnId, a: AttId): seq<Input> {
    if answer.Some? && answer.value.Turn? then [Input(answer.value.id.GetOr(x), a)] else []
  }

  /** The inputs that an accepted start adds; a response without a turn id is an error. */
  function StartTaken(answer: Option<Answer>, a: AttId): seq<Input> {
    if answer.Some? && answer.value.Turn? && answer.value.id.Some? then [Input(answer.value.id.value, a)] else []
  }

  /** Prepared, then the messages before the response handled, then bound to turn `x`. */
  ghost predicate Joins(l: Ledger, m: Ledger, a: AttId, t: ThreadId, operation: Operation, x: TurnId, messages: seq<Message>, live: bool, epoch: nat)
    requires a in l.attentions
  {
    exists begun :: JoinsAfter(Prepare(l, a, t, operation, epoch, begun), m, a, t, x, messages, live, epoch)
  }

  ghost predicate JoinsAfter(l: Ledger, m: Ledger, a: AttId, t: ThreadId, x: TurnId, messages: seq<Message>, live: bool, epoch: nat) {
    exists mid :: HandledAll(l, messages, mid, live, epoch) && BoundAs(mid, m, a, t, x, epoch)
  }

  lemma JoinedFrom(l: Ledger, prepared: Ledger, m: Ledger, a: AttId, t: ThreadId, operation: Operation, begun: int, x: TurnId, messages: seq<Message>, live: bool, epoch: nat)
    requires a in l.attentions && prepared == Prepare(l, a, t, operation, epoch, begun)
    ensures JoinsAfter(prepared, m, a, t, x, messages, live, epoch) ==> Joins(l, m, a, t, operation, x, messages, live, epoch)
  {
    hide JoinsAfter;
  }

  ghost predicate BoundAs(l: Ledger, m: Ledger, a: AttId, t: ThreadId, x: TurnId, epoch: nat) {
    a in l.attentions && a in l.intents && exists now :: m == Finalize(l, a, t, x, epoch, false, now)
  }

  /** The dispatch failed, and the attention is due again after `delay` or its backoff. */
  ghost predicate PutOff(l: Ledger, m: Ledger, a: AttId, delay: int, epoch: nat) {
    exists now, later :: m == Defer(RetryUnobserved(l, a, epoch, now), a, delay, later)
  }

  ghost predicate StartRefused(l: Ledger, m: Ledger, a: AttId, t: ThreadId, delay: int, epoch: nat)
    requires a in l.attentions
  {
    exists begun :: PutOff(Prepare(l, a, t, Operation.StartTurn, epoch, begun), m, a, delay, epoch)
  }

  /** The first turn of the history with this id. */
  function FirstShown(turns: seq<RemoteTurn>, x: TurnId): (found: Option<RemoteTurn>)
    ensures found.Some? ==> found.value in turns && found.value.history.id == x
    ensures found.None? <==> !InHistory(turns, x)
  {
    if turns == [] then None
    else if turns[0].history.id == x then Some(turns[0])
    else FirstShown(turns[1..], x)
  }

  /** An ended turn is replayed; one still shown, or on a thread not idle, is left alone; else it is given back. */
  ghost predicate Reconciles(l: Ledger, m: Ledger, x: TurnId, history: seq<RemoteTurn>, idle: bool, force: bool, recovered: bool, live: bool, epoch: nat) {
    var found := FirstShown(history, x);
    if found.Some? && found.value.status.Ended? then recovered && HandledAll(l, Replay(found.value), m, live, epoch)
    else if !force && (found.Some? || !idle) then !recovered && m == l
    else
      && (recovered <==> x in LostTurns(l, x.thread) && GivenBack(l, {x}) != {})
      && exists now :: m == RequeueMissingTurn(l, x.thread, x, now)
  }

  /** A refused steer: if no turn is active the orphan is reconciled first, and decides the delay. */
  ghost predicate SteerRefused(l: Ledger, m: Ledger, a: AttId, t: ThreadId, x: TurnId, inactive: bool, history: seq<RemoteTurn>, idle: bool, delay: int, live: bool, epoch: nat)
    requires a in l.attentions
  {
    exists begun :: AfterRefusal(Prepare(l, a, t, SteerTurn, epoch, begun), m, a, x, inactive, history, idle, delay, live, epoch)
  }

  ghost predicate AfterRefusal(l: Ledger, m: Ledger, a: AttId, x: TurnId, inactive: bool, history: seq<RemoteTurn>, idle: bool, delay: int, live: bool, epoch: nat) {
    if inactive then exists mid, recovered ::
      Reconciles(l, mid, x, history, idle, true, recovered, live, epoch) && PutOff(mid, m, a, if recovered then 0 else delay, epoch)
    else PutOff(l, m, a, delay, epoch)
  }

  lemma JoinHas(m: map<nat, AttId>, a: AttId)
    ensures a in Join(m, a).Values || |m| in m
  {
    assert |m| !in m && a !in m.Values ==> m[|m| := a][|m|] == a;
  }

  lemma BindingMeans(l: Ledger, m: Ledger, a: AttId, t: ThreadId, x: TurnId, epoch: nat)
    requires BoundAs(l, m, a, t, x, epoch)
    ensures m.attentions.Keys == l.attentions.Keys && m.intents.Keys == l.intents.Keys
    ensures m.attentions[a].turn == Some(x) && m.attentions[a].accepted.Some? && m.attentions[a].epoch == Some(epoch)
    ensures m.intents[a] == l.intents[a].(status := Accepted, turn := Some(x), epoch := epoch)
    ensures x in m.turns && (x !in l.turns ==> Open(m.turns[x]) && m.turns[x].thread == t && m.turns[x].epoch == epoch)
    ensures a in Members(m.slots, x) || |SlotsOf(l.slots, x)| in SlotsOf(l.slots, x)
    ensures forall b :: b in l.attentions && b != a ==> m.attentions[b] == l.attentions[b]
  {
    JoinHas(SlotsOf(l.slots, x), a);
    hide Join;
  }

  /** The attention is accepted on the turn, and its member unless a stop left a gap at the next position. */
  lemma JoiningBinds(l: Ledger, m: Ledger, a: AttId, t: ThreadId, operation: Operation, x: TurnId, messages: seq<Message>, live: bool, epoch: nat)
    requires a in l.attentions && Joins(l, m, a, t, operation, x, messages, live, epoch)
    ensures a in m.attentions && a in m.intents
    ensures m.attentions[a].turn == Some(x) && m.attentions[a].accepted.Some? && m.attentions[a].epoch == Some(epoch)
    ensures m.intents[a].status.Accepted? && m.intents[a].turn == Some(x) && m.intents[a].thread == t
    ensures m.intents[a].operation == operation && m.intents[a].scope == l.attentions[a].scope && m.intents[a].epoch == epoch
    ensures x in m.turns && (x !in l.turns ==> Open(m.turns[x]) && m.turns[x].thread == t && m.turns[x].epoch == epoch)
    ensures a in Members(m.slots, x) || |SlotsOf(l.slots, x)| in SlotsOf(l.slots, x)
    ensures forall b :: b in l.attentions && b != a ==> b in m.attentions && RowGrows(l.attentions[b], m.attentions[b])
  {
    var begun :| JoinsAfter(Prepare(l, a, t, operation, epoch, begun), m, a, t, x, messages, live, epoch);
    var mid :| HandledAll(Prepare(l, a, t, operation, epoch, begun), messages, mid, live, epoch) && BoundAs(mid, m, a, t, x, epoch);
    AllGrows(Prepare(l, a, t, operation, epoch, begun), messages, mid, live, epoch);
    BindingMeans(mid, m, a, t, x, epoch);
    hide HandledAll, BoundAs, JoinsAfter, Joins, Members;
  }

  /** A dispatch put off leaves the attention waiting, one attempt more if there is a delay, failed at the ceiling. */
  lemma PuttingOffMeans(l: Ledger, m: Ledger, a: AttId, delay: int, epoch: nat)
    requires PutOff(l, m, a, delay, epoch) && a in l.attentions && a in l.intents && Waiting(l.attentions[a])
    ensures m.intents == l.intents[a := l.intents[a].(status := IntentFailed, epoch := epoch)]
    ensures m == l.(attentions := m.attentions, intents := m.intents)
    ensures m.attentions.Keys == l.attentions.Keys && forall b :: b in l.attentions && b != a ==> m.attentions[b] == l.attentions[b]
    ensures var p, q := l.attentions[a], m.attentions[a];
            && q.accepted.None? && q.turn == p.turn
            && q.attempts == p.attempts + (if delay <= 0 then 0 else 1)
            && q.terminal == if delay > 0 && q.attempts >= DEFER_MAX_ATTEMPTS then Some(Failed) else None
  {
  }

  // ---- Recovery ----

  function Histories(turns: seq<RemoteTurn>): seq<HistoryTurn> {
    seq(|turns|, k requires 0 <= k < |turns| => turns[k].history)
  }

  /** A prepared dispatch afterwards: bound to the first turn that shows its input, or failed and due again. */
  ghost predicate Resolved(l: Ledger, m: Ledger, a: AttId, turns: seq<HistoryTurn>) {
    && a in l.attentions && a in m.attentions && a in m.intents
    && match TurnForClientMessage(turns, a)
       case Some(x) =>
         && m.intents[a].status.Reconciled? && m.intents[a].turn == Some(x) && x in m.turns
         && m.attentions[a].turn == Some(x) && m.attentions[a].accepted.Some?
         && m.attentions[a].attempts == l.attentions[a].attempts + 1
       case None =>
         && m.intents[a].status.IntentFailed?
         && m.attentions[a] == l.attentions[a].(nextAttempt := m.attentions[a].nextAttempt)
  }

  predicate PreparedOn(l: Ledger, t: ThreadId, a: AttId) {
    Prepared?(l.intents, a) && l.intents[a].thread == t
  }

  /** Every prepared dispatch of the thread but those still to do is resolved, and nothing else has changed. */
  ghost predicate ResolvedBut(l: Ledger, m: Ledger, t: ThreadId, turns: seq<HistoryTurn>, todo: set<AttId>) {
    && m.relays == l.relays && m.threads == l.threads && m.lease == l.lease
    && m.attentions.Keys == l.attentions.Keys && m.intents.Keys == l.intents.Keys
    && NewTurnsOn(l.turns, m.turns, t) && Untreated(l, m, t, todo) && AllResolved(l, m, t, turns, todo)
  }

  ghost predicate AllResolved(l: Ledger, m: Ledger, t: ThreadId, turns: seq<HistoryTurn>, todo: set<AttId>) {
    forall a :: PreparedOn(l, t, a) && a !in todo ==> Resolved(l, m, a, turns)
  }

  ghost predicate NewTurnsOn(before: Turns, after: Turns, t: ThreadId) {
    && (forall x :: x in before ==> x in after && after[x] == before[x])
    && forall x :: x in after && x !in before ==> x.thread == t
  }

  /** Attentions without a dispatch on the thread, or with one still to do, are as they were. */
  ghost predicate Untreated(l: Ledger, m: Ledger, t: ThreadId, todo: set<AttId>)
    requires m.attentions.Keys == l.attentions.Keys && m.intents.Keys == l.intents.Keys
  {
    && (forall a :: a in l.attentions && (!PreparedOn(l, t, a) || a in todo) ==> m.attentions[a] == l.attentions[a])
    && forall a :: a in l.intents && (!PreparedOn(l, t, a) || a in todo) ==> m.intents[a] == l.intents[a]
  }

  ghost predicate DispatchesResolved(l: Ledger, m: Ledger, t: ThreadId, turns: seq<HistoryTurn>) {
    ResolvedBut(l, m, t, turns, {})
  }

  /** One prepared dispatch is bound or retried. */
  ghost predicate ResolvesOne(l: Ledger, m: Ledger, a: AttId, t: ThreadId, turns: seq<HistoryTurn>, epoch: nat) {
    && a in l.attentions && a in l.intents
    && match TurnForClientMessage(turns, a)
       case Some(x) => exists now :: m == Finalize(l, a, t, x, epoch, true, now)
       case None => exists now :: m == RetryUnobserved(l, a, epoch, now)
  }

  lemma ResolvesOneMeans(l: Ledger, m: Ledger, a: AttId, t: ThreadId, turns: seq<HistoryTurn>, epoch: nat)
    requires ResolvesOne(l, m, a, t, turns, epoch) && forall h :: h in turns ==> h.id.thread == t
    ensures m == l.(attentions := m.attentions, intents := m.intents, turns := m.turns, slots := m.slots)
    ensures m.attentions == l.attentions[a := m.attentions[a]] && m.intents == l.intents[a := m.intents[a]]
    ensures Resolved(l, m, a, turns) && NewTurnsOn(l.turns, m.turns, t) && l.turns.Keys <= m.turns.Keys
  {
    ShownOnThread(turns, a, t);
    match TurnForClientMessage(turns, a) {
      case Some(x) =>
        var now :| m == Finalize(l, a, t, x, epoch, true, now);
        RebindingMeans(l, a, t, x, epoch, now);
        hide Finalize;
      case None =>
        var now :| m == RetryUnobserved(l, a, epoch, now);
        hide Finalize;
    }
    hide TurnForClientMessage;
  }

  lemma RebindingMeans(l: Ledger, a: AttId, t: ThreadId, x: TurnId, epoch: nat, now: int)
    requires a in l.attentions && a in l.intents && x.thread == t
    ensures var m := Finalize(l, a, t, x, epoch, true, now);
            && m == l.(attentions := m.attentions, intents := m.intents, turns := m.turns, slots := m.slots)
            && m.attentions == l.attentions[a := m.attentions[a]] && m.intents == l.intents[a := m.intents[a]]
            && m.intents[a].status.Reconciled? && m.intents[a].turn == Some(x) && x in m.turns
            && m.attentions[a].turn == Some(x) && m.attentions[a].accepted.Some? && m.attentions[a].attempts == l.attentions[a].attempts + 1
            && NewTurnsOn(l.turns, m.turns, t) && l.turns.Keys <= m.turns.Keys
  {
    hide Join, SlotsOf;
  }

  lemma ResolvedOne(l: Ledger, mid: Ledger, m: Ledger, t: ThreadId, turns: seq<HistoryTurn>, todo: set<AttId>, a: AttId, epoch: nat)
    requires ResolvedBut(l, mid, t, turns, todo) && PreparedOn(l, t, a) && a in todo && ResolvesOne(mid, m, a, t, turns, epoch)
    requires forall h :: h in turns ==> h.id.thread == t
    ensures ResolvedBut(l, m, t, turns, todo - {a})
  {
    ResolvesOneMeans(mid, m, a, t, turns, epoch);
    hide TurnForClientMessage, ResolvesOne, Resolved, NewTurnsOn, Untreated, PreparedOn, AllResolved;
    MoreTurnsOn(l.turns, mid.turns, m.turns, t);
    KnownPrepared(l, mid, t, turns, todo, a);
    FewerUntreated(l, mid, m, t, todo, a);
    MoreResolved(l, mid, m, t, turns, todo, a);
  }

  lemma KnownPrepared(l: Ledger, mid: Ledger, t: ThreadId, turns: seq<HistoryTurn>, todo: set<AttId>, a: AttId)
    requires ResolvedBut(l, mid, t, turns, todo) && PreparedOn(l, t, a) && a in mid.attentions
    ensures a in l.attentions && a in l.intents
  {
  }

  lemma MoreResolved(l: Ledger, mid: Ledger, m: Ledger, t: ThreadId, turns: seq<HistoryTurn>, todo: set<AttId>, a: AttId)
    requires AllResolved(l, mid, t, turns, todo) && Resolved(mid, m, a, turns)
    requires a in l.attentions && a in mid.attentions && mid.attentions[a] == l.attentions[a]
    requires m.attentions == mid.attentions[a := m.attentions[a]] && m.intents == mid.intents[a := m.intents[a]] && mid.turns.Keys <= m.turns.Keys
    ensures AllResolved(l, m, t, turns, todo - {a})
  {
    ResolvedFrom(l, mid, m, a, turns);
    forall b | PreparedOn(l, t, b) && b !in todo - {a} && b != a ensures Resolved(l, m, b, turns) {
      StaysResolved(l, mid, m, b, turns);
    }
    hide Resolved;
  }

  lemma MoreTurnsOn(l: Turns, mid: Turns, m: Turns, t: ThreadId)
    requires NewTurnsOn(l, mid, t) && NewTurnsOn(mid, m, t)
    ensures NewTurnsOn(l, m, t)
  {
  }

  lemma FewerUntreated(l: Ledger, mid: Ledger, m: Ledger, t: ThreadId, todo: set<AttId>, a: AttId)
    requires mid.attentions.Keys == l.attentions.Keys && mid.intents.Keys == l.intents.Keys && Untreated(l, mid, t, todo)
    requires PreparedOn(l, t, a) && a in todo && a in l.attentions && a in l.intents && a in m.attentions && a in m.intents
    requires m.attentions == mid.attentions[a := m.attentions[a]] && m.intents == mid.intents[a := m.intents[a]]
    ensures Untreated(l, m, t, todo - {a})
    ensures mid.attentions[a] == l.attentions[a]
    ensures forall b :: b in l.attentions && b != a ==> m.attentions[b] == mid.attentions[b]
    ensures forall b :: b in l.intents && b != a ==> m.intents[b] == mid.intents[b]
  {
  }

  lemma ResolvedFrom(l: Ledger, mid: Ledger, m: Ledger, a: AttId, turns: seq<HistoryTurn>)
    requires Resolved(mid, m, a, turns) && a in l.attentions && a in mid.attentions && mid.attentions[a] == l.attentions[a]
    ensures Resolved(l, m, a, turns)
  {
  }

  lemma StaysResolved(l: Ledger, mid: Ledger, m: Ledger, b: AttId, turns: seq<HistoryTurn>)
    requires Resolved(l, mid, b, turns) && mid.turns.Keys <= m.turns.Keys
    requires b in m.attentions && b in m.intents && m.attentions[b] == mid.attentions[b] && m.intents[b] == mid.intents[b]
    ensures Resolved(l, m, b, turns)
  {
  }

  lemma {:induction false} ShownOnThread(turns: seq<HistoryTurn>, a: AttId, t: ThreadId)
    requires forall h :: h in turns ==> h.id.thread == t
    ensures TurnForClientMessage(turns, a).Some? ==> TurnForClientMessage(turns, a).value.thread == t
  {
    if turns != [] && a !in turns[0].inputs {
      ShownOnThread(turns[1..], a, t);
    }
  }

  lemma NoneResolved(l: Ledger, t: ThreadId, turns: seq<HistoryTurn>, todo: set<AttId>)
    requires forall a :: PreparedOn(l, t, a) ==> a in todo
    ensures ResolvedBut(l, l, t, turns, todo)
  {
  }

  lemma StillPrepared(l: Ledger, m: Ledger, t: ThreadId, turns: seq<HistoryTurn>, todo: set<AttId>, a: AttId)
    requires ResolvedBut(l, m, t, turns, todo) && a in todo && PreparedOn(l, t, a)
    ensures PreparedOn(m, t, a)
  {
  }

  lemma SameThreadsResolved(l: Ledger, m: Ledger, t: ThreadId, turns: seq<HistoryTurn>, todo: set<AttId>)
    requires ResolvedBut(l, m, t, turns, todo)
    ensures m.threads == l.threads
  {
  }

  lemma NoneLeftPrepared(l: Ledger, m: Ledger, t: ThreadId, turns: seq<HistoryTurn>)
    requires ResolvedBut(l, m, t, turns, {})
    ensures NoPreparedOn(m.intents, t) && DispatchesResolved(l, m, t, turns)
  {
    forall a | Prepared?(m.intents, a) ensures m.intents[a].thread != t {
      assert PreparedOn(l, t, a) ==> Resolved(l, m, a, turns);
    }
  }

  lemma LostOne(l: Ledger, m: Ledger, a: AttId, t: ThreadId, epoch: nat, now: int)
    requires a in l.attentions && a in l.intents && m == RetryUnobserved(l, a, epoch, now)
    ensures ResolvesOne(l, m, a, t, [], epoch)
  {
  }

  /** A turn given back: closed as failed, empty, and each of its members without a final free again. */
  ghost predicate GivenUp(l: Ledger, m: Ledger, x: TurnId) {
    && x in m.turns && !Open(m.turns[x]) && m.turns[x].terminal == Some(Failed) && Members(m.slots, x) == {}
    && forall a :: a in Members(l.slots, x) && a in l.attentions && l.attentions[a].finalResponse.None? ==> a in m.attentions && Freed(m.attentions[a])
  }

  predicate Freed(att: Attention) {
    att.accepted.None? && att.turn.None? && att.terminal.None? && att.turnCompleted.None?
  }

  /** The open turns of a thread. */
  function OpenOn(turns: Turns, t: ThreadId): set<TurnId> {
    set x | x in turns && turns[x].thread == t && Open(turns[x])
  }

  /** An open turn afterwards: adopted if history shows it or the thread was not idle, given up if it has no output. */
  ghost predicate Settled(l: Ledger, m: Ledger, x: TurnId, turns: seq<RemoteTurn>, idle: set<TurnId>, epoch: nat)
    requires x in l.turns
  {
    if InHistory(turns, x) || x !in idle then x in m.turns && m.turns[x] == l.turns[x].(epoch := epoch)
    else if HasRelay(l.relays, x) then x in m.turns && m.turns[x] == l.turns[x]
    else GivenUp(l, m, x)
  }

  /** The row is untouched but for its epoch, or its turn may have been given up. */
  ghost predicate KeptRow(l: Ledger, m: Ledger, a: AttId)
    requires a in l.attentions
  {
    && a in m.attentions
    && (m.attentions[a] == l.attentions[a].(epoch := m.attentions[a].epoch)
        || (Freed(m.attentions[a]) && exists x :: a in Members(l.slots, x) && x in m.turns && !Open(m.turns[x])))
  }

  ghost predicate SettledBut(l: Ledger, m: Ledger, t: ThreadId, turns: seq<RemoteTurn>, idle: set<TurnId>, epoch: nat, todo: set<TurnId>) {
    && m.relays == l.relays && m.threads == l.threads && m.intents == l.intents && m.lease == l.lease
    && m.attentions.Keys == l.attentions.Keys && m.turns.Keys == l.turns.Keys
    && AllSettled(l, m, t, turns, idle, epoch, todo) && OtherTurnsKept(l, m, t, todo) && RowsKept(l, m)
  }

  ghost predicate AllSettled(l: Ledger, m: Ledger, t: ThreadId, turns: seq<RemoteTurn>, idle: set<TurnId>, epoch: nat, todo: set<TurnId>) {
    forall x :: x in OpenOn(l.turns, t) && x !in todo ==> Settled(l, m, x, turns, idle, epoch)
  }

  /** Turns that were not open on the thread, or are still to do, and their members are as they were. */
  ghost predicate OtherTurnsKept(l: Ledger, m: Ledger, t: ThreadId, todo: set<TurnId>)
    requires m.turns.Keys == l.turns.Keys
  {
    && (forall x :: x in l.turns && (x !in OpenOn(l.turns, t) || x in todo) ==> m.turns[x] == l.turns[x] && Members(m.slots, x) == Members(l.slots, x))
    && forall x :: Members(m.slots, x) <= Members(l.slots, x)
  }

  ghost predicate RowsKept(l: Ledger, m: Ledger)
    requires m.attentions.Keys == l.attentions.Keys
  {
    forall a :: a in l.attentions ==> KeptRow(l, m, a) && m.attentions[a].finalResponse == l.attentions[a].finalResponse
  }

  ghost predicate TurnsSettled(l: Ledger, m: Ledger, t: ThreadId, turns: seq<RemoteTurn>, idle: set<TurnId>, epoch: nat) {
    SettledBut(l, m, t, turns, idle, epoch, {})
  }

  ghost predicate SettlesOne(l: Ledger, m: Ledger, x: TurnId, turns: seq<RemoteTurn>, idle: set<TurnId>, epoch: nat) {
    if InHistory(turns, x) || x !in idle then m == Adopt(l, x, epoch)
    else exists now :: m == RequeueMissingTurn(l, x.thread, x, now)
  }

  lemma AdoptionSettles(l: Ledger, x: TurnId, epoch: nat)
    requires x in l.turns && Open(l.turns[x]) && l.turns[x].terminal.None?
    ensures var m := Adopt(l, x, epoch);
            && m == l.(turns := l.turns[x := l.turns[x].(epoch := epoch)], attentions := m.attentions) && m.attentions.Keys == l.attentions.Keys
            && forall a :: a in l.attentions ==> m.attentions[a] == l.attentions[a].(epoch := m.attentions[a].epoch)
  {
  }

  lemma GivingUpSettles(l: Ledger, x: TurnId, now: int)
    requires x in l.turns && Open(l.turns[x]) && l.turns[x].thread == x.thread && !HasRelay(l.relays, x)
    ensures var m := RequeueMissingTurn(l, x.thread, x, now);
            && m == l.(turns := m.turns, slots := m.slots, attentions := m.attentions)
            && m.turns == l.turns[x := l.turns[x].(completed := Some(now), terminal := Some(Failed))]
            && m.attentions.Keys == l.attentions.Keys
            && (forall y :: Members(m.slots, y) == if y == x then {} else Members(l.slots, y))
            && forall a :: a in l.attentions ==>
                 if a in Members(l.slots, x) && l.attentions[a].finalResponse.None?
                 then Freed(m.attentions[a]) && m.attentions[a].finalResponse.None? else m.attentions[a] == l.attentions[a]
  {
    assert x in LostTurns(l, x.thread);
    assert CloseTurns(l.turns, {x}, now, Failed) == l.turns[x := Close(l.turns[x], now, Some(Failed))];
    forall a | a in l.attentions ensures a in GivenBack(l, {x}) <==> a in Members(l.slots, x) && l.attentions[a].finalResponse.None? {
      assert x in {x};
    }
  }

  /** What one turn's treatment leaves: it is settled, and all else is kept. */
  lemma SettlesOneMeans(l: Ledger, m: Ledger, x: TurnId, turns: seq<RemoteTurn>, idle: set<TurnId>, epoch: nat)
    requires x in l.turns && Open(l.turns[x]) && l.turns[x].terminal.None? && l.turns[x].thread == x.thread
    requires SettlesOne(l, m, x, turns, idle, epoch)
    ensures m == l.(turns := m.turns, slots := m.slots, attentions := m.attentions)
    ensures m.attentions.Keys == l.attentions.Keys && m.turns == l.turns[x := m.turns[x]]
    ensures Settled(l, m, x, turns, idle, epoch) && (Members(m.slots, x) == {} || Members(m.slots, x) == Members(l.slots, x))
    ensures forall y :: y != x ==> Members(m.slots, y) == Members(l.slots, y)
    ensures forall a :: a in l.attentions ==> KeptRow(l, m, a) && m.attentions[a].finalResponse == l.attentions[a].finalResponse
  {
    if InHistory(turns, x) || x !in idle {
      AdoptionSettles(l, x, epoch);
    } else {
      var now :| m == RequeueMissingTurn(l, x.thread, x, now);
      if HasRelay(l.relays, x) {
        assert m == l;
      } else {
        GivingUpSettles(l, x, now);
      }
    }
    hide Adopt, RequeueMissingTurn, Members, InHistory, HasRelay;
  }

  lemma StaysGivenUp(l: Ledger, mid: Ledger, m: Ledger, y: TurnId)
    requires GivenUp(l, mid, y) && y in m.turns && m.turns[y] == mid.turns[y] && Members(m.slots, y) == Members(mid.slots, y)
    requires forall a :: a in mid.attentions ==> KeptRow(mid, m, a)
    ensures GivenUp(l, m, y)
  {
    hide Members;
    forall a | a in Members(l.slots, y) && a in l.attentions && l.attentions[a].finalResponse.None? ensures a in m.attentions && Freed(m.attentions[a]) {
      assert a in mid.attentions && KeptRow(mid, m, a);
    }
  }

  lemma KeptTwice(l: Ledger, mid: Ledger, m: Ledger, a: AttId)
    requires a in l.attentions && KeptRow(l, mid, a) && KeptRow(mid, m, a)
    requires forall y :: Members(mid.slots, y) <= Members(l.slots, y)
    requires forall y :: y in mid.turns && !Open(mid.turns[y]) ==> y in m.turns && !Open(m.turns[y])
    ensures KeptRow(l, m, a)
  {
    hide Members;
  }

  lemma SettledOne(l: Ledger, mid: Ledger, m: Ledger, t: ThreadId, turns: seq<RemoteTurn>, idle: set<TurnId>, epoch: nat, todo: set<TurnId>, x: TurnId)
    requires TurnRowsOk(l.turns) && SettledBut(l, mid, t, turns, idle, epoch, todo) && x in todo && x in OpenOn(l.turns, t)
    requires SettlesOne(mid, m, x, turns, idle, epoch)
    ensures SettledBut(l, m, t, turns, idle, epoch, todo - {x})
  {
    StillToSettle(l, mid, t, todo, x);
    SettlesOneMeans(mid, m, x, turns, idle, epoch);
    hide SettlesOne, Members, InHistory, HasRelay, KeptRow, Settled, AllSettled, OtherTurnsKept, RowsKept, OpenOn;
    MoreRowsKept(l, mid, m, t, todo, x);
    FewerTurnsKept(l, mid, m, t, todo, x);
    MoreSettled(l, mid, m, t, turns, idle, epoch, todo, x);
  }

  lemma StillToSettle(l: Ledger, mid: Ledger, t: ThreadId, todo: set<TurnId>, x: TurnId)
    requires TurnRowsOk(l.turns) && mid.turns.Keys == l.turns.Keys && OtherTurnsKept(l, mid, t, todo) && x in todo && x in OpenOn(l.turns, t)
    ensures x in mid.turns && mid.turns[x] == l.turns[x] && Members(mid.slots, x) == Members(l.slots, x)
    ensures Open(l.turns[x]) && l.turns[x].terminal.None? && l.turns[x].thread == x.thread
  {
    hide Members;
  }

  lemma MoreRowsKept(l: Ledger, mid: Ledger, m: Ledger, t: ThreadId, todo: set<TurnId>, x: TurnId)
    requires mid.attentions.Keys == l.attentions.Keys && m.attentions.Keys == l.attentions.Keys && mid.turns.Keys == l.turns.Keys
    requires RowsKept(l, mid) && OtherTurnsKept(l, mid, t, todo) && x in mid.turns && Open(mid.turns[x]) && x in m.turns && m.turns == mid.turns[x := m.turns[x]]
    requires forall a :: a in mid.attentions ==> KeptRow(mid, m, a) && m.attentions[a].finalResponse == mid.attentions[a].finalResponse
    ensures RowsKept(l, m)
  {
    hide KeptRow, Members;
    forall a | a in l.attentions ensures KeptRow(l, m, a) {
      KeptTwice(l, mid, m, a);
    }
  }

  lemma FewerTurnsKept(l: Ledger, mid: Ledger, m: Ledger, t: ThreadId, todo: set<TurnId>, x: TurnId)
    requires mid.turns.Keys == l.turns.Keys && OtherTurnsKept(l, mid, t, todo) && x in todo && x in OpenOn(l.turns, t)
    requires x in m.turns && m.turns == mid.turns[x := m.turns[x]] && (Members(m.slots, x) == {} || Members(m.slots, x) == Members(mid.slots, x))
    requires forall y :: y != x ==> Members(m.slots, y) == Members(mid.slots, y)
    ensures m.turns.Keys == l.turns.Keys && OtherTurnsKept(l, m, t, todo - {x})
  {
    hide Members;
  }

  lemma MoreSettled(l: Ledger, mid: Ledger, m: Ledger, t: ThreadId, turns: seq<RemoteTurn>, idle: set<TurnId>, epoch: nat, todo: set<TurnId>, x: TurnId)
    requires mid.turns.Keys == l.turns.Keys && mid.attentions.Keys == l.attentions.Keys && mid.relays == l.relays && x in l.turns && x in m.turns
    requires AllSettled(l, mid, t, turns, idle, epoch, todo) && Settled(mid, m, x, turns, idle, epoch) && RowsKept(l, mid)
    requires mid.turns[x] == l.turns[x] && Members(mid.slots, x) == Members(l.slots, x) && m.turns == mid.turns[x := m.turns[x]]
    requires forall y :: y != x ==> Members(m.slots, y) == Members(mid.slots, y)
    requires forall a :: a in mid.attentions ==> KeptRow(mid, m, a)
    ensures AllSettled(l, m, t, turns, idle, epoch, todo - {x})
  {
    hide Members, InHistory, HasRelay, KeptRow, Settled;
    forall y | y in OpenOn(l.turns, t) && y !in todo - {x} ensures Settled(l, m, y, turns, idle, epoch) {
      if y == x {
        SettledFrom(l, mid, m, x, turns, idle, epoch);
      } else {
        StaysSettled(l, mid, m, y, turns, idle, epoch);
      }
    }
  }

  lemma StaysSettled(l: Ledger, mid: Ledger, m: Ledger, y: TurnId, turns: seq<RemoteTurn>, idle: set<TurnId>, epoch: nat)
    requires y in l.turns && Settled(l, mid, y, turns, idle, epoch)
    requires y in mid.turns && y in m.turns && m.turns[y] == mid.turns[y] && Members(m.slots, y) == Members(mid.slots, y)
    requires forall a :: a in mid.attentions ==> KeptRow(mid, m, a)
    ensures Settled(l, m, y, turns, idle, epoch)
  {
    hide Members, InHistory, HasRelay, KeptRow, GivenUp;
    if GivenUp(l, mid, y) {
      StaysGivenUp(l, mid, m, y);
    }
  }

  lemma SettledFrom(l: Ledger, mid: Ledger, m: Ledger, x: TurnId, turns: seq<RemoteTurn>, idle: set<TurnId>, epoch: nat)
    requires x in l.turns && x in mid.turns && mid.turns[x] == l.turns[x] && mid.relays == l.relays && Settled(mid, m, x, turns, idle, epoch)
    requires Members(mid.slots, x) == Members(l.slots, x) && mid.attentions.Keys == l.attentions.Keys
    requires forall a :: a in l.attentions ==> mid.attentions[a].finalResponse == l.attentions[a].finalResponse
    ensures Settled(l, m, x, turns, idle, epoch)
  {
    hide Members, InHistory, HasRelay, GivenUp;
    if GivenUp(mid, m, x) {
      SameGivenUp(l, mid, m, x);
    }
  }

  lemma SameGivenUp(l: Ledger, mid: Ledger, m: Ledger, x: TurnId)
    requires Members(mid.slots, x) == Members(l.slots, x) && GivenUp(mid, m, x) && mid.attentions.Keys == l.attentions.Keys
    requires forall a :: a in l.attentions ==> mid.attentions[a].finalResponse == l.attentions[a].finalResponse
    ensures GivenUp(l, m, x)
  {
    hide Members;
  }

  lemma NoneSettled(l: Ledger, t: ThreadId, turns: seq<RemoteTurn>, idle: set<TurnId>, epoch: nat)
    ensures SettledBut(l, l, t, turns, idle, epoch, OpenOn(l.turns, t))
  {
  }

  lemma SameTablesSettled(l: Ledger, m: Ledger, t: ThreadId, turns: seq<RemoteTurn>, idle: set<TurnId>, epoch: nat, todo: set<TurnId>)
    requires SettledBut(l, m, t, turns, idle, epoch, todo)
    ensures m.threads == l.threads && m.intents == l.intents
  {
  }

  /** The replay of a turn that is unfinished in the ledger or still in progress. */
  function ReplayOf(r: RemoteTurn, unfinished: set<TurnId>): seq<Message> {
    if r.history.id in unfinished || r.status.InProgress? then Replay(r) else []
  }

  function ReplayAll(turns: seq<RemoteTurn>, unfinished: set<TurnId>): seq<Message> {
    if turns == [] then [] else ReplayAll(turns[..|turns| - 1], unfinished) + ReplayOf(turns[|turns| - 1], unfinished)
  }

  /** The running turns after it: the thread's last turn in progress, unless it is over. */
  function AfterShown(active: map<ThreadId, TurnId>, t: ThreadId, r: RemoteTurn, unfinished: set<TurnId>): map<ThreadId, TurnId> {
    if r.status.InProgress? then active[t := r.history.id]
    else if r.history.id in unfinished then AfterReplay(active, r)
    else active
  }

  function AfterReplays(active: map<ThreadId, TurnId>, t: ThreadId, turns: seq<RemoteTurn>, unfinished: set<TurnId>): map<ThreadId, TurnId> {
    if turns == [] then active
    else AfterShown(AfterReplays(active, t, turns[..|turns| - 1], unfinished), t, turns[|turns| - 1], unfinished)
  }

  lemma OneMoreReplay(turns: seq<RemoteTurn>, unfinished: set<TurnId>, k: nat)
    requires k < |turns|
    ensures ReplayAll(turns[..k + 1], unfinished) == ReplayAll(turns[..k], unfinished) + ReplayOf(turns[k], unfinished)
  {
    assert turns[..k + 1][..k] == turns[..k];
  }

  lemma OneMoreRunning(active: map<ThreadId, TurnId>, t: ThreadId, turns: seq<RemoteTurn>, unfinished: set<TurnId>, k: nat)
    requires k < |turns|
    ensures AfterReplays(active, t, turns[..k + 1], unfinished) == AfterShown(AfterReplays(active, t, turns[..k], unfinished), t, turns[k], unfinished)
  {
    assert turns[..k + 1][..k] == turns[..k];
  }

  /** A thread that is there: its dispatches, then its open turns, then the replay of its history. */
  ghost predicate LiveRecovered(l: Ledger, m: Ledger, t: ThreadId, turns: seq<RemoteTurn>, idle: set<TurnId>, live: bool, epoch: nat) {
    exists mid, last :: DispatchesResolved(l, mid, t, Histories(turns)) && TurnsSettled(mid, last, t, turns, idle, epoch)
      && HandledAll(last, ReplayAll(turns, OpenOn(last.turns, t)), m, live, epoch)
  }

  /** A thread that is gone: its dispatches are retried, then its turns given back. */
  ghost predicate GoneRecovered(l: Ledger, m: Ledger, t: ThreadId) {
    exists mid, now :: DispatchesResolved(l, mid, t, []) && m == RequeueMissingThread(mid, t, now)
  }

  /** No turn of the thread that history calls over is open. */
  ghost predicate AllEnded(turns: Turns, t: ThreadId, probes: Probes) {
    forall x :: x in turns && x.thread == t && Open(turns[x]) ==> !Over(probes, x)
  }

  lemma {:induction false} ReplayHas(turns: seq<RemoteTurn>, unfinished: set<TurnId>, r: RemoteTurn) returns (k: nat)
    requires r in turns && r.history.id in unfinished && r.status.Ended?
    ensures k < |ReplayAll(turns, unfinished)| && ReplayAll(turns, unfinished)[k] == Note(TurnCompletedNote(r.history.id, r.status.terminal))
  {
    var n := |turns| - 1;
    assert turns == turns[..n] + [turns[n]];
    if r == turns[n] {
      k := |ReplayAll(turns[..n], unfinished)| + |Replay(r)| - 1;
    } else {
      k := ReplayHas(turns[..n], unfinished, r);
    }
  }

  lemma ReplayEnds(l: Ledger, m: Ledger, t: ThreadId, turns: seq<RemoteTurn>, probes: Probes, live: bool, epoch: nat)
    requires HandledAll(l, ReplayAll(turns, OpenOn(l.turns, t)), m, live, epoch)
    requires (forall x :: x in l.turns ==> l.turns[x].thread == x.thread) && probes(t).Live? && probes(t).turns == turns
    ensures AllEnded(m.turns, t, probes)
  {
    var unfinished := OpenOn(l.turns, t);
    AllGrows(l, ReplayAll(turns, unfinished), m, live, epoch);
    hide HandledAll, ReplayAll;
    forall x | x in m.turns && x.thread == t && Open(m.turns[x]) ensures !Over(probes, x) {
      if Over(probes, x) {
        var r :| r in turns && r.history.id == x && r.status.Ended?;
        var k := ReplayHas(turns, unfinished, r);
        EachCompletionCloses(l, ReplayAll(turns, unfinished), m, live, epoch, k);
        assert false;
      }
    }
  }

  lemma RecoveredEnds(l: Ledger, m: Ledger, t: ThreadId, turns: seq<RemoteTurn>, idle: set<TurnId>, probes: Probes, live: bool, epoch: nat)
    requires LiveRecovered(l, m, t, turns, idle, live, epoch) && TurnRowsOk(m.turns)
    requires probes(t).Live? && probes(t).turns == turns
    ensures AllEnded(m.turns, t, probes) && forall x :: x in m.turns && x !in l.turns ==> x.thread == t
  {
    var mid, last :| DispatchesResolved(l, mid, t, Histories(turns)) && TurnsSettled(mid, last, t, turns, idle, epoch)
      && HandledAll(last, ReplayAll(turns, OpenOn(last.turns, t)), m, live, epoch);
    AllGrows(last, ReplayAll(turns, OpenOn(last.turns, t)), m, live, epoch);
    hide HandledAll, ReplayAll, RowGrows, Resolved, Settled, KeptRow, InHistory, Over, Members;
    assert m.turns.Keys == last.turns.Keys == mid.turns.Keys;
    ReplayEnds(last, m, t, turns, probes, live, epoch);
  }
}
