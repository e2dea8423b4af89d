/**
  The attention ledger of one identity as a value: one field per table of attention_store.py, and
  one function per transaction saying what the whole new database is. The class AttentionStore is
  proved to compute exactly these; the invariants and the run theorems are about these.
 */
module Ledgers {
  import opened Common
  import opened Leases

  type AttId = nat
  type ThreadId = nat

  /** A Codex turn id; the app-server gives every turn to exactly one thread. */
  datatype TurnId = TurnId(thread: ThreadId, serial: nat)

  /** An item id, and the id made from it by appending ":fallback". */
  datatype ItemId = Item(serial: nat) | Fallback(of: ItemId)

  datatype Scope = Scope(server: string, room: string)

  /** What the stored event asks for: a control command, retired metadata, or ordinary work. */
  datatype EventKind = Work | StopControl | RoomClosedControl | OtherControl | RetiredMetadata

  datatype Terminal = Failed | Interrupted | Cancelled | Expired

  /** `rank` is that of the record: of its declared priority, or of its content if it declares none that is known. */
  datatype Attention = Attention(
    scope: Scope, priority: Priority, rank: nat, replyRequired: bool, event: EventKind,
    sourceOffset: nat, storedAt: int,
    accepted: Option<int>, firstResponse: Option<int>, finalResponse: Option<int>,
    turnCompleted: Option<int>, terminal: Option<Terminal>,
    turn: Option<TurnId>, epoch: Option<nat>, attempts: nat, nextAttempt: int)

  datatype TurnRow = TurnRow(
    scope: Scope, thread: ThreadId, epoch: nat, started: int,
    completed: Option<int>, terminal: Option<Terminal>)

  datatype Operation = StartTurn | SteerTurn

  datatype IntentStatus = Prepared | Accepted | Reconciled | IntentFailed

  datatype Intent = Intent(
    scope: Scope, thread: ThreadId, operation: Operation, status: IntentStatus,
    turn: Option<TurnId>, preparedAt: int, epoch: nat)

  datatype RelayKind = Final | Commentary | Candidate | NoReply | FinalSuppressed | CommentarySuppressed

  datatype RelayStatus = Pending | Held | Shadow | Suppressed | Sent

  /** The op id is a digest of coverage, turn, item and kind; digests are injective here. */
  datatype OpId = OpId(covered: set<AttId>, turn: TurnId, item: ItemId, kind: RelayKind)

  datatype Relay = Relay(
    op: OpId, text: string, status: RelayStatus,
    attempts: nat, nextAttempt: int, createdAt: int, acceptedAt: Option<int>, epoch: nat)

  /** `slots` is turn_attentions (position to attention per turn); `relays` is in insertion order. */
  datatype Ledger = Ledger(
    attentions: map<AttId, Attention>,
    turns: map<TurnId, TurnRow>,
    slots: map<TurnId, map<nat, AttId>>,
    intents: map<AttId, Intent>,
    relays: seq<Relay>,
    threads: map<Scope, ThreadId>,
    lease: Option<Lease>)

  const EMPTY_LEDGER := Ledger(map[], map[], map[], map[], [], map[], None)

  const DEFER_MAX_ATTEMPTS := 8
  const DEFER_MAX_DELAY_MS := 30_000

  // ---- Queries ----

  function SlotsOf(slots: map<TurnId, map<nat, AttId>>, x: TurnId): map<nat, AttId> {
    if x in slots then slots[x] else map[]
  }

  function Members(slots: map<TurnId, map<nat, AttId>>, x: TurnId): set<AttId> {
    SlotsOf(slots, x).Values
  }

  /** `accepted_for_turn`: the nonterminal members of a turn. */
  function AcceptedForTurn(l: Ledger, x: TurnId): set<AttId> {
    set a | a in Members(l.slots, x) && a in l.attentions && l.attentions[a].terminal.None?
  }

  function Ops(relays: seq<Relay>): seq<OpId> {
    seq(|relays|, i requires 0 <= i < |relays| => relays[i].op)
  }

  predicate HasRelay(relays: seq<Relay>, x: TurnId) {
    exists r :: r in relays && r.op.turn == x
  }

  /** `turn_has_relay_item`. */
  predicate HasItem(relays: seq<Relay>, x: TurnId, item: ItemId) {
    exists r :: r in relays && r.op.turn == x && r.op.item == item
  }

  /** All attentions covered by relays of one kind on one turn. */
  function Coverage(ops: seq<OpId>, x: TurnId, kind: RelayKind): set<AttId> {
    if ops == [] then {}
    else
      var last := ops[|ops| - 1];
      Coverage(ops[..|ops| - 1], x, kind) + if last.turn == x && last.kind == kind then last.covered else {}
  }

  /** Attentions whose row names turn `x`, accepted and not terminal. */
  function LiveOn(l: Ledger, x: TurnId): set<AttId> {
    set a | a in l.attentions && l.attentions[a].turn == Some(x)
            && l.attentions[a].accepted.Some? && l.attentions[a].terminal.None?
  }

  /** `uncovered_final_attention_ids`. */
  function Uncovered(l: Ledger, x: TurnId): set<AttId> {
    LiveOn(l, x) - Coverage(Ops(l.relays), x, Final)
  }

  predicate HasKind(ops: seq<OpId>, x: TurnId, kind: RelayKind) {
    exists op :: op in ops && op.turn == x && op.kind == kind
  }

  /** `turn_allows_commentary`. */
  predicate AllowsCommentary(l: Ledger, x: TurnId) {
    !HasKind(Ops(l.relays), x, Commentary) ||
    exists a :: a in LiveOn(l, x) && Direct(l.attentions[a].priority) && a !in Coverage(Ops(l.relays), x, Commentary)
  }

  predicate Open(t: TurnRow) {
    t.completed.None?
  }

  predicate PendingWork(att: Attention, now: int) {
    att.accepted.None? && att.terminal.None? && att.nextAttempt <= now
  }

  /** Counted by `progress_summary` as reply_required_pending. */
  function ReplyRequiredPending(l: Ledger): set<AttId> {
    set a | a in l.attentions && l.attentions[a].replyRequired
            && l.attentions[a].finalResponse.None? && l.attentions[a].terminal.None?
  }

  // ---- Row updates shared by several transactions ----

  function Requeue(att: Attention, now: int, clearFirst: bool): Attention {
    att.(accepted := None, turn := None, epoch := None, turnCompleted := None, terminal := None,
         nextAttempt := now, firstResponse := if clearFirst then None else att.firstResponse)
  }

  function Close(t: TurnRow, now: int, terminal: Option<Terminal>): TurnRow {
    t.(completed := Some(now), terminal := terminal)
  }

  function SuppressRow(r: Relay): Relay {
    if r.status.Pending? || r.status.Held? then r.(status := Suppressed, nextAttempt := 0) else r
  }

  function SuppressFor(relays: seq<Relay>, xs: set<TurnId>): seq<Relay> {
    seq(|relays|, i requires 0 <= i < |relays| => if relays[i].op.turn in xs then SuppressRow(relays[i]) else relays[i])
  }

  /** INSERT OR IGNORE at position COUNT(*): ignored when that position is taken or `a` is a member. */
  function Join(m: map<nat, AttId>, a: AttId): map<nat, AttId> {
    if |m| in m || a in m.Values then m else m[|m| := a]
  }

  // ---- Transactions ----

  function Ingest(l: Ledger, a: AttId, row: Attention): Ledger {
    if a in l.attentions then l else l.(attentions := l.attentions[a := row])
  }

  function SetThread(l: Ledger, scope: Scope, t: ThreadId): Ledger {
    l.(threads := l.threads[scope := t])
  }

  /** `_mark_accepted_in_transaction`. */
  function MarkAccepted(l: Ledger, a: AttId, t: ThreadId, x: TurnId, epoch: nat, now: int): Ledger
    requires a in l.attentions
  {
    var att := l.attentions[a];
    l.(turns := if x in l.turns then l.turns else l.turns[x := TurnRow(att.scope, t, epoch, now, None, None)],
       slots := l.slots[x := Join(SlotsOf(l.slots, x), a)],
       attentions := l.attentions[a := att.(accepted := Some(att.accepted.GetOr(now)), turn := Some(x),
                                            epoch := Some(epoch), attempts := att.attempts + 1)])
  }

  function Prepare(l: Ledger, a: AttId, t: ThreadId, operation: Operation, epoch: nat, now: int): Ledger
    requires a in l.attentions
  {
    l.(intents := l.intents[a := Intent(l.attentions[a].scope, t, operation, Prepared, None, now, epoch)])
  }

  function Finalize(l: Ledger, a: AttId, t: ThreadId, x: TurnId, epoch: nat, reconciled: bool, now: int): Ledger
    requires a in l.attentions && a in l.intents
  {
    var m := MarkAccepted(l, a, t, x, epoch, now);
    m.(intents := l.intents[a := l.intents[a].(status := if reconciled then Reconciled else Accepted,
                                               turn := Some(x), epoch := epoch)])
  }

  /** `retry_unobserved_dispatch`. */
  function RetryUnobserved(l: Ledger, a: AttId, epoch: nat, now: int): Ledger {
    if a !in l.intents then l
    else
      var m := l.(intents := l.intents[a := l.intents[a].(status := IntentFailed, epoch := epoch)]);
      if a in l.attentions && l.attentions[a].accepted.None? && l.attentions[a].terminal.None?
      then m.(attentions := l.attentions[a := l.attentions[a].(nextAttempt := now)])
      else m
  }

  function Pow2(n: nat): nat {
    if n == 0 then 1 else 2 * Pow2(n - 1)
  }

  /** The delay before retry number `attempt`, counted from 1. */
  function Backoff(delay: int, attempt: nat): int
    requires attempt >= 1
  {
    Min(DEFER_MAX_DELAY_MS, delay * Pow2(attempt - 1))
  }

  function Defer(l: Ledger, a: AttId, delay: int, now: int): Ledger {
    if a !in l.attentions then l
    else
      var att := l.attentions[a];
      var row :=
        if delay <= 0 then att.(nextAttempt := now + delay)
        else if att.attempts + 1 >= DEFER_MAX_ATTEMPTS
        then att.(attempts := att.attempts + 1, terminal := Some(Failed))
        else att.(attempts := att.attempts + 1, nextAttempt := now + Backoff(delay, att.attempts + 1));
      l.(attentions := l.attentions[a := row])
  }

  /** The open, output-free turns of a thread: the ones `requeue_missing_thread` gives back. */
  function LostTurns(l: Ledger, t: ThreadId): set<TurnId> {
    set x | x in l.turns && l.turns[x].thread == t && Open(l.turns[x]) && !HasRelay(l.relays, x)
  }

  function RequeueRows(rows: map<AttId, Attention>, back: set<AttId>, clearFirst: bool, now: int): map<AttId, Attention> {
    map a | a in rows :: if a in back then Requeue(rows[a], now, clearFirst) else rows[a]
  }

  function CloseTurns(turns: map<TurnId, TurnRow>, xs: set<TurnId>, now: int, terminal: Terminal): map<TurnId, TurnRow> {
    map x | x in turns :: if x in xs then Close(turns[x], now, Some(terminal)) else turns[x]
  }

  function EmptySlots(slots: map<TurnId, map<nat, AttId>>, xs: set<TurnId>): map<TurnId, map<nat, AttId>> {
    map x | x in slots :: if x in xs then map[] else slots[x]
  }

  /** The attentions that `GiveBack` requeues. */
  function GivenBack(l: Ledger, xs: set<TurnId>): set<AttId> {
    set a | a in l.attentions && l.attentions[a].finalResponse.None? && exists x :: x in xs && a in Members(l.slots, x)
  }

  /** Close the turns `xs` as failed, detach all their members, requeue those without a final. */
  function GiveBack(l: Ledger, xs: set<TurnId>, clearFirst: bool, now: int): Ledger {
    l.(turns := CloseTurns(l.turns, xs, now, Failed),
       slots := EmptySlots(l.slots, xs),
       attentions := RequeueRows(l.attentions, GivenBack(l, xs), clearFirst, now))
  }

  function RequeueMissingThread(l: Ledger, t: ThreadId, now: int): Ledger {
    GiveBack(l, LostTurns(l, t), false, now).(threads := map s | s in l.threads && l.threads[s] != t :: l.threads[s])
  }

  function RequeueMissingTurn(l: Ledger, t: ThreadId, x: TurnId, now: int): Ledger {
    if x in LostTurns(l, t) then GiveBack(l, {x}, true, now) else l
  }

  /** The members that a stop detaches and requeues. */
  function StopRequeued(l: Ledger, x: TurnId): set<AttId> {
    set a | a in Members(l.slots, x) && a in l.attentions
            && Protected(l.attentions[a].priority) && l.attentions[a].finalResponse.None?
  }

  /** Detach the positions held by `back`. */
  function Detach(m: map<nat, AttId>, back: set<AttId>): map<nat, AttId> {
    map p | p in m && m[p] !in back :: m[p]
  }

  /** Among `touched`, the rows in `back` are requeued and the others end as interrupted. */
  function StopRows(rows: map<AttId, Attention>, touched: set<AttId>, back: set<AttId>, now: int): map<AttId, Attention> {
    map a | a in rows ::
      if a in back then Requeue(rows[a], now, false)
      else if a in touched then rows[a].(turnCompleted := Some(now), terminal := Some(Interrupted))
      else rows[a]
  }

  function InterruptTurn(l: Ledger, x: TurnId, now: int): Ledger {
    if x !in l.turns then l
    else
      var back := StopRequeued(l, x);
      l.(turns := l.turns[x := Close(l.turns[x], now, Some(Interrupted))],
         slots := l.slots[x := Detach(SlotsOf(l.slots, x), back)],
         attentions := StopRows(l.attentions, Members(l.slots, x), back, now),
         relays := SuppressFor(l.relays, {x}))
  }

  /** Older disposable chat of the room that a stop cancels while still pending. */
  function StopCancelled(l: Ledger, c: AttId): set<AttId>
    requires c in l.attentions
  {
    set a | a in l.attentions && a != c && l.attentions[a].scope == l.attentions[c].scope
            && l.attentions[a].accepted.None? && l.attentions[a].terminal.None?
            && l.attentions[a].sourceOffset < l.attentions[c].sourceOffset
            && !Protected(l.attentions[a].priority)
  }

  function CancelRows(rows: map<AttId, Attention>, hit: set<AttId>): map<AttId, Attention> {
    map a | a in rows :: if a in hit then rows[a].(terminal := Some(Cancelled)) else rows[a]
  }

  function CancelPending(l: Ledger, c: AttId, epoch: nat, now: int): Ledger
    requires c in l.attentions
  {
    var cancelled := StopCancelled(l, c);
    var att := l.attentions[c];
    l.(attentions := CancelRows(l.attentions, cancelled)[c :=
         att.(accepted := Some(att.accepted.GetOr(now)), turnCompleted := Some(att.turnCompleted.GetOr(now)),
              terminal := Some(Cancelled), epoch := Some(epoch), attempts := att.attempts + 1)])
  }

  predicate Unfinished(att: Attention) {
    att.terminal.None? &&
    (att.accepted.None? || att.turnCompleted.None? || (att.replyRequired && att.finalResponse.None?))
  }

  function CancelUnfinished(rows: map<AttId, Attention>, scope: Scope, now: int): map<AttId, Attention> {
    map a | a in rows ::
      if rows[a].scope == scope && Unfinished(rows[a])
      then rows[a].(turnCompleted := Some(rows[a].turnCompleted.GetOr(now)), terminal := Some(Cancelled))
      else rows[a]
  }

  function CloseRoom(l: Ledger, c: AttId, epoch: nat, now: int): Ledger
    requires c in l.attentions
  {
    var scope := l.attentions[c].scope;
    var cancelled := CancelUnfinished(l.attentions, scope, now);
    var control := cancelled[c];
    l.(turns := CloseTurns(l.turns, (set x | x in l.turns && l.turns[x].scope == scope && Open(l.turns[x])), now, Cancelled),
       attentions := cancelled[c := control.(accepted := Some(control.accepted.GetOr(now)),
                                             epoch := Some(epoch), attempts := control.attempts + 1)],
       relays := SuppressFor(l.relays, set x | x in l.turns && l.turns[x].scope == scope),
       threads := map s | s in l.threads && s != scope :: l.threads[s])
  }

  /** INSERT OR IGNORE under PRIMARY KEY op_id and UNIQUE (turn_id, item_id, relay_kind). */
  predicate RelayTaken(relays: seq<Relay>, op: OpId) {
    exists r :: r in relays && r.op.turn == op.turn && r.op.item == op.item && r.op.kind == op.kind
  }

  function CreateRelay(l: Ledger, op: OpId, text: string, status: RelayStatus, epoch: nat, now: int): Ledger {
    if RelayTaken(l.relays, op) then l
    else l.(relays := l.relays + [Relay(op, text, status, 0, 0, now, None, epoch)])
  }

  function RelayFailed(l: Ledger, op: OpId, delay: int, now: int): Ledger {
    l.(relays := seq(|l.relays|, i requires 0 <= i < |l.relays| =>
         var r := l.relays[i];
         if r.op == op
         then r.(attempts := r.attempts + 1, nextAttempt := now + Min(60_000, delay * Pow2(Min(r.attempts, 6))))
         else r))
  }

  function Answer(att: Attention, final: bool, now: int): Attention {
    att.(firstResponse := Some(att.firstResponse.GetOr(now)),
         finalResponse := if final then Some(att.finalResponse.GetOr(now)) else att.finalResponse)
  }

  function AnswerRows(rows: map<AttId, Attention>, covered: set<AttId>, final: bool, now: int): map<AttId, Attention> {
    map a | a in rows :: if a in covered then Answer(rows[a], final, now) else rows[a]
  }

  function RelayAccepted(l: Ledger, op: OpId, now: int): Ledger {
    l.(relays := seq(|l.relays|, i requires 0 <= i < |l.relays| =>
         var r := l.relays[i];
         if r.op == op
         then r.(status := Sent, attempts := r.attempts + 1, acceptedAt := Some(now), nextAttempt := 0)
         else r),
       attentions := AnswerRows(l.attentions, op.covered, op.kind == Final, now))
  }

  /** The optional attentions that `mark_turn_no_reply` closes. */
  function Waived(l: Ledger, x: TurnId): set<AttId> {
    set a | a in l.attentions && l.attentions[a].turn == Some(x) && l.attentions[a].finalResponse.None?
            && l.attentions[a].terminal.None? && !l.attentions[a].replyRequired
  }

  function TurnNoReply(l: Ledger, x: TurnId): Ledger {
    if x !in l.turns then l
    else l.(attentions := CancelRows(l.attentions, Waived(l, x)))
  }

  function CompleteRows(rows: map<AttId, Attention>, x: TurnId, terminal: Option<Terminal>, now: int): map<AttId, Attention> {
    map a | a in rows ::
      if rows[a].turn == Some(x)
      then rows[a].(turnCompleted := Some(now), terminal := if rows[a].terminal.Some? then rows[a].terminal else terminal)
      else rows[a]
  }

  function TurnCompleted(l: Ledger, x: TurnId, terminal: Option<Terminal>, now: int): Ledger {
    if x !in l.turns then l
    else
      l.(turns := l.turns[x := Close(l.turns[x], now, terminal)],
         attentions := CompleteRows(l.attentions, x, terminal, now),
         relays := if terminal.Some? then SuppressFor(l.relays, {x}) else l.relays)
  }

  function AdoptRows(rows: map<AttId, Attention>, x: TurnId, epoch: nat): map<AttId, Attention> {
    map a | a in rows ::
      if rows[a].turn == Some(x) && rows[a].turnCompleted.None? && rows[a].terminal.None?
      then rows[a].(epoch := Some(epoch)) else rows[a]
  }

  function Adopt(l: Ledger, x: TurnId, epoch: nat): Ledger {
    if x !in l.turns then l
    else
      l.(turns := if Open(l.turns[x]) && l.turns[x].terminal.None?
                  then l.turns[x := l.turns[x].(epoch := epoch)] else l.turns,
         attentions := AdoptRows(l.attentions, x, epoch))
  }

  /** The turns that `reap_stale_turns_after_recovery` closes. */
  function Stale(l: Ledger, epoch: nat): set<TurnId> {
    set x | x in l.turns && l.turns[x].epoch < epoch && Open(l.turns[x]) && l.turns[x].terminal.None?
  }

  function AbandonRows(rows: map<AttId, Attention>, xs: set<TurnId>, now: int): map<AttId, Attention> {
    map a | a in rows ::
      if rows[a].turn.Some? && rows[a].turn.value in xs && rows[a].terminal.None? && !rows[a].replyRequired
      then rows[a].(turnCompleted := Some(now), terminal := Some(Interrupted))
      else rows[a]
  }

  /** Close the turns `xs` as interrupted; reply-required attentions stay pending obligations. */
  function CloseAbandoned(l: Ledger, xs: set<TurnId>, now: int): Ledger {
    l.(turns := CloseTurns(l.turns, xs, now, Interrupted),
       attentions := AbandonRows(l.attentions, xs, now),
       relays := SuppressFor(l.relays, xs))
  }

  function Reap(l: Ledger, epoch: nat, now: int): Ledger {
    CloseAbandoned(l, Stale(l, epoch), now)
  }

  function RetireLegacy(l: Ledger, a: AttId): Ledger {
    if a in l.attentions && l.attentions[a].accepted.None? && l.attentions[a].terminal.None?
       && !Protected(l.attentions[a].priority) && l.attentions[a].event.RetiredMetadata?
    then l.(attentions := l.attentions[a := l.attentions[a].(terminal := Some(Cancelled))])
    else l
  }
}
