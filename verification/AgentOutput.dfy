/**
  How the adapter turns agent messages into relay items (codex_adapter_v2.py, `create_output`,
  `handle_agent_item`, `handle_turn_completed`), and the budgets that bound a turn's output.
 */
module AgentOutput {
  import opened Common
  import opened Ledgers

  datatype ItemPhase = CommentaryPhase | FinalPhase | NoPhase

  /** An `agentMessage` item; the text is already stripped. */
  datatype AgentItem = AgentItem(id: ItemId, text: string, phase: ItemPhase)

  const NO_REPLY_SENTINEL := "LOCA_NO_REPLY"

  function OutputKind(l: Ledger, x: TurnId, item: AgentItem): RelayKind {
    if item.text == NO_REPLY_SENTINEL then NoReply
    else match item.phase
      case CommentaryPhase => if AllowsCommentary(l, x) then Commentary else CommentarySuppressed
      case FinalPhase => if Uncovered(l, x) == {} then FinalSuppressed else Final
      case NoPhase => Candidate
  }

  function OutputStatus(kind: RelayKind, live: bool): RelayStatus {
    match kind
    case Final => if live then Pending else Shadow
    case Commentary => if live then Pending else Shadow
    case Candidate => Held
    case NoReply => Suppressed
    case FinalSuppressed => Suppressed
    case CommentarySuppressed => Suppressed
  }

  /** Nothing is recorded when nothing is covered. */
  function CreateOutput(l: Ledger, op: OpId, text: string, live: bool, epoch: nat, now: int): Ledger {
    if op.covered == {} then l else CreateRelay(l, op, text, OutputStatus(op.kind, live), epoch, now)
  }

  /** The relay row an item leaves, if any; a replayed item leaves none. */
  function RecordItem(l: Ledger, x: TurnId, item: AgentItem, live: bool, epoch: nat, now: int): Ledger {
    if item.text == "" || HasItem(l.relays, x, item.id) then l
    else CreateOutput(l, OpId(AcceptedForTurn(l, x), x, item.id, OutputKind(l, x, item)), item.text, live, epoch, now)
  }

  /** `handle_agent_item`: the sentinel also waives the optional attentions of the turn. */
  function HandleItem(l: Ledger, x: TurnId, item: AgentItem, live: bool, epoch: nat, now: int): Ledger {
    var recorded := RecordItem(l, x, item, live, epoch, now);
    if item.text == NO_REPLY_SENTINEL && !HasItem(l.relays, x, item.id) then TurnNoReply(recorded, x) else recorded
  }

  /** A held item no other held item of the turn is newer than. */
  ghost predicate LatestCandidate(relays: seq<Relay>, x: TurnId, c: Relay) {
    && c in relays && c.op.turn == x && c.op.kind.Candidate?
    && forall r :: r in relays && r.op.turn == x && r.op.kind.Candidate? ==> r.createdAt <= c.createdAt
  }

  /** The held item is promoted only for what it covered and no final covers yet. */
  predicate Promotes(l: Ledger, x: TurnId, c: Relay) {
    c.op.covered * Uncovered(l, x) != {}
  }

  function RecordFallback(l: Ledger, x: TurnId, c: Relay, live: bool, epoch: nat, now: int): Ledger {
    CreateOutput(l, OpId(AcceptedForTurn(l, x) * c.op.covered, x, Fallback(c.op.item), Final), c.text, live, epoch, now)
  }

  // ---- Budgets ----

  /** Each final of the turn covers an attention that no earlier final of the turn covered. */
  ghost predicate EachFinalNew(ops: seq<OpId>, x: TurnId) {
    forall j :: 0 <= j < |ops| && ops[j].turn == x && ops[j].kind.Final? ==>
      !(ops[j].covered <= Coverage(ops[..j], x, Final))
  }

  /** Each commentary after the turn's first covers a direct attention no earlier commentary covered. */
  ghost predicate EachCommentaryNew(ops: seq<OpId>, x: TurnId, direct: set<AttId>) {
    forall j :: 0 <= j < |ops| && ops[j].turn == x && ops[j].kind.Commentary? && HasKind(ops[..j], x, Commentary) ==>
      !(ops[j].covered * direct <= Coverage(ops[..j], x, Commentary))
  }

  function CountKind(ops: seq<OpId>, x: TurnId, kind: RelayKind): nat {
    if ops == [] then 0
    else
      var last := ops[|ops| - 1];
      CountKind(ops[..|ops| - 1], x, kind) + if last.turn == x && last.kind == kind then 1 else 0
  }

  lemma EachFinalNewPrefix(ops: seq<OpId>, x: TurnId, n: nat)
    requires EachFinalNew(ops, x) && n <= |ops|
    ensures EachFinalNew(ops[..n], x)
  {
    forall j | 0 <= j < n && ops[j].turn == x && ops[j].kind.Final?
      ensures !(ops[j].covered <= Coverage(ops[..n][..j], x, Final))
    {
      assert ops[..n][..j] == ops[..j];
    }
  }

  /** There are at most as many finals as attentions covered by finals. */
  lemma {:induction false} FinalsBounded(ops: seq<OpId>, x: TurnId)
    requires EachFinalNew(ops, x)
    ensures CountKind(ops, x, Final) <= |Coverage(ops, x, Final)|
  {
    if ops != [] {
      var n := |ops| - 1;
      EachFinalNewPrefix(ops, x, n);
      FinalsBounded(ops[..n], x);
      if ops[n].turn == x && ops[n].kind.Final? {
        var a :| a in ops[n].covered && a !in Coverage(ops[..n], x, Final);
        SubsetSize(Coverage(ops[..n], x, Final) + {a}, Coverage(ops, x, Final));
      } else {
        SubsetSize(Coverage(ops[..n], x, Final), Coverage(ops, x, Final));
      }
    }
  }

  lemma EachCommentaryNewPrefix(ops: seq<OpId>, x: TurnId, direct: set<AttId>, n: nat)
    requires EachCommentaryNew(ops, x, direct) && n <= |ops|
    ensures EachCommentaryNew(ops[..n], x, direct)
  {
    forall j | 0 <= j < n && ops[j].turn == x && ops[j].kind.Commentary? && HasKind(ops[..n][..j], x, Commentary)
      ensures !(ops[j].covered * direct <= Coverage(ops[..n][..j], x, Commentary))
    {
      assert ops[..n][..j] == ops[..j];
    }
  }

  lemma {:induction false} NoKindNoCount(ops: seq<OpId>, x: TurnId, kind: RelayKind)
    requires !HasKind(ops, x, kind)
    ensures CountKind(ops, x, kind) == 0
  {
    if ops != [] {
      var n := |ops| - 1;
      assert ops[n] in ops;
      NoKindNoCount(ops[..n], x, kind);
    }
  }

  /** There is at most one commentary more than there are direct attentions covered by commentaries. */
  lemma {:induction false} CommentariesBounded(ops: seq<OpId>, x: TurnId, direct: set<AttId>)
    requires EachCommentaryNew(ops, x, direct)
    ensures CountKind(ops, x, Commentary) <= 1 + |Coverage(ops, x, Commentary) * direct|
  {
    if ops != [] {
      var n := |ops| - 1;
      EachCommentaryNewPrefix(ops, x, direct, n);
      CommentariesBounded(ops[..n], x, direct);
      var before, after := Coverage(ops[..n], x, Commentary) * direct, Coverage(ops, x, Commentary) * direct;
      SubsetSize(before, after);
      if ops[n].turn == x && ops[n].kind.Commentary? {
        if HasKind(ops[..n], x, Commentary) {
          var a :| a in ops[n].covered * direct && a !in Coverage(ops[..n], x, Commentary);
          SubsetSize(before + {a}, after);
        } else {
          NoKindNoCount(ops[..n], x, Commentary);
        }
      }
    }
  }

  /** Coverage never exceeds what some set allows every relay of the turn to cover. */
  lemma {:induction false} CoverageWithin(ops: seq<OpId>, x: TurnId, kind: RelayKind, limit: set<AttId>)
    requires forall op :: op in ops && op.turn == x ==> op.covered <= limit
    ensures Coverage(ops, x, kind) <= limit
  {
    if ops != [] {
      var n := |ops| - 1;
      assert ops[n] in ops;
      CoverageWithin(ops[..n], x, kind, limit);
    }
  }

  /** One more output keeps both budgets when it is new in the sense its kind requires. */
  lemma AppendKeepsBudgets(ops: seq<OpId>, op: OpId, x: TurnId, direct: set<AttId>)
    requires EachFinalNew(ops, x) && EachCommentaryNew(ops, x, direct)
    requires op.turn == x && op.kind.Final? ==> !(op.covered <= Coverage(ops, x, Final))
    requires op.turn == x && op.kind.Commentary? && HasKind(ops, x, Commentary)
             ==> !(op.covered * direct <= Coverage(ops, x, Commentary))
    ensures EachFinalNew(ops + [op], x) && EachCommentaryNew(ops + [op], x, direct)
  {
    var more := ops + [op];
    forall j | 0 <= j < |more| && more[j].turn == x
      ensures more[j].kind.Final? ==> !(more[j].covered <= Coverage(more[..j], x, Final))
      ensures more[j].kind.Commentary? && HasKind(more[..j], x, Commentary)
              ==> !(more[j].covered * direct <= Coverage(more[..j], x, Commentary))
    {
      if j < |ops| {
        assert more[..j] == ops[..j];
      } else {
        assert more[..j] == ops;
      }
    }
  }

  /** More direct attentions only make the commentary budget easier to keep. */
  lemma MoreDirectKeeps(ops: seq<OpId>, x: TurnId, direct: set<AttId>, more: set<AttId>)
    requires EachCommentaryNew(ops, x, direct) && direct <= more
    ensures EachCommentaryNew(ops, x, more)
  {
    forall j | 0 <= j < |ops| && ops[j].turn == x && ops[j].kind.Commentary? && HasKind(ops[..j], x, Commentary)
      ensures !(ops[j].covered * more <= Coverage(ops[..j], x, Commentary))
    {
      var a :| a in ops[j].covered * direct && a !in Coverage(ops[..j], x, Commentary);
      assert a in ops[j].covered * more;
    }
  }
}
