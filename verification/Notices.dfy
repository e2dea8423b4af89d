/**
  What the notifications of the app-server ask of the ledger (codex_adapter_v2.py, `handle_message`), one
  and in sequence, and what that means row by row.
 */
module Notices {
  import opened Common
  import opened Ledgers
  import opened AgentOutput
  import opened AppServers
  import opened RecoverySteps

  ghost predicate NothingHeld(relays: seq<Relay>, x: TurnId) {
    forall r :: r in relays ==> !(r.op.turn == x && r.op.kind.Candidate?)
  }

  ghost predicate PromotedAs(before: Ledger, mid: Ledger, x: TurnId, held: Relay, live: bool, epoch: nat) {
    if Promotes(before, x, held) then exists now :: mid == RecordFallback(before, x, held, live, epoch, now) else mid == before
  }

  /** Before a turn is closed: its newest held item became a final, if it still answers someone. */
  ghost predicate Promoted(before: Ledger, mid: Ledger, x: TurnId, terminal: Option<Terminal>, live: bool, epoch: nat) {
    if terminal.Some? || NothingHeld(before.relays, x) then mid == before
    else exists held :: LatestCandidate(before.relays, x, held) && PromotedAs(before, mid, x, held, live, epoch)
  }

  /** The ledger after one message, at some readings of the clock. */
  ghost predicate Handled(l: Ledger, message: Message, m: Ledger, live: bool, epoch: nat) {
    match message
    case Note(ItemCompleted(x, item)) => exists now :: m == HandleItem(l, x, item, live, epoch, now)
    case Note(TurnCompletedNote(x, terminal)) =>
      exists mid, now :: Promoted(l, mid, x, terminal, live, epoch) && m == TurnCompleted(mid, x, terminal, now)
    case _ => m == l
  }

  /** The ledger after all of them, in order. */
  ghost predicate HandledAll(l: Ledger, messages: seq<Message>, m: Ledger, live: bool, epoch: nat) {
    if messages == [] then m == l
    else
      var n := |messages| - 1;
      exists mid :: HandledAll(l, messages[..n], mid, live, epoch) && Handled(mid, messages[n], m, live, epoch)
  }

  /** The running turns, of which each completion takes its own away. */
  function AfterEnds(active: map<ThreadId, TurnId>, messages: seq<Message>): map<ThreadId, TurnId> {
    if messages == [] then active
    else
      var before := AfterEnds(active, messages[..|messages| - 1]);
      match messages[|messages| - 1]
      case Note(TurnCompletedNote(x, _)) => if x.thread in before && before[x.thread] == x then before - {x.thread} else before
      case _ => before
  }

  /** A turn of the history as messages: its items, and its completion if it is over. */
  function ItemsOf(x: TurnId, items: seq<AgentItem>): seq<Message> {
    seq(|items|, k requires 0 <= k < |items| => Note(ItemCompleted(x, items[k])))
  }

  function Replay(r: RemoteTurn): seq<Message> {
    ItemsOf(r.history.id, r.items) + if r.status.Ended? then [Note(TurnCompletedNote(r.history.id, r.status.terminal))] else []
  }

  /** The running turns after the replay of a turn. */
  function AfterReplay(active: map<ThreadId, TurnId>, r: RemoteTurn): map<ThreadId, TurnId> {
    var x := r.history.id;
    if r.status.Ended? && x.thread in active && active[x.thread] == x then active - {x.thread} else active
  }

  lemma EndOf(active: map<ThreadId, TurnId>, x: TurnId, terminal: Option<Terminal>)
    ensures AfterEnds(active, [Note(TurnCompletedNote(x, terminal))])
            == if x.thread in active && active[x.thread] == x then active - {x.thread} else active
  {
    assert [Note(TurnCompletedNote(x, terminal))][..0] == [];
    assert AfterEnds(active, []) == active;
  }

  lemma EndOfOther(active: map<ThreadId, TurnId>, message: Message)
    requires !(message.Note? && message.note.TurnCompletedNote?)
    ensures AfterEnds(active, [message]) == active
  {
    assert [message][..0] == [];
    assert AfterEnds(active, []) == active;
  }

  /** No held item can be promoted while nobody lacks a final. */
  lemma NobodyToPromote(l: Ledger, x: TurnId, terminal: Option<Terminal>, live: bool, epoch: nat)
    requires terminal.Some? || Uncovered(l, x) == {}
    ensures Promoted(l, l, x, terminal, live, epoch)
  {
    if terminal.None? && !NothingHeld(l.relays, x) {
      var held := SomeLatest(l.relays, x);
      assert PromotedAs(l, l, x, held, live, epoch);
    }
  }

  lemma {:induction false} SomeLatest(relays: seq<Relay>, x: TurnId) returns (held: Relay)
    requires !NothingHeld(relays, x)
    ensures LatestCandidate(relays, x, held)
  {
    var n := |relays| - 1;
    assert relays == relays[..n] + [relays[n]];
    if NothingHeld(relays[..n], x) {
      held := relays[n];
    } else {
      held := SomeLatest(relays[..n], x);
      if relays[n].op.turn == x && relays[n].op.kind.Candidate? && held.createdAt <= relays[n].createdAt {
        held := relays[n];
      }
    }
  }

  lemma OneMoreHandled(l: Ledger, messages: seq<Message>, mid: Ledger, message: Message, m: Ledger, live: bool, epoch: nat)
    requires HandledAll(l, messages, mid, live, epoch) && Handled(mid, message, m, live, epoch)
    ensures HandledAll(l, messages + [message], m, live, epoch)
  {
    assert (messages + [message])[..|messages|] == messages;
    hide Handled;
  }

  lemma OneMoreEnd(active: map<ThreadId, TurnId>, messages: seq<Message>, message: Message)
    ensures AfterEnds(active, messages + [message]) == AfterEnds(AfterEnds(active, messages), [message])
  {
    assert (messages + [message])[..|messages|] == messages;
    assert [message][..0] == [];
    assert AfterEnds(AfterEnds(active, messages), []) == AfterEnds(active, messages);
  }

  lemma {:induction false} HandledInTurn(l: Ledger, some: seq<Message>, mid: Ledger, more: seq<Message>, m: Ledger, live: bool, epoch: nat)
    requires HandledAll(l, some, mid, live, epoch) && HandledAll(mid, more, m, live, epoch)
    ensures HandledAll(l, some + more, m, live, epoch)
  {
    hide Handled;
    if more == [] {
      assert some + more == some;
    } else {
      var n := |more| - 1;
      var last :| HandledAll(mid, more[..n], last, live, epoch) && Handled(last, more[n], m, live, epoch);
      HandledInTurn(l, some, mid, more[..n], last, live, epoch);
      OneMoreHandled(l, some + more[..n], last, more[n], m, live, epoch);
      assert some + more == some + more[..n] + [more[n]];
    }
  }

  lemma {:induction false} EndsInTurn(active: map<ThreadId, TurnId>, some: seq<Message>, more: seq<Message>)
    ensures AfterEnds(active, some + more) == AfterEnds(AfterEnds(active, some), more)
  {
    if more == [] {
      assert some + more == some;
    } else {
      var n := |more| - 1;
      EndsInTurn(active, some, more[..n]);
      assert (some + more)[..|some| + n] == some + more[..n];
    }
  }

  // ---- Row by row ----

  /** A member of the turn that has not ended. */
  ghost predicate Answerable(l: Ledger, x: TurnId, a: AttId) {
    x in l.slots && a in l.slots[x].Values && a in l.attentions && l.attentions[a].terminal.None?
  }

  /** Accepted on the turn, not ended, and covered by no output of that kind. */
  ghost predicate Lacks(l: Ledger, x: TurnId, a: AttId, kind: RelayKind) {
    && a in l.attentions && l.attentions[a].turn == Some(x)
    && l.attentions[a].accepted.Some? && l.attentions[a].terminal.None?
    && forall r :: r in l.relays && r.op.turn == x && r.op.kind == kind ==> a !in r.op.covered
  }

  /** The item has left a row before. */
  ghost predicate Shown(relays: seq<Relay>, x: TurnId, item: ItemId) {
    exists r :: r in relays && r.op.turn == x && r.op.item == item
  }

  /** What an item is taken for: a reply waived, a final or commentary while someone lacks one, or held. */
  ghost predicate KindFits(l: Ledger, x: TurnId, item: AgentItem, kind: RelayKind) {
    if item.text == NO_REPLY_SENTINEL then kind.NoReply?
    else match item.phase
      case FinalPhase => if exists a :: Lacks(l, x, a, Final) then kind.Final? else kind.FinalSuppressed?
      case CommentaryPhase =>
        if (forall r :: r in l.relays && r.op.turn == x ==> !r.op.kind.Commentary?)
           || (exists a :: Lacks(l, x, a, Commentary) && Direct(l.attentions[a].priority))
        then kind.Commentary? else kind.CommentarySuppressed?
      case NoPhase => kind.Candidate?
  }

  predicate StatusFits(kind: RelayKind, status: RelayStatus, live: bool) {
    if kind.Final? || kind.Commentary? then status == (if live then Pending else Shadow)
    else status == (if kind.Candidate? then Held else Suppressed)
  }

  /** Closed by a waived reply: the row names the turn, asks for no reply, and is still open. */
  ghost predicate Optional(l: Ledger, x: TurnId, a: AttId) {
    && a in l.attentions && l.attentions[a].turn == Some(x) && !l.attentions[a].replyRequired
    && l.attentions[a].finalResponse.None? && l.attentions[a].terminal.None?
  }

  lemma {:induction false} CoverageMeans(relays: seq<Relay>, x: TurnId, kind: RelayKind, a: AttId)
    ensures a in Coverage(Ops(relays), x, kind) <==> exists r :: r in relays && r.op.turn == x && r.op.kind == kind && a in r.op.covered
  {
    if relays != [] {
      var n := |relays| - 1;
      CoverageMeans(relays[..n], x, kind, a);
      assert Ops(relays)[..n] == Ops(relays[..n]) && relays == relays[..n] + [relays[n]];
    }
  }

  lemma GatesMean(l: Ledger, x: TurnId)
    ensures forall a :: a in Uncovered(l, x) <==> Lacks(l, x, a, Final)
    ensures Uncovered(l, x) != {} <==> exists a :: Lacks(l, x, a, Final)
    ensures AllowsCommentary(l, x) <==>
            (forall r :: r in l.relays && r.op.turn == x ==> !r.op.kind.Commentary?)
            || (exists a :: Lacks(l, x, a, Commentary) && Direct(l.attentions[a].priority))
  {
    forall a, kind ensures a in LiveOn(l, x) && a !in Coverage(Ops(l.relays), x, kind) <==> Lacks(l, x, a, kind) {
      CoverageMeans(l.relays, x, kind, a);
    }
    assert forall r :: r in l.relays ==> r.op in Ops(l.relays) by {
      forall r | r in l.relays ensures r.op in Ops(l.relays) {
        var i :| 0 <= i < |l.relays| && l.relays[i] == r;
        assert Ops(l.relays)[i] == r.op;
      }
    }
  }

  lemma MembersMean(l: Ledger, x: TurnId)
    ensures forall a :: a in AcceptedForTurn(l, x) <==> Answerable(l, x, a)
  {
  }

  lemma KindIsRight(l: Ledger, x: TurnId, item: AgentItem)
    ensures KindFits(l, x, item, OutputKind(l, x, item))
  {
    GatesMean(l, x);
    hide LiveOn, Uncovered, AllowsCommentary, Coverage, Lacks;
  }

  /** What `create_output` adds. */
  lemma CreatedRow(l: Ledger, op: OpId, text: string, live: bool, epoch: nat, now: int)
    ensures var m := CreateOutput(l, op, text, live, epoch, now);
            && m == l.(relays := m.relays)
            && if op.covered == {} || RelayTaken(l.relays, op) then m.relays == l.relays
               else m.relays == l.relays + [Relay(op, text, OutputStatus(op.kind, live), 0, 0, now, None, epoch)]
    ensures StatusFits(op.kind, OutputStatus(op.kind, live), live)
  {
  }

  lemma RecordedRow(l: Ledger, x: TurnId, item: AgentItem, live: bool, epoch: nat, now: int)
    ensures var m, kind := RecordItem(l, x, item, live, epoch, now), OutputKind(l, x, item);
            m.relays == if item.text == "" || HasItem(l.relays, x, item.id) || AcceptedForTurn(l, x) == {} then l.relays
                        else l.relays + [Relay(OpId(AcceptedForTurn(l, x), x, item.id, kind), item.text, OutputStatus(kind, live), 0, 0, now, None, epoch)]
    ensures StatusFits(OutputKind(l, x, item), OutputStatus(OutputKind(l, x, item), live), live)
  {
    var op := OpId(AcceptedForTurn(l, x), x, item.id, OutputKind(l, x, item));
    CreatedRow(l, op, item.text, live, epoch, now);
    hide CreateOutput, OutputKind, OutputStatus, AcceptedForTurn, StatusFits;
    assert RelayTaken(l.relays, op) ==> HasItem(l.relays, x, item.id);
  }

  lemma HandledItem(l: Ledger, x: TurnId, item: AgentItem, live: bool, epoch: nat, now: int)
    ensures var m, r := HandleItem(l, x, item, live, epoch, now), RecordItem(l, x, item, live, epoch, now);
            && m.relays == r.relays && r == l.(relays := r.relays) && m == l.(relays := r.relays, attentions := m.attentions)
            && m.attentions == if item.text == NO_REPLY_SENTINEL && !HasItem(l.relays, x, item.id) && x in l.turns
                               then CancelRows(l.attentions, Waived(l, x)) else l.attentions
  {
    CreatedRow(l, OpId(AcceptedForTurn(l, x), x, item.id, OutputKind(l, x, item)), item.text, live, epoch, now);
    hide CreateOutput, OutputKind, AcceptedForTurn;
    assert Waived(RecordItem(l, x, item, live, epoch, now), x) == Waived(l, x);
  }

  /**
    An item of some text leaves exactly one row, once, if the turn has a member that has not ended: with the
    item's text, covering exactly those members, of the kind and status that fit. Otherwise it leaves none.
   */
  lemma ItemLeavesOneRow(l: Ledger, x: TurnId, item: AgentItem, m: Ledger, live: bool, epoch: nat)
    requires Handled(l, Note(ItemCompleted(x, item)), m, live, epoch)
    ensures if item.text == "" || Shown(l.relays, x, item.id) || !exists a :: Answerable(l, x, a) then m.relays == l.relays
            else |m.relays| == |l.relays| + 1 && m.relays[..|l.relays|] == l.relays && RowOfItem(l, x, item, m.relays[|l.relays|], live, epoch)
  {
    var now :| m == HandleItem(l, x, item, live, epoch, now);
    HandledItem(l, x, item, live, epoch, now);
    RecordedRow(l, x, item, live, epoch, now);
    KindIsRight(l, x, item);
    MembersMean(l, x);
    hide Handled, HandleItem, RecordItem, OutputKind, OutputStatus, AcceptedForTurn, Answerable, KindFits, StatusFits, CancelRows, Waived;
    assert AcceptedForTurn(l, x) == {} <==> !exists a :: Answerable(l, x, a);
  }

  ghost predicate RowOfItem(l: Ledger, x: TurnId, item: AgentItem, r: Relay, live: bool, epoch: nat) {
    && r.text == item.text && r.op.turn == x && r.op.item == item.id
    && (forall a :: a in r.op.covered <==> Answerable(l, x, a))
    && KindFits(l, x, item, r.op.kind) && StatusFits(r.op.kind, r.status, live)
    && r.attempts == 0 && r.acceptedAt.None? && r.epoch == epoch
  }

  /** And changes no row but those a waived reply closes: the open optional ones of the turn. */
  lemma ItemWaives(l: Ledger, x: TurnId, item: AgentItem, m: Ledger, live: bool, epoch: nat)
    requires Handled(l, Note(ItemCompleted(x, item)), m, live, epoch)
    ensures m.turns == l.turns && m.slots == l.slots && m.intents == l.intents && m.threads == l.threads
    ensures m.attentions.Keys == l.attentions.Keys
    ensures forall a :: a in l.attentions ==>
              m.attentions[a] == if item.text == NO_REPLY_SENTINEL && !Shown(l.relays, x, item.id) && x in l.turns && Optional(l, x, a)
                                 then l.attentions[a].(terminal := Some(Cancelled)) else l.attentions[a]
  {
    var now :| m == HandleItem(l, x, item, live, epoch, now);
    HandledItem(l, x, item, live, epoch, now);
    hide Handled, HandleItem, RecordItem;
  }

  /** The held item still answers someone: an attention it covers lacks a final, and one of them can be answered. */
  ghost predicate StillAnswers(l: Ledger, x: TurnId, held: Relay) {
    && (exists a :: a in held.op.covered && Lacks(l, x, a, Final))
    && (exists a :: a in held.op.covered && Answerable(l, x, a))
    && forall r :: r in l.relays ==> !(r.op.turn == x && r.op.item == Fallback(held.op.item) && r.op.kind.Final?)
  }

  ghost predicate NewestHeld(relays: seq<Relay>, x: TurnId, held: Relay) {
    && held in relays && held.op.turn == x && held.op.kind.Candidate?
    && forall r :: r in relays && r.op.turn == x && r.op.kind.Candidate? ==> r.createdAt <= held.createdAt
  }

  /** One more row than before: a final with the held item's text, for those it covered that can be answered. */
  ghost predicate AnswersWith(l: Ledger, x: TurnId, held: Relay, after: seq<Relay>, live: bool) {
    && |after| == |l.relays| + 1 && after[..|l.relays|] == l.relays
    && var r := after[|l.relays|];
       && r.text == held.text && r.op.turn == x && r.op.item == Fallback(held.op.item) && r.op.kind.Final?
       && (forall a :: a in r.op.covered <==> a in held.op.covered && Answerable(l, x, a))
       && StatusFits(Final, r.status, live)
  }

  /**
    A turn that completes answers with its newest held item if that still answers someone, and with nothing
    otherwise; a turn that ends in any other way suppresses what is unsent.
   */
  lemma CompletionAnswers(l: Ledger, x: TurnId, terminal: Option<Terminal>, m: Ledger, live: bool, epoch: nat)
    requires Handled(l, Note(TurnCompletedNote(x, terminal)), m, live, epoch)
    ensures terminal.None? && NothingHeld(l.relays, x) ==> m.relays == l.relays
    ensures terminal.None? && !NothingHeld(l.relays, x) ==>
              exists held :: NewestHeld(l.relays, x, held)
                && if StillAnswers(l, x, held) then AnswersWith(l, x, held, m.relays, live) else m.relays == l.relays
    ensures terminal.Some? ==>
              && |m.relays| == |l.relays|
              && forall i :: 0 <= i < |l.relays| ==>
                   m.relays[i] == if x in l.turns && l.relays[i].op.turn == x && (l.relays[i].status.Pending? || l.relays[i].status.Held?)
                                  then l.relays[i].(status := Suppressed, nextAttempt := 0) else l.relays[i]
  {
    var mid, now :| Promoted(l, mid, x, terminal, live, epoch) && m == TurnCompleted(mid, x, terminal, now);
    CompletionRelays(mid, x, terminal, now);
    hide Handled, TurnCompleted, PromotedAs, StillAnswers, AnswersWith;
    if terminal.None? && !NothingHeld(l.relays, x) {
      var held :| LatestCandidate(l.relays, x, held) && PromotedAs(l, mid, x, held, live, epoch);
      PromotionAnswers(l, mid, x, held, live, epoch);
      assert NewestHeld(l.relays, x, held);
    }
  }

  lemma CompletionRelays(l: Ledger, x: TurnId, terminal: Option<Terminal>, now: int)
    ensures var m := TurnCompleted(l, x, terminal, now);
            && |m.relays| == |l.relays|
            && (terminal.None? ==> m.relays == l.relays)
            && (terminal.Some? ==> forall i :: 0 <= i < |l.relays| ==>
                 m.relays[i] == if x in l.turns && l.relays[i].op.turn == x && (l.relays[i].status.Pending? || l.relays[i].status.Held?)
                                then l.relays[i].(status := Suppressed, nextAttempt := 0) else l.relays[i])
  {
  }

  lemma PromotionAnswers(l: Ledger, mid: Ledger, x: TurnId, held: Relay, live: bool, epoch: nat)
    requires PromotedAs(l, mid, x, held, live, epoch)
    ensures if StillAnswers(l, x, held) then AnswersWith(l, x, held, mid.relays, live) else mid.relays == l.relays
  {
    var now: int := 0;
    if Promotes(l, x, held) {
      now :| mid == RecordFallback(l, x, held, live, epoch, now);
    }
    GatesMean(l, x);
    MembersMean(l, x);
    var op := OpId(AcceptedForTurn(l, x) * held.op.covered, x, Fallback(held.op.item), Final);
    CreatedRow(l, op, held.text, live, epoch, now);
    hide Uncovered, AcceptedForTurn, Lacks, Answerable, CreateOutput, StatusFits, OutputStatus;
    MeansMeet(held.op.covered, Uncovered(l, x));
    MeansMeet(AcceptedForTurn(l, x), held.op.covered);
  }

  lemma MeansMeet(some: set<AttId>, others: set<AttId>)
    ensures some * others != {} <==> exists a :: a in some && a in others
  {
    if a :| a in some && a in others {
      assert a in some * others;
    }
  }

  /** The turn and the rows that name it are closed with that end; all others stay as they were. */
  ghost predicate ClosedWith(l: Ledger, m: Ledger, x: TurnId, terminal: Option<Terminal>) {
    && m.turns.Keys == l.turns.Keys && m.attentions.Keys == l.attentions.Keys
    && m.slots == l.slots && m.intents == l.intents && m.threads == l.threads
    && (forall y :: y in l.turns ==>
          if y == x then !Open(m.turns[y]) && m.turns[y] == l.turns[y].(completed := m.turns[y].completed, terminal := terminal)
          else m.turns[y] == l.turns[y])
    && forall a :: a in l.attentions ==>
         if x in l.turns && l.attentions[a].turn == Some(x)
         then && m.attentions[a].turnCompleted.Some?
              && m.attentions[a] == l.attentions[a].(turnCompleted := m.attentions[a].turnCompleted,
                   terminal := if l.attentions[a].terminal.Some? then l.attentions[a].terminal else terminal)
         else m.attentions[a] == l.attentions[a]
  }

  lemma ClosingMeans(l: Ledger, x: TurnId, terminal: Option<Terminal>, now: int)
    ensures ClosedWith(l, TurnCompleted(l, x, terminal, now), x, terminal)
  {
    hide SuppressFor;
  }

  lemma CompletionCloses(l: Ledger, x: TurnId, terminal: Option<Terminal>, m: Ledger, live: bool, epoch: nat)
    requires Handled(l, Note(TurnCompletedNote(x, terminal)), m, live, epoch)
    ensures ClosedWith(l, m, x, terminal)
  {
    var mid, now :| Promoted(l, mid, x, terminal, live, epoch) && m == TurnCompleted(mid, x, terminal, now);
    PromotionFrame(l, mid, x, terminal, live, epoch);
    ClosingMeans(mid, x, terminal, now);
    hide Handled, Promoted, TurnCompleted;
  }

  lemma PromotionFrame(l: Ledger, mid: Ledger, x: TurnId, terminal: Option<Terminal>, live: bool, epoch: nat)
    requires Promoted(l, mid, x, terminal, live, epoch)
    ensures mid == l.(relays := mid.relays) && Ops(l.relays) <= Ops(mid.relays)
    ensures |l.relays| <= |mid.relays| && mid.relays[..|l.relays|] == l.relays
  {
  }

  // ---- In sequence ----

  ghost predicate RowGrows(p: Attention, q: Attention) {
    q.turn == p.turn && q.accepted == p.accepted && (p.terminal.Some? ==> q.terminal.Some?)
  }

  /** Rows, texts and coverage stay; members stay; what has ended stays ended. */
  ghost predicate Grows(l: Ledger, m: Ledger) {
    && |l.relays| <= |m.relays|
    && (forall i :: 0 <= i < |l.relays| ==> m.relays[i].op == l.relays[i].op && m.relays[i].text == l.relays[i].text)
    && m.slots == l.slots && m.intents == l.intents && m.threads == l.threads && m.attentions.Keys == l.attentions.Keys
    && (forall a :: a in l.attentions ==> RowGrows(l.attentions[a], m.attentions[a]))
    && m.turns.Keys == l.turns.Keys
    && forall x :: x in l.turns ==> m.turns[x].thread == l.turns[x].thread && (Open(m.turns[x]) ==> Open(l.turns[x]))
  }

  lemma RowsOnlyAdded(l: Ledger, x: TurnId, item: AgentItem, m: Ledger, live: bool, epoch: nat)
    requires Handled(l, Note(ItemCompleted(x, item)), m, live, epoch)
    ensures |l.relays| <= |m.relays| && m.relays[..|l.relays|] == l.relays
  {
    ItemLeavesOneRow(l, x, item, m, live, epoch);
    hide Handled, RowOfItem, Shown, Answerable;
  }

  lemma CompletionKeepsRows(l: Ledger, x: TurnId, terminal: Option<Terminal>, m: Ledger, live: bool, epoch: nat)
    requires Handled(l, Note(TurnCompletedNote(x, terminal)), m, live, epoch)
    ensures |l.relays| <= |m.relays|
    ensures forall i :: 0 <= i < |l.relays| ==> m.relays[i].op == l.relays[i].op && m.relays[i].text == l.relays[i].text
  {
    var mid, now :| Promoted(l, mid, x, terminal, live, epoch) && m == TurnCompleted(mid, x, terminal, now);
    PromotionFrame(l, mid, x, terminal, live, epoch);
    CompletionRelays(mid, x, terminal, now);
    hide Handled, Promoted, TurnCompleted;
    forall i | 0 <= i < |l.relays| ensures m.relays[i].op == l.relays[i].op && m.relays[i].text == l.relays[i].text {
      assert mid.relays[i] == l.relays[i];
    }
  }

  lemma ItemGrows(l: Ledger, x: TurnId, item: AgentItem, m: Ledger, live: bool, epoch: nat)
    requires Handled(l, Note(ItemCompleted(x, item)), m, live, epoch)
    ensures Grows(l, m)
  {
    ItemWaives(l, x, item, m, live, epoch);
    RowsOnlyAdded(l, x, item, m, live, epoch);
    hide Handled, Shown, Optional;
    forall i | 0 <= i < |l.relays| ensures m.relays[i] == l.relays[i] {
      assert m.relays[..|l.relays|][i] == l.relays[i];
    }
  }

  lemma CompletionGrows(l: Ledger, x: TurnId, terminal: Option<Terminal>, m: Ledger, live: bool, epoch: nat)
    requires Handled(l, Note(TurnCompletedNote(x, terminal)), m, live, epoch)
    ensures Grows(l, m)
  {
    CompletionCloses(l, x, terminal, m, live, epoch);
    CompletionKeepsRows(l, x, terminal, m, live, epoch);
    hide Handled;
  }

  lemma HandledGrows(l: Ledger, message: Message, m: Ledger, live: bool, epoch: nat)
    requires Handled(l, message, m, live, epoch)
    ensures Grows(l, m)
  {
    match message {
      case Note(ItemCompleted(x, item)) => ItemGrows(l, x, item, m, live, epoch);
      case Note(TurnCompletedNote(x, terminal)) => CompletionGrows(l, x, terminal, m, live, epoch);
      case _ => assert m == l;
    }
  }

  lemma GrowsChain(l: Ledger, m: Ledger, n: Ledger)
    requires Grows(l, m) && Grows(m, n)
    ensures Grows(l, n)
  {
  }

  lemma {:induction false} AllGrows(l: Ledger, messages: seq<Message>, m: Ledger, live: bool, epoch: nat)
    requires HandledAll(l, messages, m, live, epoch)
    ensures Grows(l, m)
  {
    if messages == [] {
      assert Grows(l, l);
    } else {
      hide Handled, Grows;
      var n := |messages| - 1;
      var mid :| HandledAll(l, messages[..n], mid, live, epoch) && Handled(mid, messages[n], m, live, epoch);
      AllGrows(l, messages[..n], mid, live, epoch);
      HandledGrows(mid, messages[n], m, live, epoch);
      GrowsChain(l, mid, m);
    }
  }

  /** Each message is handled in its turn, on what those before it left. */
  lemma {:induction false} EachMessageIsHandled(l: Ledger, messages: seq<Message>, m: Ledger, live: bool, epoch: nat, k: nat) returns (before: Ledger, after: Ledger)
    requires HandledAll(l, messages, m, live, epoch) && k < |messages|
    ensures HandledAll(l, messages[..k], before, live, epoch) && Handled(before, messages[k], after, live, epoch)
    ensures HandledAll(after, messages[k + 1..], m, live, epoch)
    decreases |messages|
  {
    hide Handled;
    var n := |messages| - 1;
    var mid :| HandledAll(l, messages[..n], mid, live, epoch) && Handled(mid, messages[n], m, live, epoch);
    if k == n {
      before, after := mid, m;
    } else {
      before, after := EachMessageIsHandled(l, messages[..n], mid, live, epoch, k);
      assert messages[..n][..k] == messages[..k];
      OneMoreHandled(after, messages[..n][k + 1..], mid, messages[n], m, live, epoch);
      assert messages[..n][k + 1..] + [messages[n]] == messages[k + 1..];
    }
  }

  /** No item is dropped: if its turn has a member that has not ended in the end, it has left a row. */
  lemma EachItemHasARow(l: Ledger, messages: seq<Message>, m: Ledger, live: bool, epoch: nat, k: nat, a: AttId)
    requires HandledAll(l, messages, m, live, epoch) && k < |messages|
    requires messages[k].Note? && messages[k].note.ItemCompleted? && messages[k].note.item.text != ""
    requires Answerable(m, messages[k].note.turn, a)
    ensures Shown(m.relays, messages[k].note.turn, messages[k].note.item.id)
  {
    var x, item := messages[k].note.turn, messages[k].note.item;
    var before, after := EachMessageIsHandled(l, messages, m, live, epoch, k);
    AllGrows(after, messages[k + 1..], m, live, epoch);
    HandledGrows(before, messages[k], after, live, epoch);
    ItemLeavesOneRow(before, x, item, after, live, epoch);
    hide Handled, HandledAll, RowOfItem;
    assert Answerable(before, x, a);
    var i :| 0 <= i < |after.relays| && after.relays[i].op.turn == x && after.relays[i].op.item == item.id;
    assert m.relays[i] in m.relays;
  }

  /** No completion is dropped: its turn is closed in the end. */
  lemma EachCompletionCloses(l: Ledger, messages: seq<Message>, m: Ledger, live: bool, epoch: nat, k: nat)
    requires HandledAll(l, messages, m, live, epoch) && k < |messages|
    requires messages[k].Note? && messages[k].note.TurnCompletedNote? && messages[k].note.turn in l.turns
    ensures messages[k].note.turn in m.turns && !Open(m.turns[messages[k].note.turn])
  {
    var before, after := EachMessageIsHandled(l, messages, m, live, epoch, k);
    AllGrows(l, messages[..k], before, live, epoch);
    AllGrows(after, messages[k + 1..], m, live, epoch);
    CompletionCloses(before, messages[k].note.turn, messages[k].note.terminal, after, live, epoch);
  }
}
