/**
  What the ledger's larger transactions do, row by row: which rows they touch, what becomes of each, and that
  all others stay as they were.
 */
module LedgerMeanings {
  import opened Common
  import opened Ledgers

  /** Free to be dispatched again, from this moment. */
  predicate FreeAgain(before: Attention, after: Attention, now: int) {
    && after.accepted.None? && after.turn.None? && after.epoch.None? && after.turnCompleted.None? && after.terminal.None?
    && after.nextAttempt == now
    && after == before.(accepted := None, turn := None, epoch := None, turnCompleted := None, terminal := None,
                        nextAttempt := now, firstResponse := after.firstResponse)
  }

  ghost predicate MemberOf(l: Ledger, x: TurnId, a: AttId) {
    x in l.slots && a in l.slots[x].Values
  }

  /** What is unsent of a turn is suppressed; all else stays. */
  ghost predicate UnsentSuppressed(before: seq<Relay>, after: seq<Relay>, suppressed: set<TurnId>) {
    |after| == |before| && forall i :: 0 <= i < |before| ==>
      after[i] == if before[i].op.turn in suppressed && (before[i].status.Pending? || before[i].status.Held?)
                  then before[i].(status := Suppressed, nextAttempt := 0) else before[i]
  }

  // ---- Stop ----

  /** Chat of the room stored before the control, not accepted, not ended and not protected. */
  predicate OlderChat(l: Ledger, c: AttId, a: AttId)
    requires c in l.attentions && a in l.attentions
  {
    var att, control := l.attentions[a], l.attentions[c];
    && a != c && att.scope == control.scope && att.accepted.None? && att.terminal.None?
    && att.sourceOffset < control.sourceOffset
    && !(att.priority.SecurityControl? || att.priority.CareSignal? || att.priority.ExplicitTask?)
  }

  /** A stop cancels exactly the older chat of its room, and nothing that came after it. */
  lemma StopCancelsOlderChat(l: Ledger, c: AttId, epoch: nat, now: int)
    requires c in l.attentions
    ensures var m := CancelPending(l, c, epoch, now);
            && m == l.(attentions := m.attentions) && m.attentions.Keys == l.attentions.Keys
            && (forall a :: a in l.attentions && a != c ==>
                  m.attentions[a] == if OlderChat(l, c, a) then l.attentions[a].(terminal := Some(Cancelled)) else l.attentions[a])
            && m.attentions[c].terminal == Some(Cancelled) && m.attentions[c].accepted.Some? && m.attentions[c].turnCompleted.Some?
            && m.attentions[c].attempts == l.attentions[c].attempts + 1 && m.attentions[c].epoch == Some(epoch)
  {
  }

  /** An interrupted turn frees its protected members without a final response, and ends the others. */
  lemma InterruptMeans(l: Ledger, x: TurnId, now: int)
    requires x in l.turns
    ensures var m := InterruptTurn(l, x, now);
            && m.intents == l.intents && m.threads == l.threads && m.attentions.Keys == l.attentions.Keys
            && m.turns == l.turns[x := l.turns[x].(completed := Some(now), terminal := Some(Interrupted))]
            && UnsentSuppressed(l.relays, m.relays, {x})
            && forall a :: a in l.attentions ==>
                 var att := l.attentions[a];
                 var again := (att.priority.SecurityControl? || att.priority.CareSignal? || att.priority.ExplicitTask?) && att.finalResponse.None?;
                 if !MemberOf(l, x, a) then m.attentions[a] == att
                 else if again then FreeAgain(att, m.attentions[a], now) && m.attentions[a].firstResponse == att.firstResponse
                 else m.attentions[a] == att.(turnCompleted := Some(now), terminal := Some(Interrupted))
    ensures var m := InterruptTurn(l, x, now);
            forall y, a :: MemberOf(m, y, a) <==>
              MemberOf(l, y, a) && !(y == x && a in l.attentions && Protected(l.attentions[a].priority) && l.attentions[a].finalResponse.None?)
  {
    hide SuppressFor;
    SuppressionMeans(l.relays, {x});
    InterruptMembers(l, x, now);
  }

  lemma SuppressionMeans(relays: seq<Relay>, xs: set<TurnId>)
    ensures UnsentSuppressed(relays, SuppressFor(relays, xs), xs)
  {
  }

  lemma InterruptMembers(l: Ledger, x: TurnId, now: int)
    requires x in l.turns
    ensures var m := InterruptTurn(l, x, now);
            forall y, a :: MemberOf(m, y, a) <==>
              MemberOf(l, y, a) && !(y == x && a in l.attentions && Protected(l.attentions[a].priority) && l.attentions[a].finalResponse.None?)
  {
    var m := InterruptTurn(l, x, now);
    var slots, back := SlotsOf(l.slots, x), StopRequeued(l, x);
    hide StopRows, SuppressFor;
    forall a ensures a in Detach(slots, back).Values <==> a in slots.Values && a !in back {
      if a in slots.Values && a !in back {
        var p :| p in slots && slots[p] == a;
        assert Detach(slots, back)[p] == a;
      }
    }
  }

  // ---- Closing a room, and giving a thread back ----

  /** A closure touches only its room: other rooms' turns, attentions, outputs and threads stay as they were. */
  lemma ClosureSparesOtherRooms(l: Ledger, c: AttId, epoch: nat, now: int)
    requires c in l.attentions
    ensures var m, scope := CloseRoom(l, c, epoch, now), l.attentions[c].scope;
            && m.slots == l.slots && m.intents == l.intents
            && m.turns.Keys == l.turns.Keys && m.attentions.Keys == l.attentions.Keys
            && (forall x :: x in l.turns && l.turns[x].scope != scope ==> m.turns[x] == l.turns[x])
            && (forall a :: a in l.attentions && l.attentions[a].scope != scope ==> m.attentions[a] == l.attentions[a])
            && (forall s :: s != scope ==> (s in m.threads <==> s in l.threads) && (s in l.threads ==> m.threads[s] == l.threads[s]))
            && UnsentSuppressed(l.relays, m.relays, set x | x in l.turns && l.turns[x].scope == scope)
  {
    SuppressionMeans(l.relays, set x | x in l.turns && l.turns[x].scope == l.attentions[c].scope);
    hide SuppressFor;
  }

  /** Of a lost thread, the open turns without output fail, and each member of one that has no final is free again. */
  lemma LostThreadMeans(l: Ledger, t: ThreadId, now: int)
    ensures var m := RequeueMissingThread(l, t, now);
            && m.relays == l.relays && m.intents == l.intents && m.attentions.Keys == l.attentions.Keys && m.turns.Keys == l.turns.Keys
            && (forall x :: x in l.turns ==>
                  m.turns[x] == if Lost(l, t, x) then l.turns[x].(completed := Some(now), terminal := Some(Failed)) else l.turns[x])
            && (forall a :: a in l.attentions ==>
                  if l.attentions[a].finalResponse.None? && exists x :: Lost(l, t, x) && MemberOf(l, x, a)
                  then FreeAgain(l.attentions[a], m.attentions[a], now) && m.attentions[a].firstResponse == l.attentions[a].firstResponse
                  else m.attentions[a] == l.attentions[a])
            && (forall x, a :: MemberOf(m, x, a) <==> MemberOf(l, x, a) && !Lost(l, t, x))
            && forall s :: (s in m.threads <==> s in l.threads && l.threads[s] != t) && (s in m.threads ==> m.threads[s] == l.threads[s])
  {
    forall x ensures Lost(l, t, x) <==> x in LostTurns(l, t) {
    }
    hide LostTurns, Lost;
  }

  ghost predicate Lost(l: Ledger, t: ThreadId, x: TurnId) {
    && x in l.turns && l.turns[x].thread == t && l.turns[x].completed.None?
    && forall r :: r in l.relays ==> r.op.turn != x
  }

  /** Of one turn given back likewise, and the first response of its members is forgotten. */
  lemma LostTurnMeans(l: Ledger, x: TurnId, now: int)
    requires Lost(l, x.thread, x)
    ensures var m := RequeueMissingTurn(l, x.thread, x, now);
            && m.relays == l.relays && m.intents == l.intents && m.threads == l.threads
            && m.turns == l.turns[x := l.turns[x].(completed := Some(now), terminal := Some(Failed))]
            && m.attentions.Keys == l.attentions.Keys
            && (forall a :: a in l.attentions ==>
                  if l.attentions[a].finalResponse.None? && MemberOf(l, x, a)
                  then FreeAgain(l.attentions[a], m.attentions[a], now) && m.attentions[a].firstResponse.None?
                  else m.attentions[a] == l.attentions[a])
            && forall y, a :: MemberOf(m, y, a) <==> MemberOf(l, y, a) && y != x
  {
    assert x in LostTurns(l, x.thread);
    assert CloseTurns(l.turns, {x}, now, Failed) == l.turns[x := Close(l.turns[x], now, Some(Failed))];
    forall a | a in l.attentions ensures a in GivenBack(l, {x}) <==> MemberOf(l, x, a) && l.attentions[a].finalResponse.None? {
      assert x in {x};
    }
  }

  // ---- Retrying and adopting ----

  /** A dispatch nobody saw fails; its attention is due at once if it still waits, and nothing else changes. */
  lemma RetryingMeans(l: Ledger, a: AttId, epoch: nat, now: int)
    ensures var m := RetryUnobserved(l, a, epoch, now);
            if a !in l.intents then m == l
            else
              && m == l.(intents := l.intents[a := l.intents[a].(status := IntentFailed, epoch := epoch)], attentions := m.attentions)
              && m.attentions == if a in l.attentions && l.attentions[a].accepted.None? && l.attentions[a].terminal.None?
                                 then l.attentions[a := l.attentions[a].(nextAttempt := now)] else l.attentions
  {
  }

  /** An adopted turn, if open, and the attentions of it that are neither completed nor ended carry the new epoch. */
  lemma AdoptionMeans(l: Ledger, x: TurnId, epoch: nat)
    requires x in l.turns
    ensures var m := Adopt(l, x, epoch);
            && m == l.(turns := m.turns, attentions := m.attentions) && m.attentions.Keys == l.attentions.Keys
            && m.turns == (if l.turns[x].completed.None? && l.turns[x].terminal.None? then l.turns[x := l.turns[x].(epoch := epoch)] else l.turns)
            && forall a :: a in l.attentions ==>
                 var att := l.attentions[a];
                 m.attentions[a] == if att.turn == Some(x) && att.turnCompleted.None? && att.terminal.None? then att.(epoch := Some(epoch)) else att
  {
  }

  // ---- The reaper, and retired metadata ----

  /** The reaper ends the optional attentions of the turns it closes, and leaves those that ask for a reply pending. */
  lemma ReapingMeans(l: Ledger, epoch: nat, now: int)
    ensures var m := Reap(l, epoch, now);
            var stale := set x | x in l.turns && l.turns[x].epoch < epoch && l.turns[x].completed.None? && l.turns[x].terminal.None?;
            && m.slots == l.slots && m.intents == l.intents && m.threads == l.threads
            && m.turns.Keys == l.turns.Keys && m.attentions.Keys == l.attentions.Keys
            && (forall x :: x in l.turns ==>
                  m.turns[x] == if x in stale then l.turns[x].(completed := Some(now), terminal := Some(Interrupted)) else l.turns[x])
            && (forall a :: a in l.attentions ==>
                  var att := l.attentions[a];
                  m.attentions[a] == if att.turn.Some? && att.turn.value in stale && att.terminal.None? && !att.replyRequired
                                     then att.(turnCompleted := Some(now), terminal := Some(Interrupted)) else att)
            && UnsentSuppressed(l.relays, m.relays, stale)
  {
    var stale := set x | x in l.turns && l.turns[x].epoch < epoch && l.turns[x].completed.None? && l.turns[x].terminal.None?;
    assert stale == Stale(l, epoch);
    SuppressionMeans(l.relays, stale);
    hide SuppressFor, Stale;
  }

  /** Only a retired record that nobody accepted, ended or protects is cancelled. */
  lemma RetiringMeans(l: Ledger, a: AttId)
    ensures var m := RetireLegacy(l, a);
            && m == l.(attentions := m.attentions) && m.attentions.Keys == l.attentions.Keys
            && (forall b :: b in l.attentions && b != a ==> m.attentions[b] == l.attentions[b])
            && (a in l.attentions ==>
                  var att := l.attentions[a];
                  m.attentions[a] == if att.accepted.None? && att.terminal.None? && att.event.RetiredMetadata?
                                        && !(att.priority.SecurityControl? || att.priority.CareSignal? || att.priority.ExplicitTask?)
                                     then att.(terminal := Some(Cancelled)) else att)
  {
  }
}
