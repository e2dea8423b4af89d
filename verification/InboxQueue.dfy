/**
  The durable turn inbox of one identity (orchestrator_queue.py): an append-only log of delivery
  envelopes and a cursor over it. Urgent work may overtake; the cursor then parks at the first
  protected record that was overtaken.
 */
module InboxQueue {
  import opened Common

  datatype Sender = UserSender | AgentSender | OtherSender

  /** A message; target and @mentions are already case-folded. */
  datatype Message = Message(sender: Sender, target: string, mentions: set<string>)

  datatype QueueEvent = ControlFrame | CareFrame | TaskFrame | TurnFrame(messages: seq<Message>) | ChatFrame(message: Message) | NoEvent

  /** One parsed line of the inbox and its length in bytes. */
  datatype Record = Record(
    size: nat, delivery: string, declared: Option<Priority>, identity: string, event: QueueEvent,
    room: string, lastId: Option<int>, legacy: bool)

  /** What `parse_record` accepts; obsolete metadata is always declared informational. */
  type Line = r: Record | r.size > 0 && r.delivery != "" && (r.legacy ==> r.declared == Some(Informational))
    witness Record(1, "d", None, "", NoEvent, "", None, false)

  const ACK_HISTORY_LIMIT := 1024

  // ---- Priority ----

  function MessagesOf(e: QueueEvent): seq<Message> {
    match e
    case TurnFrame(messages) => messages
    case ChatFrame(message) => [message]
    case _ => []
  }

  predicate Names(m: Message, identity: string) {
    identity != "" && (m.target == identity || identity in m.mentions)
  }

  predicate Broadcasts(m: Message) {
    m.target == "all" || "all" in m.mentions
  }

  /** `record_priority`, with the fallback for envelopes that declare no priority that is known. */
  function PriorityOf(r: Record): Priority {
    if r.declared.Some? && !r.declared.value.Undeclared? then r.declared.value
    else match r.event
      case ControlFrame => SecurityControl
      case CareFrame => CareSignal
      case TaskFrame => ExplicitTask
      case _ =>
        var messages := MessagesOf(r.event);
        var fromUser := exists m :: m in messages && m.sender.UserSender?;
        if fromUser && (r.identity == "" || exists m :: m in messages && m.sender.UserSender? && Names(m, r.identity))
        then DirectUser
        else if exists m :: m in messages && Broadcasts(m) then Broadcast
        else if fromUser then LeadRoom
        else if exists m :: m in messages && Names(m, r.identity) && m.sender.AgentSender? then AddressedAgent
        else Informational
  }

  /** A message from a user that names this agent, or any from a user when no agent is named. */
  predicate ToAgent(r: Record) {
    exists m :: m in MessagesOf(r.event) && m.sender.UserSender?
      && (r.identity == "" || m.target == r.identity || r.identity in m.mentions)
  }

  predicate ToAll(r: Record) {
    exists m :: m in MessagesOf(r.event) && (m.target == "all" || "all" in m.mentions)
  }

  predicate FromUser(r: Record) {
    exists m :: m in MessagesOf(r.event) && m.sender.UserSender?
  }

  predicate FromAgent(r: Record) {
    exists m :: m in MessagesOf(r.event) && m.sender.AgentSender?
      && r.identity != "" && (m.target == r.identity || r.identity in m.mentions)
  }

  /** A known declared priority stands; otherwise the frame decides, and among chat the first of these that fits. */
  lemma PriorityMeans(r: Record)
    ensures var p := PriorityOf(r);
            if r.declared.Some? && r.declared.value in URGENCY then p == r.declared.value
            else
              && (p.SecurityControl? <==> r.event.ControlFrame?) && (p.CareSignal? <==> r.event.CareFrame?)
              && (p.ExplicitTask? <==> r.event.TaskFrame?)
              && (r.event.TurnFrame? || r.event.ChatFrame? || r.event.NoEvent? ==>
                    && (p.DirectUser? <==> ToAgent(r))
                    && (p.Broadcast? <==> !ToAgent(r) && ToAll(r))
                    && (p.LeadRoom? <==> !ToAgent(r) && !ToAll(r) && FromUser(r))
                    && (p.AddressedAgent? <==> !FromUser(r) && !ToAll(r) && FromAgent(r))
                    && (p.Informational? <==> !FromUser(r) && !ToAll(r) && !FromAgent(r)))
  {
    RankIsUrgency(0, 0);
  }

  predicate Guarded(r: Record) {
    Protected(PriorityOf(r))
  }

  function RankOf(r: Record): nat {
    Rank(PriorityOf(r))
  }

  /** Newer chat of these kinds supersedes older; everything else stays first in, first out. */
  predicate Compactable(r: Record) {
    var p := PriorityOf(r);
    p.DirectUser? || p.LeadRoom? || p.Broadcast? || p.AddressedAgent?
  }

  // ---- The cursor ----

  datatype Cursor = Cursor(offset: nat, rooms: map<string, int>, delivery: Option<string>, acked: seq<string>)

  const EMPTY_CURSOR := Cursor(0, map[], None, [])

  predicate Watermarked(r: Record, rooms: map<string, int>) {
    r.room != "" && r.lastId.Some? && r.lastId.value <= if r.room in rooms then rooms[r.room] else 0
  }

  predicate IsAcked(r: Record, c: Cursor) {
    r.legacy || r.delivery in c.acked || (!Guarded(r) && Watermarked(r, c.rooms))
  }

  /** The byte offset at which record `i` starts. */
  function Offset(log: seq<Line>, i: nat): nat
    requires i <= |log|
  {
    if i == 0 then 0 else Offset(log, i - 1) + log[i - 1].size
  }

  /** Record positions below `n`, oldest first. */
  ghost predicate Positions(live: seq<nat>, n: nat) {
    && (forall x :: 0 <= x < |live| ==> live[x] < n)
    && (forall x, y :: 0 <= x < y < |live| ==> live[x] < live[y])
  }

  /** The records from `k` on that are not acked, oldest first. */
  function Live(log: seq<Line>, k: nat, c: Cursor): seq<nat>
    requires k <= |log|
    decreases |log| - k
  {
    if k == |log| then []
    else if IsAcked(log[k], c) then Live(log, k + 1, c)
    else [k] + Live(log, k + 1, c)
  }

  lemma {:induction false} LiveMeans(log: seq<Line>, k: nat, c: Cursor)
    requires k <= |log|
    ensures var live := Live(log, k, c);
            Positions(live, |log|) && forall j :: j in live <==> k <= j < |log| && !IsAcked(log[j], c)
    decreases |log| - k
  {
    if k < |log| {
      LiveMeans(log, k + 1, c);
      var rest := Live(log, k + 1, c);
      assert forall x :: 0 <= x < |rest| ==> rest[x] in rest;
    }
  }

  /** Where the cursor stands after skipping acked records. */
  function Skip(log: seq<Line>, k: nat, c: Cursor): (p: nat)
    requires k <= |log|
    ensures k <= p <= |log|
    decreases |log| - k
  {
    if k < |log| && IsAcked(log[k], c) then Skip(log, k + 1, c) else k
  }

  lemma {:induction false} SkipMeans(log: seq<Line>, k: nat, c: Cursor)
    requires k <= |log|
    ensures var p := Skip(log, k, c);
            (forall j :: k <= j < p ==> IsAcked(log[j], c)) && (p < |log| ==> !IsAcked(log[p], c))
    decreases |log| - k
  {
    if k < |log| && IsAcked(log[k], c) {
      SkipMeans(log, k + 1, c);
    }
  }

  // ---- Choosing ----

  /** More urgent; or as urgent, and newer if such chat supersedes older chat, else older. */
  predicate Preferred(log: seq<Line>, c: nat, j: nat)
    requires c < |log| && j < |log|
  {
    RankOf(log[c]) < RankOf(log[j]) ||
    (RankOf(log[c]) == RankOf(log[j]) && if Compactable(log[c]) then j <= c else c <= j)
  }

  /** The live record preferred to all others. */
  ghost predicate Chosen(log: seq<Line>, live: seq<nat>, c: nat) {
    c in live && c < |log| && forall j :: j in live && j < |log| ==> Preferred(log, c, j)
  }

  /** Nothing live is more urgent than the chosen record; of what is as urgent, it is the newest chat, or else the oldest. */
  lemma ChosenMeans(log: seq<Line>, live: seq<nat>, c: nat, j: nat)
    requires Positions(live, |log|) && Chosen(log, live, c) && j in live
    ensures Rank(PriorityOf(log[c])) <= Rank(PriorityOf(log[j]))
    ensures PriorityOf(log[j]) == PriorityOf(log[c]) ==>
              if PriorityOf(log[c]) in {DirectUser, LeadRoom, Broadcast, AddressedAgent} then j <= c else c <= j
  {
    assert Preferred(log, c, j);
    hide PriorityOf;
  }

  lemma ChoiceIsUnique(log: seq<Line>, live: seq<nat>, c: nat, d: nat)
    requires Chosen(log, live, c) && Chosen(log, live, d)
    ensures c == d
  {
    RankDecides(PriorityOf(log[c]), PriorityOf(log[d]));
  }

  lemma RankDecides(p: Priority, q: Priority)
    ensures Rank(p) == Rank(q) ==> p == q
  {
  }

  /** How far acknowledging `c` may advance the cursor: to the first guarded record it overtook. */
  function AckPoint(log: seq<Line>, live: seq<nat>, c: nat): nat
    requires c < |log| && Positions(live, |log|)
  {
    if live == [] || live[0] >= c then c + 1
    else if Guarded(log[live[0]]) then live[0]
    else AckPoint(log, live[1..], c)
  }

  lemma {:induction false} NothingGuardedBelow(log: seq<Line>, live: seq<nat>, c: nat)
    requires c < |log| && Positions(live, |log|)
    ensures AckPoint(log, live, c) <= c + 1
    ensures forall j :: j in live && j < c && j < AckPoint(log, live, c) ==> !Guarded(log[j])
  {
    if live != [] && live[0] < c && !Guarded(log[live[0]]) {
      NothingGuardedBelow(log, live[1..], c);
      assert forall j :: j in live <==> j == live[0] || j in live[1..];
    } else if live != [] {
      assert forall j :: j in live ==> live[0] <= j;
    }
  }

  /** The ack point is the end of the chosen record, or the first guarded live record before it. */
  lemma {:induction false} AckPointMeans(log: seq<Line>, live: seq<nat>, c: nat)
    requires c < |log| && Positions(live, |log|)
    ensures var p := AckPoint(log, live, c);
            && (forall j :: j in live && j < c && j < p ==> !Guarded(log[j]))
            && (p == c + 1 || (p in live && p < c && Guarded(log[p])))
            && (p == c + 1 ==> forall j :: j in live && j < c ==> !Guarded(log[j]))
  {
    NothingGuardedBelow(log, live, c);
    if live != [] && live[0] < c && !Guarded(log[live[0]]) {
      AckPointMeans(log, live[1..], c);
      assert forall j :: j in live <==> j == live[0] || j in live[1..];
    } else if live != [] {
      assert forall j :: j in live ==> live[0] <= j;
    }
  }

  /** What a pull hands to the worker; acknowledging it passes the first four fields back. */
  datatype Offer = Offer(delivery: string, room: string, lastId: Option<int>, ackOffset: nat, recordEnd: nat, compacted: nat)

  function Compacted(log: seq<Line>, live: seq<nat>, c: nat, base: nat): nat
    requires Positions(live, |log|)
  {
    if live == [] then 0
    else
      var j := live[|live| - 1];
      Compacted(log, live[..|live| - 1], c, base) +
      if j < c && !Guarded(log[j]) && Offset(log, j + 1) > base then 1 else 0
  }

  /** Record `j` is superseded by the chosen one: unguarded, before it, and ending behind the cursor. */
  predicate SupersededBy(log: seq<Line>, j: nat, c: nat, base: nat)
    requires j < |log|
  {
    j < c && !Guarded(log[j]) && Offset(log, j + 1) > base
  }

  /** As many live records are superseded as the offer says. */
  lemma CompactedMeans(log: seq<Line>, live: seq<nat>, c: nat, base: nat)
    requires Positions(live, |log|)
    ensures Compacted(log, live, c, base) == |set x: nat | x < |live| && SupersededBy(log, live[x], c, base)|
  {
    var p := (x: nat) requires x < |live| => SupersededBy(log, live[x], c, base);
    CompactedPrefix(log, live, |live|, c, base, p);
    assert live[..|live|] == live;
    assert (set x: nat | x < |live| && p(x)) == set x: nat | x < |live| && SupersededBy(log, live[x], c, base);
  }

  lemma {:induction false} CompactedPrefix(log: seq<Line>, live: seq<nat>, k: nat, c: nat, base: nat, p: nat --> bool)
    requires Positions(live, |log|) && k <= |live|
    requires forall x: nat :: x < |live| ==> p.requires(x) && p(x) == SupersededBy(log, live[x], c, base)
    ensures Compacted(log, live[..k], c, base) == |set x: nat | x < k && p(x)|
  {
    if k > 0 {
      CompactedPrefix(log, live, k - 1, c, base, p);
      OneMoreCompacted(log, live, k - 1, c, base);
      OneMoreIndex(k - 1, p);
      hide Compacted, SupersededBy, Positions;
    }
  }

  lemma OneMoreCompacted(log: seq<Line>, live: seq<nat>, k: nat, c: nat, base: nat)
    requires Positions(live, |log|) && k < |live|
    ensures Compacted(log, live[..k + 1], c, base) == Compacted(log, live[..k], c, base) + if SupersededBy(log, live[k], c, base) then 1 else 0
  {
    hide Offset, Guarded;
    assert live[..k + 1][..k] == live[..k] && live[..k + 1][k] == live[k];
  }

  lemma OneMoreIndex(k: nat, p: nat --> bool)
    requires forall x: nat :: x <= k ==> p.requires(x)
    ensures |set x: nat | x < k + 1 && p(x)| == |set x: nat | x < k && p(x)| + if p(k) then 1 else 0
  {
    assert (set x: nat | x < k + 1 && p(x)) == (set x: nat | x < k && p(x)) + if p(k) then {k} else {};
  }

  function OfferOf(log: seq<Line>, live: seq<nat>, c: nat, base: nat): Offer
    requires c < |log| && Positions(live, |log|)
  {
    NothingGuardedBelow(log, live, c);
    Offer(log[c].delivery, log[c].room, log[c].lastId, Offset(log, AckPoint(log, live, c)), Offset(log, c + 1),
          Compacted(log, live, c, base))
  }

  /** What an offer says: whose record it is, where that record ends, and where the cursor may park. */
  lemma OfferMeans(log: seq<Line>, live: seq<nat>, c: nat, base: nat)
    requires c < |log| && Positions(live, |log|)
    ensures var (o, p) := (OfferOf(log, live, c, base), AckPoint(log, live, c));
            && o.delivery == log[c].delivery && o.room == log[c].room && o.lastId == log[c].lastId
            && o.recordEnd == Offset(log, c) + log[c].size
            && p <= c + 1 && o.ackOffset == Offset(log, p) && (p <= c ==> o.ackOffset <= Offset(log, c))
  {
    NothingGuardedBelow(log, live, c);
    if AckPoint(log, live, c) <= c {
      OffsetsGrow(log, AckPoint(log, live, c), c);
    }
    assert Offset(log, c + 1) == Offset(log, c) + log[c].size;
    hide Offset, AckPoint, Compacted, Guarded;
  }

  // ---- Acknowledging ----

  function Without(ids: seq<string>, d: string): seq<string> {
    if ids == [] then []
    else if ids[|ids| - 1] == d then Without(ids[..|ids| - 1], d)
    else Without(ids[..|ids| - 1], d) + [ids[|ids| - 1]]
  }

  lemma {:induction false} WithoutMeans(ids: seq<string>, d: string)
    ensures forall e :: e in Without(ids, d) <==> e in ids && e != d
  {
    if ids != [] {
      WithoutMeans(ids[..|ids| - 1], d);
      assert ids == ids[..|ids| - 1] + [ids[|ids| - 1]];
    }
  }

  function LastOf(ids: seq<string>, n: nat): seq<string> {
    if |ids| <= n then ids else ids[|ids| - n..]
  }

  /** The window of remembered ids after one more acknowledgement. */
  function Remembered(ids: seq<string>, d: string): seq<string> {
    LastOf(Without(ids, d) + [d], ACK_HISTORY_LIMIT)
  }

  function AckedWith(c: Cursor, offer: Offer): Cursor {
    Cursor(
      if offer.ackOffset > c.offset then offer.ackOffset else c.offset,
      if offer.room != "" && offer.lastId.Some?
      then c.rooms[offer.room := Max(if offer.room in c.rooms then c.rooms[offer.room] else 0, offer.lastId.value)]
      else c.rooms,
      Some(offer.delivery),
      Remembered(c.acked, offer.delivery))
  }

  /** The highest id acknowledged in a room, 0 if none. */
  function KnownIn(c: Cursor, room: string): int {
    if room in c.rooms then c.rooms[room] else 0
  }

  /**
    What an acknowledgement covers: the delivery itself, and of the other records that no id covers exactly the
    unprotected ones of a room up to the highest last id acknowledged there, this offer's included.
   */
  lemma AckMeans(c: Cursor, offer: Offer, r: Record)
    ensures var d := AckedWith(c, offer);
            && d.offset == Max(c.offset, offer.ackOffset)
            && (r.delivery == offer.delivery ==> IsAcked(r, d))
            && (!r.legacy && r.delivery != offer.delivery && r.delivery !in c.acked ==>
                  (IsAcked(r, d) <==>
                     && !Guarded(r) && r.room != "" && r.lastId.Some?
                     && (r.lastId.value <= KnownIn(c, r.room)
                         || (r.room == offer.room && offer.lastId.Some? && r.lastId.value <= offer.lastId.value))))
  {
    RememberedMeans(c.acked, offer.delivery);
    hide PriorityOf, Remembered;
  }

  /** The window remembers the acknowledged id, and no id that was not acknowledged. */
  lemma RememberedMeans(ids: seq<string>, d: string)
    ensures d in Remembered(ids, d) && |Remembered(ids, d)| <= 1024
    ensures forall e :: e in Remembered(ids, d) ==> e == d || e in ids
    ensures |ids| < 1024 ==> forall e :: e in ids ==> e in Remembered(ids, d)
  {
    WithoutMeans(ids, d);
    WithoutShrinks(ids, d);
    var all := Without(ids, d) + [d];
    assert all[|all| - 1] == d && d in all;
    assert |all| > 1024 ==> all[|all| - 1024..][1023] == d;
  }

  lemma {:induction false} WithoutShrinks(ids: seq<string>, d: string)
    ensures |Without(ids, d)| <= |ids|
  {
    if ids != [] {
      WithoutShrinks(ids[..|ids| - 1], d);
    }
  }

  // ---- Byte offsets ----

  lemma {:induction false} OffsetsGrow(log: seq<Line>, i: nat, j: nat)
    requires i <= j <= |log|
    ensures Offset(log, i) + (j - i) <= Offset(log, j)
    decreases j
  {
    if i < j {
      OffsetsGrow(log, i, j - 1);
    }
  }

  lemma {:induction false} OffsetsStay(log: seq<Line>, more: seq<Line>, i: nat)
    requires i <= |log|
    ensures Offset(log + more, i) == Offset(log, i)
  {
    if i > 0 {
      OffsetsStay(log, more, i - 1);
    }
  }

  ghost predicate OnBoundary(log: seq<Line>, offset: nat) {
    exists k :: 0 <= k <= |log| && Offset(log, k) == offset
  }

  /** The record that starts at a boundary. */
  ghost function IndexAt(log: seq<Line>, offset: nat): (k: nat)
    requires OnBoundary(log, offset)
    ensures k <= |log| && Offset(log, k) == offset
  {
    var k :| 0 <= k <= |log| && Offset(log, k) == offset;
    k
  }

  lemma IndexIsUnique(log: seq<Line>, i: nat, j: nat)
    requires i <= |log| && j <= |log| && Offset(log, i) == Offset(log, j)
    ensures i == j
  {
    if i < j {
      OffsetsGrow(log, i, j);
    } else {
      OffsetsGrow(log, j, i);
    }
  }

  /** One step of a scan from record `k`, with the cursor at any offset `c` already reached. */
  lemma ScanStep(log: seq<Line>, k: nat, c: Cursor, now: Cursor)
    requires k < |log| && now.rooms == c.rooms && now.acked == c.acked
    ensures Offset(log, k + 1) == Offset(log, k) + log[k].size
    ensures if IsAcked(log[k], now) then Live(log, k, c) == Live(log, k + 1, c) && Skip(log, k, c) == Skip(log, k + 1, c)
            else Live(log, k, c) == [k] + Live(log, k + 1, c) && Skip(log, k, c) == k
  {
  }

  lemma ScanEnd(log: seq<Line>, c: Cursor)
    ensures Live(log, |log|, c) == [] && Skip(log, |log|, c) == |log|
  {
  }

  // ---- The queue as a mutable object ----

  method BestRank(log: seq<Line>, live: seq<nat>) returns (best: nat)
    requires live != [] && Positions(live, |log|)
    ensures exists x :: 0 <= x < |live| && RankOf(log[live[x]]) == best
    ensures forall x :: 0 <= x < |live| ==> best <= RankOf(log[live[x]])
  {
    hide RankOf;
    best := RankOf(log[live[0]]);
    for i := 1 to |live|
      invariant exists x :: 0 <= x < i && RankOf(log[live[x]]) == best
      invariant forall x :: 0 <= x < i ==> best <= RankOf(log[live[x]])
    {
      best := if RankOf(log[live[i]]) < best then RankOf(log[live[i]]) else best;
    }
  }

  /** `choose_record` over the live records, oldest first. */
  method ChooseRecord(log: seq<Line>, live: seq<nat>, base: nat) returns (offer: Offer)
    requires live != [] && Positions(live, |log|)
    ensures exists c: nat :: Chosen(log, live, c) && offer == OfferOf(log, live, c, base)
  {
    var best := BestRank(log, live);
    var chosen := Candidate(log, live, best);
    NothingGuardedBelow(log, live, chosen);
    var first := SafePoint(log, live, chosen);
    var compacted := CountCompacted(log, live, chosen, base);
    var end := StartOf(log, chosen + 1);
    var ack := StartOf(log, first);
    offer := Offer(log[chosen].delivery, log[chosen].room, log[chosen].lastId, ack, end, compacted);
  }

  /** The live records of the best rank. */
  method Candidates(log: seq<Line>, live: seq<nat>, best: nat) returns (candidates: seq<nat>)
    requires Positions(live, |log|)
    ensures Positions(candidates, |log|)
    ensures forall x :: 0 <= x < |candidates| ==> candidates[x] in live && RankOf(log[candidates[x]]) == best
    ensures forall x :: 0 <= x < |live| && RankOf(log[live[x]]) == best ==> live[x] in candidates
  {
    hide RankOf;
    candidates := [];
    for i := 0 to |live|
      invariant Positions(candidates, |log|)
      invariant forall x :: 0 <= x < |candidates| ==> candidates[x] in live && RankOf(log[candidates[x]]) == best
      invariant candidates != [] && i < |live| ==> candidates[|candidates| - 1] < live[i]
      invariant forall x :: 0 <= x < i && RankOf(log[live[x]]) == best ==> live[x] in candidates
    {
      if RankOf(log[live[i]]) == best {
        candidates := candidates + [live[i]];
      }
    }
  }

  /** The last candidate of the best rank if it is compactable, else the first. */
  method Candidate(log: seq<Line>, live: seq<nat>, best: nat) returns (chosen: nat)
    requires Positions(live, |log|) && (forall x :: 0 <= x < |live| ==> best <= RankOf(log[live[x]]))
    requires exists x :: 0 <= x < |live| && RankOf(log[live[x]]) == best
    ensures Chosen(log, live, chosen)
  {
    var candidates := Candidates(log, live, best);
    ghost var x :| 0 <= x < |live| && RankOf(log[live[x]]) == best;
    assert live[x] in candidates;
    var last := candidates[|candidates| - 1];
    chosen := if Compactable(log[last]) then last else candidates[0];
    RankDecides(PriorityOf(log[candidates[0]]), PriorityOf(log[last]));
    hide PriorityOf;
    forall j | j in live && j < |log| ensures Preferred(log, chosen, j) {
      var y :| 0 <= y < |live| && live[y] == j;
      if RankOf(log[j]) == best {
        var z :| 0 <= z < |candidates| && candidates[z] == j;
      }
    }
  }

  /** The cursor's next safe point: the first guarded record before the chosen one, else its end. */
  method SafePoint(log: seq<Line>, live: seq<nat>, c: nat) returns (first: nat)
    requires c < |log| && Positions(live, |log|)
    ensures first == AckPoint(log, live, c)
  {
    hide Guarded;
    for i := 0 to |live|
      invariant AckPoint(log, live, c) == AckPoint(log, live[i..], c)
    {
      assert live[i..][1..] == live[i + 1..] && live[i..][0] == live[i];
      if live[i] >= c {
        return c + 1;
      }
      if Guarded(log[live[i]]) {
        return live[i];
      }
    }
    first := c + 1;
  }

  /** How many overtaken records are superseded. */
  method CountCompacted(log: seq<Line>, live: seq<nat>, c: nat, base: nat) returns (compacted: nat)
    requires Positions(live, |log|)
    ensures compacted == Compacted(log, live, c, base)
  {
    hide Offset, Guarded;
    compacted := 0;
    for i := 0 to |live|
      invariant compacted == Compacted(log, live[..i], c, base)
    {
      var j := live[i];
      assert live[..i + 1][..i] == live[..i] && live[..i + 1][i] == j;
      var end := StartOf(log, j + 1);
      if j < c && !Guarded(log[j]) && end > base {
        compacted := compacted + 1;
      }
    }
    assert live[..|live|] == live;
  }

  method StartOf(log: seq<Line>, i: nat) returns (offset: nat)
    requires i <= |log|
    ensures offset == Offset(log, i)
  {
    offset := 0;
    for k := 0 to i
      invariant offset == Offset(log, k)
    {
      offset := offset + log[k].size;
    }
  }

  method Remember(ids: seq<string>, d: string) returns (window: seq<string>)
    ensures window == Remembered(ids, d)
  {
    var kept: seq<string> := [];
    for i := 0 to |ids|
      invariant kept == Without(ids[..i], d)
    {
      assert ids[..i + 1][..i] == ids[..i];
      if ids[i] != d {
        kept := kept + [ids[i]];
      }
    }
    assert ids[..|ids|] == ids;
    kept := kept + [d];
    window := if |kept| <= ACK_HISTORY_LIMIT then kept else kept[|kept| - ACK_HISTORY_LIMIT..];
  }

  /** Where reading starts: a cursor beyond the end of the log means that it was rotated, and starts over. */
  ghost function From(log: seq<Line>, offset: nat): nat {
    if offset > Offset(log, |log|) then 0 else offset
  }

  /** From the beginning, the scan does not depend on where the cursor was. */
  lemma StartsOver(log: seq<Line>, c: Cursor)
    ensures OnBoundary(log, 0) && IndexAt(log, 0) == 0
    ensures Live(log, 0, c.(offset := 0)) == Live(log, 0, c) && Skip(log, 0, c.(offset := 0)) == Skip(log, 0, c)
  {
    assert Offset(log, 0) == 0;
    IndexIsUnique(log, IndexAt(log, 0), 0);
    OffsetFree(log, 0, c.(offset := 0), c);
  }

  lemma {:induction false} OffsetFree(log: seq<Line>, k: nat, c: Cursor, d: Cursor)
    requires k <= |log| && c.rooms == d.rooms && c.acked == d.acked
    ensures Live(log, k, c) == Live(log, k, d) && Skip(log, k, c) == Skip(log, k, d)
    decreases |log| - k
  {
    if k < |log| {
      OffsetFree(log, k + 1, c, d);
    }
  }

  class Queue {
    var log: seq<Line>
    var offset: nat
    var rooms: map<string, int>
    var delivery: Option<string>
    var acked: seq<string>

    constructor ()
      ensures Valid() && log == [] && State() == EMPTY_CURSOR
    {
      log, offset, rooms, delivery, acked := [], 0, map[], None, [];
      new;
      assert Offset(log, 0) == 0;
    }

    ghost function State(): Cursor
      reads this
    {
      Cursor(offset, rooms, delivery, acked)
    }

    /** The log only ever grows, so the cursor stays at the start of a record or at the end. */
    ghost predicate Valid()
      reads this
    {
      OnBoundary(log, offset)
    }

    /** As `Valid`, or the log was rotated or truncated to less than the cursor. */
    ghost predicate Readable()
      reads this
    {
      OnBoundary(log, From(log, offset))
    }

    /** The cursor as reading starts. */
    ghost function Opened(): Cursor
      reads this
    {
      State().(offset := From(log, offset))
    }

    method Append(line: Line)
      requires Valid()
      modifies `log
      ensures Valid() && log == old(log) + [line]
    {
      OffsetsStay(log, [line], IndexAt(log, offset));
      log := log + [line];
    }

    method Seek() returns (k: nat)
      requires Valid()
      ensures k <= |log| && Offset(log, k) == offset
    {
      ghost var goal := IndexAt(log, offset);
      k := 0;
      var at := 0;
      while at < offset
        invariant k <= goal && at == Offset(log, k)
        decreases goal - k
      {
        at, k := at + log[k].size, k + 1;
      }
      OffsetsGrow(log, k, goal);
    }

    method Acked(r: Record) returns (yes: bool)
      ensures yes == IsAcked(r, State())
    {
      if r.legacy || r.delivery in acked {
        return true;
      }
      if Guarded(r) || r.room == "" || r.lastId.None? {
        return false;
      }
      return r.lastId.value <= if r.room in rooms then rooms[r.room] else 0;
    }

    /** Read the tail from record `k` once: where its acked prefix ends, and all that is not acked. */
    method Collect(k: nat) returns (records: seq<nat>, skipped: nat)
      requires k <= |log| && offset == Offset(log, k)
      ensures records == Live(log, k, State()) && skipped == Offset(log, Skip(log, k, State()))
      ensures records == [] ==> skipped == Offset(log, |log|)
    {
      var at, index := offset, k;
      records, skipped := [], offset;
      hide *;
      while index < |log|
        invariant k <= index <= |log| && at == Offset(log, index)
        invariant records + Live(log, index, State()) == Live(log, k, State())
        invariant if records == [] then skipped == at && Skip(log, index, State()) == Skip(log, k, State())
                  else skipped == Offset(log, Skip(log, k, State()))
      {
        var line := log[index];
        var done := Acked(line);
        ScanStep(log, index, State(), State());
        at := at + line.size;
        if !done {
          assert records + ([index] + Live(log, index + 1, State())) == records + [index] + Live(log, index + 1, State());
          records := records + [index];
        } else if records == [] {
          skipped := at;
        }
        index := index + 1;
      }
      ScanEnd(log, State());
    }

    /** The tail is read from the cursor, which moves past the acked prefix. */
    method Scan() returns (records: seq<nat>)
      requires Valid()
      modifies `offset
      ensures Valid() && offset == Offset(log, Skip(log, IndexAt(log, old(offset)), old(State())))
      ensures records == Live(log, IndexAt(log, old(offset)), old(State()))
      ensures records == [] ==> offset == Offset(log, |log|)
    {
      ghost var start := IndexAt(log, offset);
      var index := Seek();
      IndexIsUnique(log, index, start);
      hide Offset, Live, Skip;
      records, offset := Collect(index);
    }

    /** A cursor beyond the end goes back to the beginning. */
    method Open()
      requires Readable()
      modifies `offset
      ensures Valid() && State() == old(Opened())
    {
      var size := StartOf(log, |log|);
      if offset > size {
        offset := 0;
      }
    }

    /** `next_record`, one pass: skip the acked prefix, choose among what is not acked. */
    method NextRecord() returns (offer: Option<Offer>, ghost c: nat)
      requires Readable()
      modifies `offset
      ensures Valid() && offset == Offset(log, Skip(log, IndexAt(log, old(Opened()).offset), old(Opened())))
      ensures var live := Live(log, IndexAt(log, old(Opened()).offset), old(Opened()));
              if live == [] then offer == None && offset == Offset(log, |log|)
              else Positions(live, |log|) && Chosen(log, live, c) && offer == Some(OfferOf(log, live, c, offset))
                   && OnBoundary(log, offer.value.ackOffset)
      ensures old(offset) > Offset(log, |log|) ==>
                offset == Offset(log, Skip(log, 0, old(State()))) && (offer == None <==> Live(log, 0, old(State())) == [])
    {
      if offset > Offset(log, |log|) {
        StartsOver(log, State());
      }
      Open();
      LiveMeans(log, IndexAt(log, offset), State());
      var records := Scan();
      if records == [] {
        return None, 0;
      }
      var chosen := ChooseRecord(log, records, offset);
      c :| Chosen(log, records, c) && chosen == OfferOf(log, records, c, offset);
      NothingGuardedBelow(log, records, c);
      offer := Some(chosen);
    }

    method AckRecord(offer: Offer)
      modifies `offset, `rooms, `delivery, `acked
      ensures State() == AckedWith(old(State()), offer)
      ensures old(Valid()) && OnBoundary(log, offer.ackOffset) ==> Valid()
    {
      hide OnBoundary, Remembered, Offset;
      if offer.ackOffset > offset {
        offset := offer.ackOffset;
      }
      if offer.room != "" && offer.lastId.Some? {
        var known := if offer.room in rooms then rooms[offer.room] else 0;
        rooms := rooms[offer.room := Max(known, offer.lastId.value)];
      }
      delivery := Some(offer.delivery);
      acked := Remember(acked, offer.delivery);
    }

    /** `process_one`: a delivery whose run fails stays unacknowledged. */
    method ProcessOne(succeeds: bool) returns (offer: Option<Offer>)
      requires Readable()
      modifies `offset, `rooms, `delivery, `acked
      ensures Valid()
      ensures var from := old(Opened());
              var pulled := from.(offset := Offset(log, Skip(log, IndexAt(log, from.offset), from)));
              && State() == (if offer.Some? && succeeds then AckedWith(pulled, offer.value) else pulled)
              && (offer == None <==> Live(log, IndexAt(log, from.offset), from) == [])
    {
      ghost var c;
      offer, c := NextRecord();
      if offer.Some? && succeeds {
        AckRecord(offer.value);
      }
    }
  }
}
