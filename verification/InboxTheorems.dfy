/**
  Runs of the inbox queue: appends, pulls and acknowledgements in any order, where an
  acknowledgement may answer any earlier pull, late or twice.
 */
module InboxTheorems {
  import opened Common
  import opened InboxQueue

  /** An offer, the record it is for, and the record at which its acknowledgement parks the cursor. */
  datatype Pull = Pull(offer: Offer, index: nat, safe: nat)

  /** `pos` is the record the cursor's offset is the start of; `done` is every delivery id ever acked. */
  datatype World = World(log: seq<Line>, pos: nat, cursor: Cursor, pulls: seq<Pull>, done: set<string>)

  const INITIAL := World([], 0, EMPTY_CURSOR, [], {})

  datatype Step = Appended(line: Line) | Pulled(c: nat) | FoundNothing | Acknowledged(n: nat)

  ghost predicate Enabled(w: World, s: Step)
    requires w.pos <= |w.log|
  {
    match s
    case Appended(_) => true
    case Pulled(c) => Chosen(w.log, Live(w.log, w.pos, w.cursor), c)
    case FoundNothing => Live(w.log, w.pos, w.cursor) == []
    case Acknowledged(n) => n < |w.pulls|
  }

  ghost function Advance(w: World): World
    requires w.pos <= |w.log|
  {
    var p := Skip(w.log, w.pos, w.cursor);
    w.(pos := p, cursor := w.cursor.(offset := Offset(w.log, p)))
  }

  ghost function PullOf(w: World, c: nat): Pull
    requires w.pos <= |w.log| && c < |w.log|
  {
    LiveMeans(w.log, w.pos, w.cursor);
    var live := Live(w.log, w.pos, w.cursor);
    Pull(OfferOf(w.log, live, c, Advance(w).cursor.offset), c, AckPoint(w.log, live, c))
  }

  ghost function Acknowledge(w: World, p: Pull): World {
    w.(pos := if p.safe > w.pos then p.safe else w.pos, cursor := AckedWith(w.cursor, p.offer),
       done := w.done + {p.offer.delivery})
  }

  ghost function Apply(w: World, s: Step): World
    requires w.pos <= |w.log| && Enabled(w, s)
  {
    match s
    case Appended(line) => w.(log := w.log + [line])
    case Pulled(c) => Advance(w).(pulls := w.pulls + [PullOf(w, c)])
    case FoundNothing => Advance(w)
    case Acknowledged(n) => Acknowledge(w, w.pulls[n])
  }

  // ---- Why the cursor may stand past a record ----

  /** A later record of equal or higher urgency has been acked. */
  ghost predicate Overtaken(log: seq<Line>, done: set<string>, i: nat)
    requires i < |log|
  {
    exists j :: i < j < |log| && log[j].delivery in done && RankOf(log[j]) <= RankOf(log[i])
  }

  ghost predicate Accounted(log: seq<Line>, rooms: map<string, int>, done: set<string>, i: nat)
    requires i < |log|
  {
    || log[i].delivery in done
    || (!Guarded(log[i]) && (log[i].legacy || Watermarked(log[i], rooms) || Overtaken(log, done, i)))
  }

  ghost predicate AllAccounted(log: seq<Line>, rooms: map<string, int>, done: set<string>, n: nat) {
    n <= |log| && forall i :: 0 <= i < n ==> Accounted(log, rooms, done, i)
  }

  function MarkOf(rooms: map<string, int>, room: string): int {
    if room in rooms then rooms[room] else 0
  }

  ghost predicate RoomsGrow(before: map<string, int>, after: map<string, int>) {
    forall room :: MarkOf(before, room) <= MarkOf(after, room)
  }

  /** Being accounted for survives appends, higher watermarks and more acknowledgements. */
  lemma AccountedStays(log: seq<Line>, more: seq<Line>, rooms: map<string, int>, marks: map<string, int>,
                       done: set<string>, longer: set<string>, n: nat)
    requires AllAccounted(log, rooms, done, n) && RoomsGrow(rooms, marks) && done <= longer
    ensures AllAccounted(log + more, marks, longer, n)
  {
    forall i | 0 <= i < n ensures Accounted(log + more, marks, longer, i) {
      assert Accounted(log, rooms, done, i);
      if Overtaken(log, done, i) {
        var j :| i < j < |log| && log[j].delivery in done && RankOf(log[j]) <= RankOf(log[i]);
        assert (log + more)[j] == log[j];
      }
      assert Watermarked(log[i], rooms) ==> MarkOf(rooms, log[i].room) <= MarkOf(marks, log[i].room);
    }
  }

  ghost predicate PullOk(log: seq<Line>, rooms: map<string, int>, done: set<string>, p: Pull) {
    && p.index < |log| && p.offer.delivery == log[p.index].delivery
    && p.safe <= |log| && p.offer.ackOffset == Offset(log, p.safe)
    && AllAccounted(log, rooms, done + {p.offer.delivery}, p.safe)
  }

  ghost predicate Good(w: World) {
    && w.pos <= |w.log| && w.cursor.offset == Offset(w.log, w.pos)
    && (forall d :: d in w.cursor.acked ==> d in w.done)
    && AllAccounted(w.log, w.cursor.rooms, w.done, w.pos)
    && forall p :: p in w.pulls ==> PullOk(w.log, w.cursor.rooms, w.done, p)
  }

  lemma PullStays(log: seq<Line>, more: seq<Line>, rooms: map<string, int>, marks: map<string, int>,
                  done: set<string>, longer: set<string>, p: Pull)
    requires PullOk(log, rooms, done, p) && RoomsGrow(rooms, marks) && done <= longer
    ensures PullOk(log + more, marks, longer, p)
  {
    AccountedStays(log, more, rooms, marks, done + {p.offer.delivery}, longer + {p.offer.delivery}, p.safe);
    OffsetsStay(log, more, p.safe);
  }

  lemma AppendKeeps(w: World, line: Line)
    requires Good(w)
    ensures Good(w.(log := w.log + [line]))
  {
    AccountedStays(w.log, [line], w.cursor.rooms, w.cursor.rooms, w.done, w.done, w.pos);
    OffsetsStay(w.log, [line], w.pos);
    forall p | p in w.pulls ensures PullOk(w.log + [line], w.cursor.rooms, w.done, p) {
      PullStays(w.log, [line], w.cursor.rooms, w.cursor.rooms, w.done, w.done, p);
    }
  }

  /** Records the scan took for acked are accounted for. */
  lemma AckedIsAccounted(w: World, i: nat)
    requires Good(w) && i < |w.log| && IsAcked(w.log[i], w.cursor)
    ensures Accounted(w.log, w.cursor.rooms, w.done, i)
  {
  }

  lemma AdvanceKeeps(w: World)
    requires Good(w)
    ensures Good(Advance(w))
  {
    SkipMeans(w.log, w.pos, w.cursor);
    forall i | w.pos <= i < Advance(w).pos ensures Accounted(w.log, w.cursor.rooms, w.done, i) {
      AckedIsAccounted(w, i);
    }
  }

  /** Up to the park point, each record is accounted for once the chosen one is acked. */
  lemma OfferIsSafe(w: World, c: nat)
    requires Good(w) && Chosen(w.log, Live(w.log, w.pos, w.cursor), c)
    ensures PullOk(w.log, w.cursor.rooms, w.done, PullOf(w, c))
  {
    var live, p := Live(w.log, w.pos, w.cursor), PullOf(w, c);
    LiveMeans(w.log, w.pos, w.cursor);
    NothingGuardedBelow(w.log, live, c);
    AccountedStays(w.log, [], w.cursor.rooms, w.cursor.rooms, w.done, w.done + {p.offer.delivery}, w.pos);
    assert w.log + [] == w.log;
    forall i | 0 <= i < p.safe ensures Accounted(w.log, w.cursor.rooms, w.done + {p.offer.delivery}, i) {
      if i < w.pos {
      } else if i !in live {
        AckedIsAccounted(w, i);
        LiveOvertaken(w.log, w.done, p.offer.delivery, i);
      } else if i < c {
        assert !Guarded(w.log[i]) && RankOf(w.log[c]) <= RankOf(w.log[i]);
        assert Overtaken(w.log, w.done + {p.offer.delivery}, i);
      }
    }
  }

  lemma LiveOvertaken(log: seq<Line>, done: set<string>, d: string, i: nat)
    requires i < |log|
    ensures Overtaken(log, done, i) ==> Overtaken(log, done + {d}, i)
  {
  }

  lemma AcknowledgeKeeps(w: World, p: Pull)
    requires Good(w) && p in w.pulls
    ensures Good(Acknowledge(w, p))
  {
    var v := Acknowledge(w, p);
    assert PullOk(w.log, w.cursor.rooms, w.done, p);
    assert RoomsGrow(w.cursor.rooms, v.cursor.rooms);
    var log := w.log;
    assert log + [] == log;
    AccountedStays(log, [], w.cursor.rooms, v.cursor.rooms, v.done, v.done, p.safe);
    AccountedStays(log, [], w.cursor.rooms, v.cursor.rooms, w.done, v.done, w.pos);
    forall q | q in v.pulls ensures PullOk(log, v.cursor.rooms, v.done, q) {
      PullStays(log, [], w.cursor.rooms, v.cursor.rooms, w.done, v.done, q);
    }
    if p.safe > w.pos {
      OffsetsGrow(log, w.pos, p.safe);
    } else {
      OffsetsGrow(log, p.safe, w.pos);
    }
    AckedOnlyAdds(w.cursor.acked, p.offer.delivery);
  }

  lemma AckedOnlyAdds(acked: seq<string>, d: string)
    ensures forall e :: e in Remembered(acked, d) ==> e in acked || e == d
  {
    WithoutMeans(acked, d);
  }

  lemma StepKeepsGood(w: World, s: Step)
    requires Good(w) && Enabled(w, s)
    ensures Good(Apply(w, s))
  {
    match s {
      case Appended(line) => AppendKeeps(w, line);
      case Pulled(c) =>
        AdvanceKeeps(w);
        OfferIsSafe(w, c);
      case FoundNothing => AdvanceKeeps(w);
      case Acknowledged(n) => AcknowledgeKeeps(w, w.pulls[n]);
    }
  }

  // ---- All runs ----

  ghost predicate Legal(run: seq<Step>)
    decreases |run|, 0
  {
    run == [] ||
    var n := |run| - 1;
    Legal(run[..n]) && After(run[..n]).pos <= |After(run[..n]).log| && Enabled(After(run[..n]), run[n])
  }

  ghost function After(run: seq<Step>): World
    requires Legal(run)
    decreases |run|, 1
  {
    if run == [] then INITIAL else Apply(After(run[..|run| - 1]), run[|run| - 1])
  }

  lemma {:induction false} ReachableIsGood(run: seq<Step>)
    requires Legal(run)
    ensures Good(After(run))
  {
    if run != [] {
      var n := |run| - 1;
      ReachableIsGood(run[..n]);
      StepKeepsGood(After(run[..n]), run[n]);
    }
  }

  /**
    Protected work is never skipped: every record that starts below the persisted offset was acked, or
    is unprotected and obsolete, covered by its room's watermark, or overtaken by an acked later
    record of equal or higher urgency.
   */
  lemma ProtectedWorkIsNeverSkipped(run: seq<Step>, i: nat)
    requires Legal(run) && i < |After(run).log|
    requires Offset(After(run).log, i) < After(run).cursor.offset
    ensures var w := After(run);
            && (Guarded(w.log[i]) ==> w.log[i].delivery in w.done)
            && (w.log[i].delivery in w.done || w.log[i].legacy || Watermarked(w.log[i], w.cursor.rooms)
                || Overtaken(w.log, w.done, i))
  {
    ReachableIsGood(run);
    var w := After(run);
    if i >= w.pos {
      OffsetsGrow(w.log, w.pos, i);
    }
    assert Accounted(w.log, w.cursor.rooms, w.done, i);
  }

  // ---- The queue's methods are these steps ----

  /** The queue stands where the run does. */
  ghost predicate Mirrors(q: Queue, w: World)
    reads q
  {
    Good(w) && w.log == q.log && w.cursor == q.State()
  }

  lemma MirrorOpens(q: Queue, w: World)
    requires Mirrors(q, w)
    ensures q.Valid() && q.Readable() && q.Opened() == w.cursor && IndexAt(w.log, w.cursor.offset) == w.pos
  {
    OffsetsGrow(w.log, w.pos, |w.log|);
    assert OnBoundary(w.log, w.cursor.offset);
    IndexIsUnique(w.log, IndexAt(w.log, w.cursor.offset), w.pos);
  }

  method AppendStep(q: Queue, line: Line, ghost w: World) returns (ghost v: World)
    requires Mirrors(q, w)
    modifies q`log
    ensures Mirrors(q, v) && v == Apply(w, Appended(line))
  {
    MirrorOpens(q, w);
    AppendKeeps(w, line);
    q.Append(line);
    v := Apply(w, Appended(line));
    hide Good;
  }

  /** One call of `next_record` is one step of the run: a pull of the chosen record, or nothing found. */
  method PullStep(q: Queue, ghost w: World) returns (offer: Option<Offer>, ghost step: Step, ghost v: World)
    requires Mirrors(q, w)
    modifies q`offset
    ensures Enabled(w, step) && v == Apply(w, step) && Mirrors(q, v)
    ensures if offer.None? then step.FoundNothing? else step.Pulled? && v.pulls == w.pulls + [PullOf(w, step.c)] && offer == Some(PullOf(w, step.c).offer)
  {
    MirrorOpens(q, w);
    hide Good, Chosen, Live, Skip, OfferOf, AckPoint, OnBoundary, Offset;
    ghost var c;
    offer, c := q.NextRecord();
    step := if offer.None? then FoundNothing else Pulled(c);
    StepKeepsGood(w, step);
    v := Apply(w, step);
  }

  /** An acknowledgement of any earlier pull, late or again. */
  method AcknowledgeStep(q: Queue, offer: Offer, ghost n: nat, ghost w: World) returns (ghost v: World)
    requires Mirrors(q, w) && n < |w.pulls| && w.pulls[n].offer == offer
    modifies q
    ensures v == Apply(w, Acknowledged(n)) && Mirrors(q, v)
  {
    StepKeepsGood(w, Acknowledged(n));
    v := Apply(w, Acknowledged(n));
    hide Good;
    q.AckRecord(offer);
  }

  // ---- Draining ----

  /** The cursor and its position while the unread tail is pulled and acked, nothing being appended. */
  datatype Place = Place(pos: nat, cursor: Cursor)

  /** `picks` are the records chosen by successive pulls, each acked before the next. */
  ghost predicate Drains(log: seq<Line>, from: Place, picks: seq<nat>)
    decreases |picks|, 0
  {
    picks == [] ||
    var n := |picks| - 1;
    && Drains(log, from, picks[..n]) && Drained(log, from, picks[..n]).pos <= |log|
    && Chosen(log, LiveAt(log, Drained(log, from, picks[..n])), picks[n])
  }

  ghost function LiveAt(log: seq<Line>, place: Place): seq<nat>
    requires place.pos <= |log|
  {
    Live(log, place.pos, place.cursor)
  }

  /** The place after one pull of record `c` and its acknowledgement. */
  ghost function AfterRound(log: seq<Line>, place: Place, c: nat): Place
    requires place.pos <= |log| && c < |log|
  {
    LiveMeans(log, place.pos, place.cursor);
    var skipped := Skip(log, place.pos, place.cursor);
    var cursor := place.cursor.(offset := Offset(log, skipped));
    var safe := AckPoint(log, LiveAt(log, place), c);
    Place(if safe > skipped then safe else skipped,
          AckedWith(cursor, OfferOf(log, LiveAt(log, place), c, cursor.offset)))
  }

  ghost function Drained(log: seq<Line>, from: Place, picks: seq<nat>): Place
    requires Drains(log, from, picks)
    decreases |picks|, 1
  {
    if picks == [] then from else AfterRound(log, Drained(log, from, picks[..|picks| - 1]), picks[|picks| - 1])
  }

  function IdsFrom(log: seq<Line>, k: nat): set<string> {
    set j | k <= j < |log| :: log[j].delivery
  }

  function Deliveries(log: seq<Line>, picks: seq<nat>): seq<string>
    requires forall x :: 0 <= x < |picks| ==> picks[x] < |log|
  {
    seq(|picks|, x requires 0 <= x < |picks| => log[picks[x]].delivery)
  }

  predicate Distinct(ids: seq<string>) {
    forall x, y :: 0 <= x < y < |ids| ==> ids[x] != ids[y]
  }

  predicate EndsWith(ids: seq<string>, tail: seq<string>) {
    |tail| <= |ids| && ids[|ids| - |tail|..] == tail
  }

  /** Distinct members of a finite set are at most as many as the set. */
  lemma {:induction false} DistinctFit(ids: seq<string>, all: set<string>)
    requires Distinct(ids) && forall x :: 0 <= x < |ids| ==> ids[x] in all
    ensures |ids| <= |all|
  {
    if ids != [] {
      var last := ids[|ids| - 1];
      DistinctFit(ids[..|ids| - 1], all - {last});
    }
  }

  lemma {:induction false} WithoutDistributes(head: seq<string>, tail: seq<string>, d: string)
    requires d !in tail
    ensures Without(head + tail, d) == Without(head, d) + tail
    decreases |tail|
  {
    if tail == [] {
      assert head + tail == head;
    } else {
      var n := |tail| - 1;
      assert (head + tail)[..|head + tail| - 1] == head + tail[..n];
      WithoutDistributes(head, tail[..n], d);
      assert tail == tail[..n] + [tail[n]];
    }
  }

  /** Remembering one more id keeps the ids acked during the drain at the end of the window. */
  lemma WindowKeepsTail(acked: seq<string>, tail: seq<string>, d: string)
    requires EndsWith(acked, tail) && d !in tail && |tail| < ACK_HISTORY_LIMIT
    ensures EndsWith(Remembered(acked, d), tail + [d])
  {
    var head := acked[..|acked| - |tail|];
    assert acked == head + tail;
    WithoutDistributes(head, tail, d);
    hide Without;
    var kept := Without(head, d) + tail + [d];
    assert kept[|kept| - |tail| - 1..] == tail + [d];
    assert LastOf(kept, ACK_HISTORY_LIMIT)[|LastOf(kept, ACK_HISTORY_LIMIT)| - |tail| - 1..] == kept[|kept| - |tail| - 1..];
  }

  lemma PickIsNew(log: seq<Line>, place: Place, c: nat)
    requires place.pos <= |log| && Chosen(log, LiveAt(log, place), c)
    ensures place.pos <= c < |log| && log[c].delivery !in place.cursor.acked
    ensures place.pos <= AfterRound(log, place, c).pos <= |log|
    ensures AfterRound(log, place, c).cursor.acked ==
            Remembered(place.cursor.acked, log[c].delivery)
  {
    LiveMeans(log, place.pos, place.cursor);
    NothingGuardedBelow(log, LiveAt(log, place), c);
  }

  lemma OneMoreOffer(before: seq<string>, d: string, acked: seq<string>, all: set<string>)
    requires Distinct(before) && EndsWith(acked, before) && d !in acked
    requires d in all && (forall x :: 0 <= x < |before| ==> before[x] in all) && |all| <= ACK_HISTORY_LIMIT
    ensures Distinct(before + [d]) && |before| < |all|
    ensures EndsWith(Remembered(acked, d), before + [d])
  {
    forall x | 0 <= x < |before| ensures before[x] != d {
      assert before[x] == acked[|acked| - |before|..][x] == acked[|acked| - |before| + x];
    }
    DistinctFit(before + [d], all);
    WindowKeepsTail(acked, before, d);
  }

  /** No id was offered twice, and the window still holds every id offered. */
  ghost predicate OfferedOnce(log: seq<Line>, from: nat, picks: seq<nat>, place: Place) {
    && from <= place.pos <= |log|
    && (forall x :: 0 <= x < |picks| ==> from <= picks[x] < |log|)
    && Distinct(Deliveries(log, picks)) && EndsWith(place.cursor.acked, Deliveries(log, picks))
    && |picks| <= |IdsFrom(log, from)|
  }

  lemma RoundOffersOnce(log: seq<Line>, from: nat, picks: seq<nat>, place: Place, c: nat)
    requires OfferedOnce(log, from, picks, place) && |IdsFrom(log, from)| <= ACK_HISTORY_LIMIT
    requires Chosen(log, LiveAt(log, place), c)
    ensures c < |log| && OfferedOnce(log, from, picks + [c], AfterRound(log, place, c))
  {
    PickIsNew(log, place, c);
    assert Deliveries(log, picks + [c]) == Deliveries(log, picks) + [log[c].delivery];
    hide AfterRound, Chosen, Distinct, EndsWith, Remembered;
    OneMoreOffer(Deliveries(log, picks), log[c].delivery, place.cursor.acked, IdsFrom(log, from));
  }

  lemma {:induction false} DrainOffersOnce(log: seq<Line>, from: Place, picks: seq<nat>)
    requires from.pos <= |log| && |IdsFrom(log, from.pos)| <= ACK_HISTORY_LIMIT && Drains(log, from, picks)
    ensures OfferedOnce(log, from.pos, picks, Drained(log, from, picks))
  {
    hide OfferedOnce, Chosen, AfterRound, IdsFrom;
    if picks == [] {
      NothingOffered(log, from);
    } else {
      var n := |picks| - 1;
      DrainOffersOnce(log, from, picks[..n]);
      RoundOffersOnce(log, from.pos, picks[..n], Drained(log, from, picks[..n]), picks[n]);
      assert picks[..n] + [picks[n]] == picks;
    }
  }

  lemma NothingOffered(log: seq<Line>, from: Place)
    requires from.pos <= |log|
    ensures OfferedOnce(log, from.pos, [], from)
  {
  }

  lemma PreferenceChains(log: seq<Line>, a: nat, b: nat, c: nat)
    requires a < |log| && b < |log| && c < |log| && Preferred(log, a, b) && Preferred(log, b, c)
    ensures Preferred(log, a, c)
  {
    RankDecides(PriorityOf(log[a]), PriorityOf(log[b]));
  }

  lemma PreferenceIsTotal(log: seq<Line>, a: nat, b: nat)
    requires a < |log| && b < |log|
    ensures Preferred(log, a, b) || Preferred(log, b, a)
  {
    RankDecides(PriorityOf(log[a]), PriorityOf(log[b]));
  }

  /** Whatever is live, something can be chosen. */
  lemma {:induction false} SomethingIsChosen(log: seq<Line>, live: seq<nat>) returns (c: nat)
    requires live != [] && Positions(live, |log|)
    ensures Chosen(log, live, c)
  {
    var n := |live| - 1;
    var last := live[n];
    assert live == live[..n] + [last];
    PreferenceIsTotal(log, last, last);
    if n == 0 {
      return last;
    }
    var d := SomethingIsChosen(log, live[..n]);
    PreferenceIsTotal(log, d, last);
    hide Preferred;
    c := if Preferred(log, d, last) then d else last;
    forall j | j in live && j < |log| ensures Preferred(log, c, j) {
      if j != last && c == last {
        PreferenceChains(log, last, d, j);
      }
    }
  }

  /**
    Draining ends: with at most 1024 distinct ids in the unread tail, pulling and acking offers each
    id at most once, and after at most as many acks as ids nothing is pending and the cursor is at
    the end of the log.
   */
  lemma DrainEnds(log: seq<Line>, from: Place, picks: seq<nat>) returns (all: seq<nat>)
    requires from.pos <= |log| && |IdsFrom(log, from.pos)| <= ACK_HISTORY_LIMIT && Drains(log, from, picks)
    ensures Drains(log, from, all) && picks <= all && |all| <= |IdsFrom(log, from.pos)|
    ensures forall x :: 0 <= x < |all| ==> all[x] < |log|
    ensures Distinct(Deliveries(log, all))
    ensures var end := Drained(log, from, all);
            end.pos <= |log| && LiveAt(log, end) == [] && Skip(log, end.pos, end.cursor) == |log|
    decreases |IdsFrom(log, from.pos)| - |picks|
  {
    DrainOffersOnce(log, from, picks);
    var place := Drained(log, from, picks);
    LiveMeans(log, place.pos, place.cursor);
    if LiveAt(log, place) == [] {
      all := picks;
      SkipMeans(log, place.pos, place.cursor);
    } else {
      var c := SomethingIsChosen(log, LiveAt(log, place));
      var longer := picks + [c];
      assert longer[..|picks|] == picks;
      DrainOffersOnce(log, from, longer);
      all := DrainEnds(log, from, longer);
    }
  }
}
