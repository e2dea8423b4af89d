/**
  Ingestion of the delivery inbox into the attention table (attention_store.py, `ingest_inbox`): each
  call is one transaction over the complete lines after the stored offset.
 */
module Ingestion {
  import opened Common
  import DurableLog

  /** One parsed record; `lastId` is the highest message id of its event. */
  datatype Delivery = Delivery(
    server: string, room: string, deliveryId: string, priority: Priority,
    replyRequired: Option<bool>, lastId: Option<int>, receivedAt: Option<int>)

  /** JSON decoding and the checks that raise: None for a record that is not acceptable. */
  type Parser = string -> Option<Delivery>

  /** The attention id is made from the server's digest and the delivery id; digests are injective. */
  type Key = (string, string)

  datatype Row = Row(delivery: Delivery, sourceOffset: nat, replyRequired: bool, storedAt: int)

  datatype Ledger = Ledger(offset: nat, attentions: map<Key, Row>, watermarks: map<(string, string), int>)

  // ---- One record ----

  function Watermark(marks: map<(string, string), int>, d: Delivery): map<(string, string), int> {
    if d.room == "" || d.lastId.None? then marks
    else
      var key := (d.server, d.room);
      marks[key := if key in marks then Max(marks[key], d.lastId.value) else d.lastId.value]
  }

  function RowOf(d: Delivery, at: nat, now: int): Row {
    Row(d, at, d.replyRequired.GetOr(d.priority.DirectUser?), d.receivedAt.GetOr(now))
  }

  function KeyOf(d: Delivery): Key {
    (d.server, d.deliveryId)
  }

  /** Watermark first; then, unless it is context only, the first row for its key stays. */
  function Store(l: Ledger, d: Delivery, at: nat, now: int): Ledger {
    l.(watermarks := Watermark(l.watermarks, d), attentions := StoredRows(l.attentions, d, at, now))
  }

  function StoredRows(rows: map<Key, Row>, d: Delivery, at: nat, now: int): map<Key, Row> {
    if d.priority.Informational? || KeyOf(d) in rows then rows else rows[KeyOf(d) := RowOf(d, at, now)]
  }

  // ---- One pass ----

  /** The end of the complete line that starts at `at`; `at` itself when there is none. */
  function LineEnd(file: string, at: nat): (end: nat)
    requires at <= |file|
    ensures at <= end <= |file| && (end > at ==> file[end - 1] == '\n')
    decreases |file| - at
  {
    if at == |file| then at
    else if file[at] == '\n' then at + 1
    else
      var end := LineEnd(file, at + 1);
      if end == at + 1 then at else end
  }

  /** From `at` on, every complete line in order; None as soon as one is not acceptable. */
  function Pass(l: Ledger, parse: Parser, file: string, at: nat, now: int): Option<Ledger>
    requires at <= |file|
    decreases |file| - at
  {
    var end := LineEnd(file, at);
    if end == at then Some(l.(offset := at))
    else match parse(file[at..end])
      case None => None
      case Some(d) => Pass(Store(l, d, at, now), parse, file, end, now)
  }

  /** A call on a file that is shorter than the offset starts over; a bad record leaves all as it was. */
  function Ingest(l: Ledger, parse: Parser, file: string, now: int): Ledger {
    Pass(l, parse, file, if |file| < l.offset then 0 else l.offset, now).GetOr(l)
  }

  /** `initialize_ingestion_source`: an existing cursor wins; else the start of the file or its size. */
  function InitialOffset(stored: Option<nat>, file: Option<string>, replay: bool): nat {
    match stored
    case Some(offset) => offset
    case None => if replay || file.None? then 0 else |file.value|
  }

  // ---- What one call does, line by line ----

  /** A complete line: it starts where reading starts or after a newline, and ends with its first newline. */
  predicate IsLine(file: string, from: int, i: int, j: int) {
    && 0 <= from <= i < j <= |file| && (i == from || file[i - 1] == '\n')
    && file[j - 1] == '\n' && forall k :: i <= k < j - 1 ==> file[k] != '\n'
  }

  ghost predicate Acceptable(parse: Parser, file: string, from: int) {
    forall i, j :: IsLine(file, from, i, j) ==> parse(file[i..j]).Some?
  }

  /** A complete line at `i` is this record. */
  ghost predicate Shows(parse: Parser, file: string, from: int, i: int, d: Delivery) {
    exists j :: IsLine(file, from, i, j) && parse(file[i..j]) == Some(d)
  }

  /** The record is work to store under this key; what is context only is not. */
  predicate Names(d: Delivery, key: Key) {
    !d.priority.Informational? && (d.server, d.deliveryId) == key
  }

  /** The first line with this key. */
  ghost predicate FirstFor(parse: Parser, file: string, from: int, key: Key, i: int, d: Delivery) {
    && Shows(parse, file, from, i, d) && Names(d, key)
    && forall p, e :: Shows(parse, file, from, p, e) && Names(e, key) ==> i <= p
  }

  /** The row of the record at offset `i`; only a direct message asks for a reply unless the record says so. */
  predicate RowFrom(r: Row, d: Delivery, i: int, now: int) {
    && r.delivery == d && r.sourceOffset == i
    && r.replyRequired == (if d.replyRequired.Some? then d.replyRequired.value else d.priority.DirectUser?)
    && r.storedAt == (if d.receivedAt.Some? then d.receivedAt.value else now)
  }

  /** Rows in the table stay; a new one is that of the first line with its key; every line's key is in the table. */
  ghost predicate FirstRowsStay(before: map<Key, Row>, after: map<Key, Row>, parse: Parser, file: string, from: int, now: int) {
    && (forall k :: k in before ==> k in after && after[k] == before[k])
    && (forall k :: k in after && k !in before ==>
          exists i, d :: FirstFor(parse, file, from, k, i, d) && RowFrom(after[k], d, i, now))
    && forall i, d :: Shows(parse, file, from, i, d) && !d.priority.Informational? ==> (d.server, d.deliveryId) in after
  }

  /** The record raises the watermark of this server and room to at least `id`. */
  predicate MarksTo(d: Delivery, key: (string, string), id: int) {
    d.room != "" && (d.server, d.room) == key && d.lastId == Some(id)
  }

  ghost predicate MarkedTo(parse: Parser, file: string, from: int, key: (string, string), id: int) {
    exists i, d :: Shows(parse, file, from, i, d) && MarksTo(d, key, id)
  }

  /** A watermark is the greatest of what it was and the last ids its room's lines show. */
  ghost predicate GreatestSeen(before: map<(string, string), int>, after: map<(string, string), int>, parse: Parser, file: string, from: int) {
    && (forall k :: k in before ==> k in after && before[k] <= after[k])
    && (forall k, id :: MarkedTo(parse, file, from, k, id) ==> k in after && id <= after[k])
    && forall k :: k in after ==> (k in before && after[k] == before[k]) || MarkedTo(parse, file, from, k, after[k])
  }

  /** Reading stops behind the last newline, or where it started when there is none. */
  predicate StopsAt(file: string, from: nat, stop: nat) {
    from <= stop <= |file| && (stop == from || file[stop - 1] == '\n') && forall k :: stop <= k < |file| ==> file[k] != '\n'
  }

  lemma LinesFrom(file: string, at: nat, i: int, j: int)
    requires at <= |file|
    ensures var end := LineEnd(file, at);
            IsLine(file, at, i, j) <==> end > at && ((i == at && j == end) || IsLine(file, end, i, j))
  {
    if LineEnd(file, at) > at {
      LineEndIsFirst(file, at);
    } else {
      NoLineNoNewline(file, at);
    }
  }

  lemma {:induction false} LineEndIsFirst(file: string, at: nat)
    requires at <= |file| && LineEnd(file, at) > at
    ensures IsLine(file, at, at, LineEnd(file, at))
    decreases |file| - at
  {
    if file[at] != '\n' {
      LineEndIsFirst(file, at + 1);
    }
  }

  /** The first line, and then those behind it. */
  lemma ShowsFrom(parse: Parser, file: string, at: nat)
    requires at < |file| && at < LineEnd(file, at)
    ensures var end := LineEnd(file, at);
            && (Acceptable(parse, file, at) <==> parse(file[at..end]).Some? && Acceptable(parse, file, end))
            && forall i, d :: Shows(parse, file, at, i, d) <==> (i == at && parse(file[at..end]) == Some(d)) || Shows(parse, file, end, i, d)
  {
    var end := LineEnd(file, at);
    forall i, j ensures IsLine(file, at, i, j) <==> (i == at && j == end) || IsLine(file, end, i, j) {
      LinesFrom(file, at, i, j);
    }
    assert IsLine(file, at, at, end);
    hide LineEnd;
  }

  lemma ShowsBehind(parse: Parser, file: string, from: int, i: int, d: Delivery)
    requires Shows(parse, file, from, i, d)
    ensures from <= i
  {
  }

  lemma StoredMeans(before: map<Key, Row>, d: Delivery, at: nat, now: int)
    ensures var mid := StoredRows(before, d, at, now);
            && (forall k :: k in before ==> k in mid && mid[k] == before[k])
            && (forall k :: k in mid && k !in before ==> Names(d, k) && RowFrom(mid[k], d, at, now))
            && (forall k :: Names(d, k) ==> k in mid)
  {
  }

  lemma RowsAfterOne(before: map<Key, Row>, d: Delivery, after: map<Key, Row>, parse: Parser, file: string, at: nat, now: int)
    requires at < |file| && at < LineEnd(file, at) && parse(file[at..LineEnd(file, at)]) == Some(d)
    requires FirstRowsStay(StoredRows(before, d, at, now), after, parse, file, LineEnd(file, at), now)
    ensures FirstRowsStay(before, after, parse, file, at, now)
  {
    var end, mid := LineEnd(file, at), StoredRows(before, d, at, now);
    ShowsFrom(parse, file, at);
    StoredMeans(before, d, at, now);
    hide Shows, LineEnd, RowFrom, FirstFor, StoredRows;
    forall k | k in after && k !in before
      ensures exists i, e :: FirstFor(parse, file, at, k, i, e) && RowFrom(after[k], e, i, now)
    {
      if k in mid {
        FirstIsHere(d, parse, file, at, k);
      } else {
        var i, e :| FirstFor(parse, file, end, k, i, e) && RowFrom(after[k], e, i, now);
        FirstIsLater(parse, file, at, d, k, i, e);
      }
    }
  }

  lemma FirstIsHere(d: Delivery, parse: Parser, file: string, at: nat, k: Key)
    requires at < |file| && at < LineEnd(file, at) && parse(file[at..LineEnd(file, at)]) == Some(d) && Names(d, k)
    ensures FirstFor(parse, file, at, k, at, d)
  {
    ShowsFrom(parse, file, at);
    forall i, e | Shows(parse, file, at, i, e) ensures at <= i {
      ShowsBehind(parse, file, at, i, e);
    }
    hide Shows, LineEnd;
  }

  lemma FirstIsLater(parse: Parser, file: string, at: nat, d: Delivery, k: Key, i: int, e: Delivery)
    requires at < |file| && at < LineEnd(file, at) && parse(file[at..LineEnd(file, at)]) == Some(d) && !Names(d, k)
    requires FirstFor(parse, file, LineEnd(file, at), k, i, e)
    ensures FirstFor(parse, file, at, k, i, e)
  {
    ShowsFrom(parse, file, at);
    hide Shows, LineEnd;
  }

  lemma WatermarkMeans(before: map<(string, string), int>, d: Delivery)
    ensures var mid := Watermark(before, d);
            && (forall k :: k in before ==> k in mid && before[k] <= mid[k])
            && (forall k, id :: MarksTo(d, k, id) ==> k in mid && id <= mid[k])
            && forall k :: k in mid ==> (k in before && mid[k] == before[k]) || MarksTo(d, k, mid[k])
  {
  }

  lemma MarksAfterOne(before: map<(string, string), int>, d: Delivery, after: map<(string, string), int>, parse: Parser, file: string, at: nat)
    requires at < |file| && at < LineEnd(file, at) && parse(file[at..LineEnd(file, at)]) == Some(d)
    requires GreatestSeen(Watermark(before, d), after, parse, file, LineEnd(file, at))
    ensures GreatestSeen(before, after, parse, file, at)
  {
    WatermarkMeans(before, d);
    MarkedFrom(parse, file, at, d);
    hide MarkedTo, LineEnd, Watermark, MarksTo;
  }

  lemma MarkedFrom(parse: Parser, file: string, at: nat, d: Delivery)
    requires at < |file| && at < LineEnd(file, at) && parse(file[at..LineEnd(file, at)]) == Some(d)
    ensures forall k, id :: MarkedTo(parse, file, at, k, id) <==> MarksTo(d, k, id) || MarkedTo(parse, file, LineEnd(file, at), k, id)
  {
    ShowsFrom(parse, file, at);
    hide Shows, LineEnd, MarksTo;
    forall k, id | MarksTo(d, k, id) ensures MarkedTo(parse, file, at, k, id) {
      assert Shows(parse, file, at, at, d);
    }
  }

  /** A pass succeeds exactly when every complete line is acceptable; then first rows stay and watermarks are greatest. */
  lemma {:induction false} PassMeans(l: Ledger, parse: Parser, file: string, at: nat, now: int)
    requires at <= |file|
    ensures Pass(l, parse, file, at, now).Some? <==> Acceptable(parse, file, at)
    ensures var m := Pass(l, parse, file, at, now);
            m.Some? ==>
              && FirstRowsStay(l.attentions, m.value.attentions, parse, file, at, now)
              && GreatestSeen(l.watermarks, m.value.watermarks, parse, file, at)
              && StopsAt(file, at, m.value.offset)
    decreases |file| - at
  {
    var end := LineEnd(file, at);
    if end > at {
      hide FirstRowsStay, GreatestSeen, Acceptable, Shows;
      ShowsFrom(parse, file, at);
      var record := parse(file[at..end]);
      if record.Some? {
        PassMeans(Store(l, record.value, at, now), parse, file, end, now);
        var m := Pass(l, parse, file, at, now);
        if m.Some? {
          RowsAfterOne(l.attentions, record.value, m.value.attentions, parse, file, at, now);
          MarksAfterOne(l.watermarks, record.value, m.value.watermarks, parse, file, at);
        }
      }
    } else {
      NoLineNoNewline(file, at);
      forall i, j ensures !IsLine(file, at, i, j) {
        LinesFrom(file, at, i, j);
      }
    }
  }

  /** How many complete lines there are from `at` on, and how many of them are context only. */
  function Lines(file: string, at: nat): nat
    requires at <= |file|
    decreases |file| - at
  {
    var end := LineEnd(file, at);
    if end == at then 0 else 1 + Lines(file, end)
  }

  function ContextLines(parse: Parser, file: string, at: nat): nat
    requires at <= |file|
    decreases |file| - at
  {
    var end := LineEnd(file, at);
    if end == at then 0
    else (match parse(file[at..end]) case Some(d) => if d.priority.Informational? then 1 else 0 case None => 0) + ContextLines(parse, file, end)
  }

  class Ingestor {
    /** A cursor row exists for the inbox. */
    var known: bool
    var offset: nat
    var attentions: map<Key, Row>
    var watermarks: map<(string, string), int>

    constructor ()
      ensures State() == Ledger(0, map[], map[]) && !known
    {
      known, offset, attentions, watermarks := false, 0, map[], map[];
    }

    /** Creates the first-run cursor; `file` is None when there is no inbox yet. */
    method InitializeSource(file: Option<string>, replay: bool) returns (at: nat)
      modifies `known, `offset
      ensures known && at == offset
      ensures offset == InitialOffset(if old(known) then Some(old(offset)) else None, file, replay)
      ensures old(known) ==> offset == old(offset)
      ensures !old(known) ==> offset == if replay || file.None? then 0 else |file.value|
    {
      if !known {
        known := true;
        offset := 0;
        if !replay && file.Some? {
          offset := |file.value|;
        }
      }
      at := offset;
    }

    ghost function State(): Ledger
      reads this
    {
      Ledger(offset, attentions, watermarks)
    }

    /** The next complete line, as `readline` returns it. */
    static method ReadLine(file: string, at: nat) returns (end: nat)
      requires at <= |file|
      ensures end == LineEnd(file, at)
    {
      end := at;
      while end < |file| && file[end] != '\n'
        invariant at <= end <= |file|
        invariant forall k :: at <= k < end ==> file[k] != '\n'
      {
        end := end + 1;
      }
      FirstNewline(file, at, end);
      end := if end < |file| then end + 1 else at;
    }

    /** The transaction commits with the new offset, or is rolled back. */
    method IngestInbox(parse: Parser, file: string, now: int) returns (ok: bool, inserted: nat, contextOnly: nat, duplicate: nat)
      modifies this
      ensures State() == Ingest(old(State()), parse, file, now)
      ensures var from := if |file| < old(offset) then 0 else old(offset);
              && (ok <==> Acceptable(parse, file, from))
              && (ok ==>
                    && FirstRowsStay(old(attentions), attentions, parse, file, from, now)
                    && GreatestSeen(old(watermarks), watermarks, parse, file, from)
                    && StopsAt(file, from, offset))
      ensures !ok ==> State() == old(State())
      ensures ok ==> |attentions| == |old(attentions)| + inserted
      ensures var from := if |file| < old(offset) then 0 else old(offset);
              ok ==> contextOnly == ContextLines(parse, file, from) && inserted + contextOnly + duplicate == Lines(file, from)
      ensures known == (old(known) || ok)
    {
      var start := if |file| < offset then 0 else offset;
      var rows, marks, at := attentions, watermarks, start;
      ghost var all := Pass(State(), parse, file, start, now);
      hide FirstRowsStay, GreatestSeen, Acceptable, StopsAt, Max;
      inserted, contextOnly, duplicate := 0, 0, 0;
      while true
        invariant at <= |file| && all == Pass(Ledger(offset, rows, marks), parse, file, at, now)
        invariant State() == old(State()) && known == old(known) && |rows| == |attentions| + inserted
        invariant contextOnly + ContextLines(parse, file, at) == ContextLines(parse, file, start)
        invariant inserted + contextOnly + duplicate + Lines(file, at) == Lines(file, start)
        decreases |file| - at
      {
        var end := ReadLine(file, at);
        if end == at {
          break;
        }
        var record := parse(file[at..end]);
        if record.None? {
          PassMeans(State(), parse, file, start, now);
          return false, 0, 0, 0;
        }
        var d := record.value;
        if d.room != "" && d.lastId.Some? {
          var key := (d.server, d.room);
          var known := if key in marks then Max(marks[key], d.lastId.value) else d.lastId.value;
          marks := marks[key := known];
        }
        if d.priority.Informational? {
          contextOnly := contextOnly + 1;
        } else if (d.server, d.deliveryId) in rows {
          duplicate := duplicate + 1;
        } else {
          rows := rows[(d.server, d.deliveryId) := RowOf(d, at, now)];
          inserted := inserted + 1;
        }
        at := end;
      }
      PassMeans(State(), parse, file, start, now);
      known, offset, attentions, watermarks := true, at, rows, marks;
      ok := true;
    }
  }

  lemma {:induction false} FirstNewline(file: string, at: nat, n: nat)
    requires at <= n <= |file| && (forall k :: at <= k < n ==> file[k] != '\n') && (n < |file| ==> file[n] == '\n')
    ensures LineEnd(file, at) == if n < |file| then n + 1 else at
    decreases n - at
  {
    if at < n {
      FirstNewline(file, at + 1, n);
    }
  }

  // ---- Appending ----

  lemma {:induction false} LineStays(file: string, more: string, at: nat)
    requires at <= |file| && LineEnd(file, at) > at
    ensures LineEnd(file + more, at) == LineEnd(file, at)
    decreases |file| - at
  {
    if file[at] != '\n' {
      LineStays(file, more, at + 1);
    }
  }

  /** The clock enters only where a record carries no time of its own. */
  function Timeless(l: Ledger): Ledger {
    l.(attentions := map k | k in l.attentions :: Clockless(l.attentions[k]))
  }

  predicate SameButClock(a: Ledger, b: Ledger) {
    Timeless(a) == Timeless(b)
  }

  function Clockless(r: Row): Row {
    if r.delivery.receivedAt.Some? then r else r.(storedAt := 0)
  }

  predicate SameRows(x: map<Key, Row>, y: map<Key, Row>) {
    x.Keys == y.Keys && forall k :: k in x ==> Clockless(x[k]) == Clockless(y[k])
  }

  lemma SameButClockMeans(a: Ledger, b: Ledger)
    ensures SameButClock(a, b) <==> a.offset == b.offset && a.watermarks == b.watermarks && SameRows(a.attentions, b.attentions)
  {
    var s, t := Timeless(a), Timeless(b);
    assert s.attentions.Keys == a.attentions.Keys && t.attentions.Keys == b.attentions.Keys;
    assert forall k :: k in a.attentions ==> s.attentions[k] == Clockless(a.attentions[k]);
    assert forall k :: k in b.attentions ==> t.attentions[k] == Clockless(b.attentions[k]);
    hide Clockless, Timeless;
    if SameRows(a.attentions, b.attentions) {
      assert s.attentions == t.attentions;
    }
  }

  lemma StoreIgnoresClock(a: Ledger, b: Ledger, d: Delivery, at: nat, now: int, later: int)
    requires SameButClock(a, b)
    ensures SameButClock(Store(a, d, at, now), Store(b, d, at, later))
  {
    hide Watermark, Timeless, SameButClock;
    SameButClockMeans(a, b);
    SameButClockMeans(Store(a, d, at, now), Store(b, d, at, later));
  }

  lemma {:induction false} PassIgnoresClock(a: Ledger, b: Ledger, parse: Parser, file: string, at: nat, now: int, later: int)
    requires at <= |file| && SameButClock(a, b)
    ensures Pass(a, parse, file, at, now).Some? <==> Pass(b, parse, file, at, later).Some?
    ensures Pass(a, parse, file, at, now).Some? ==>
              SameButClock(Pass(a, parse, file, at, now).value, Pass(b, parse, file, at, later).value)
    decreases |file| - at
  {
    var end := LineEnd(file, at);
    if end > at {
      var record := parse(file[at..end]);
      if record.Some? {
        StoreIgnoresClock(a, b, record.value, at, now, later);
        PassIgnoresClock(Store(a, record.value, at, now), Store(b, record.value, at, later), parse, file, end, now, later);
      }
    }
  }

  /** A pass over a longer file is the pass over the shorter one, continued where that one stopped. */
  lemma {:induction false} PassContinues(l: Ledger, parse: Parser, file: string, more: string, at: nat, now: int)
    requires at <= |file|
    ensures var first := Pass(l, parse, file, at, now);
            if first.Some? then
              && at <= first.value.offset <= |file|
              && Pass(l, parse, file + more, at, now) == Pass(first.value, parse, file + more, first.value.offset, now)
            else Pass(l, parse, file + more, at, now) == None
    decreases |file| - at
  {
    var end := LineEnd(file, at);
    if end > at {
      LineStays(file, more, at);
      assert (file + more)[at..end] == file[at..end];
      var record := parse(file[at..end]);
      if record.Some? {
        PassContinues(Store(l, record.value, at, now), parse, file, more, end, now);
      }
    } else {
      OffsetIsIrrelevant(l, parse, file + more, at, now);
    }
  }

  /** The stored offset is overwritten at the end of the pass, whatever it was. */
  lemma {:induction false} OffsetIsIrrelevant(l: Ledger, parse: Parser, file: string, at: nat, now: int)
    requires at <= |file|
    ensures Pass(l.(offset := at), parse, file, at, now) == Pass(l, parse, file, at, now)
  {
    OffsetFree(l.(offset := at), l, parse, file, at, now);
  }

  lemma {:induction false} OffsetFree(a: Ledger, b: Ledger, parse: Parser, file: string, at: nat, now: int)
    requires at <= |file| && a.attentions == b.attentions && a.watermarks == b.watermarks
    ensures Pass(a, parse, file, at, now) == Pass(b, parse, file, at, now)
    decreases |file| - at
  {
    var end := LineEnd(file, at);
    if end > at {
      var record := parse(file[at..end]);
      if record.Some? {
        OffsetFree(Store(a, record.value, at, now), Store(b, record.value, at, now), parse, file, end, now);
      }
    }
  }

  /** A successful pass stops right after the last newline, or where it started. */
  lemma {:induction false} PassStopsAtLastNewline(l: Ledger, parse: Parser, file: string, at: nat, now: int)
    requires at <= |file| && Pass(l, parse, file, at, now).Some?
    ensures var stop := Pass(l, parse, file, at, now).value.offset;
            && at <= stop <= |file| && (stop > at ==> file[stop - 1] == '\n')
            && forall k :: stop <= k < |file| ==> file[k] != '\n'
    decreases |file| - at
  {
    var end := LineEnd(file, at);
    if end > at {
      PassStopsAtLastNewline(Store(l, parse(file[at..end]).value, at, now), parse, file, end, now);
    } else {
      NoLineNoNewline(file, at);
    }
  }

  lemma {:induction false} NoLineNoNewline(file: string, at: nat)
    requires at <= |file| && LineEnd(file, at) == at
    ensures forall k :: at <= k < |file| ==> file[k] != '\n'
    decreases |file| - at
  {
    if at < |file| {
      NoLineNoNewline(file, at + 1);
    }
  }

  // ---- Runs: appends at any byte, and calls, in any order ----

  datatype Event = Appended(bytes: string) | Ingested(now: int)

  datatype World = World(file: string, ledger: Ledger)

  function After(start: World, parse: Parser, run: seq<Event>): World {
    if run == [] then start
    else
      var w := After(start, parse, run[..|run| - 1]);
      match run[|run| - 1]
      case Appended(bytes) => w.(file := w.file + bytes)
      case Ingested(now) => w.(ledger := Ingest(w.ledger, parse, w.file, now))
  }

  /** The ledger is what one pass from the start over the first `n` bytes gives. */
  ghost predicate IsBatch(start: World, parse: Parser, w: World, n: nat) {
    && start.file <= w.file && start.ledger.offset <= n <= |w.file| && start.ledger.offset <= |start.file|
    && var batch := Pass(start.ledger, parse, w.file[..n], start.ledger.offset, 0);
       batch.Some? && SameButClock(w.ledger, batch.value)
  }

  lemma CallIsBatch(start: World, parse: Parser, w: World, n: nat, now: int)
    requires IsBatch(start, parse, w, n)
    ensures var whole := Pass(start.ledger, parse, w.file, start.ledger.offset, 0);
            var v := w.(ledger := Ingest(w.ledger, parse, w.file, now));
            if whole.Some? then IsBatch(start, parse, v, |w.file|) else v == w
  {
    var at := start.ledger.offset;
    var batch := Pass(start.ledger, parse, w.file[..n], at, 0).value;
    assert w.file == w.file[..n] + w.file[n..];
    PassContinues(start.ledger, parse, w.file[..n], w.file[n..], at, 0);
    assert w.ledger.offset == Timeless(w.ledger).offset == Timeless(batch).offset == batch.offset;
    PassIgnoresClock(w.ledger, batch, parse, w.file, batch.offset, now, 0);
    assert w.file[..|w.file|] == w.file;
  }

  /**
    Incremental equals batch: for any byte-level split of appends interleaved with calls, the rows,
    watermarks and offset are those of one pass over the bytes there at the last successful call.
   */
  lemma {:induction false} AlwaysABatch(start: World, parse: Parser, run: seq<Event>) returns (n: nat)
    requires start.ledger.offset <= |start.file|
    requires Pass(start.ledger, parse, start.file[..start.ledger.offset], start.ledger.offset, 0).Some?
    ensures IsBatch(start, parse, After(start, parse, run), n)
  {
    if run == [] {
      n := start.ledger.offset;
      assert Timeless(start.ledger.(offset := n)) == Timeless(start.ledger);
    } else {
      var before := After(start, parse, run[..|run| - 1]);
      n := AlwaysABatch(start, parse, run[..|run| - 1]);
      match run[|run| - 1] {
        case Appended(bytes) => assert (before.file + bytes)[..n] == before.file[..n];
        case Ingested(now) =>
          CallIsBatch(start, parse, before, n, now);
          if Pass(start.ledger, parse, before.file, start.ledger.offset, 0).Some? {
            n := |before.file|;
          }
      }
    }
  }

  /** After a call on acceptable records: exactly one pass over the longest newline-terminated prefix. */
  lemma IncrementalEqualsBatch(start: World, parse: Parser, run: seq<Event>, now: int)
    requires start.ledger.offset <= |start.file|
    requires var file := After(start, parse, run).file;
             start.ledger.offset <= |file| && Pass(start.ledger, parse, file, start.ledger.offset, 0).Some?
    requires start.ledger.offset == 0 || start.file[start.ledger.offset - 1] == '\n'
    ensures var w := After(start, parse, run + [Ingested(now)]);
            var batch := Pass(start.ledger, parse, w.file, start.ledger.offset, 0);
            && start.ledger.offset <= |w.file| && batch.Some? && SameButClock(w.ledger, batch.value)
            && w.ledger.offset == |DurableLog.Committed(w.file)|
  {
    var at, w := start.ledger.offset, After(start, parse, run);
    assert LineEnd(start.file[..at], at) == at;
    var n := AlwaysABatch(start, parse, run);
    assert (run + [Ingested(now)])[..|run|] == run;
    CallIsWholeBatch(start, parse, w, n, now);
  }

  lemma CallIsWholeBatch(start: World, parse: Parser, w: World, n: nat, now: int)
    requires IsBatch(start, parse, w, n) && Pass(start.ledger, parse, w.file, start.ledger.offset, 0).Some?
    requires start.ledger.offset == 0 || start.file[start.ledger.offset - 1] == '\n'
    ensures var ledger := Ingest(w.ledger, parse, w.file, now);
            var batch := Pass(start.ledger, parse, w.file, start.ledger.offset, 0);
            SameButClock(ledger, batch.value) && ledger.offset == |DurableLog.Committed(w.file)|
  {
    var at, ledger := start.ledger.offset, Ingest(w.ledger, parse, w.file, now);
    var batch := Pass(start.ledger, parse, w.file, at, 0).value;
    CallIsBatch(start, parse, w, n, now);
    assert w.file[..|w.file|] == w.file;
    assert SameButClock(ledger, batch);
    PassStopsAtLastNewline(start.ledger, parse, w.file, at, 0);
    hide Pass, Ingest;
    assert ledger.offset == Timeless(ledger).offset == Timeless(batch).offset == batch.offset;
    assert at > 0 ==> w.file[at - 1] == start.file[at - 1];
    StopIsCommitted(w.file, batch.offset);
  }

  lemma StopIsCommitted(file: string, stop: nat)
    requires stop <= |file| && (stop > 0 ==> file[stop - 1] == '\n') && forall k :: stop <= k < |file| ==> file[k] != '\n'
    ensures |DurableLog.Committed(file)| == stop
  {
    DurableLog.CommittedBefore(file, stop);
    assert stop > 0 ==> file[..stop][stop - 1] == '\n';
  }

  /** A bad record changes nothing, and blocks every later call however much is appended. */
  lemma {:induction false} BadRecordBlocks(w: World, parse: Parser, run: seq<Event>)
    requires w.ledger.offset <= |w.file| && Pass(w.ledger, parse, w.file, w.ledger.offset, 0).None?
    ensures After(w, parse, run).ledger == w.ledger && w.file <= After(w, parse, run).file
  {
    if run != [] {
      BadRecordBlocks(w, parse, run[..|run| - 1]);
      var before := After(w, parse, run[..|run| - 1]);
      if run[|run| - 1].Ingested? {
        var more := before.file[|w.file|..];
        assert before.file == w.file + more;
        PassContinues(w.ledger, parse, w.file, more, w.ledger.offset, 0);
        PassIgnoresClock(w.ledger, w.ledger, parse, before.file, w.ledger.offset, 0, run[|run| - 1].now);
      }
    }
  }

  // ---- The first-run cursor ----

  /** Reading complete lines from `from` stops at `at` at some point. */
  ghost predicate ReachedByLines(file: string, from: nat, at: nat)
    requires from <= |file|
    decreases |file| - from
  {
    from == at || (LineEnd(file, from) > from && ReachedByLines(file, LineEnd(file, from), at))
  }

  lemma {:induction false} EndIsReached(file: string, from: nat)
    requires from <= |file|
    ensures ReachedByLines(file, from, |file|) <==> from == |file| || file[|file| - 1] == '\n'
    decreases |file| - from
  {
    var end := LineEnd(file, from);
    if end > from {
      EndIsReached(file, end);
    } else {
      NoLineNoNewline(file, from);
    }
  }

  /**
    The first-run cursor is documented as the current complete-file boundary. It is one, a point that
    reading lines from the start reaches, exactly when the inbox is empty or ends with a newline.
   */
  lemma FirstCursorIsBoundaryIff(file: string)
    ensures ReachedByLines(file, 0, InitialOffset(None, Some(file), false)) <==> file == "" || file[|file| - 1] == '\n'
  {
    EndIsReached(file, 0);
  }

  /**
    A first run while a line is being written: once the line is complete, its tail alone is taken for
    a record. If the tail is not acceptable, ingestion never moves again, whatever is appended.
   */
  lemma MidLineStart(torn: string, tail: string, rest: string, parse: Parser, run: seq<Event>, now: int)
    requires tail != "" && tail[|tail| - 1] == '\n' && forall k :: 0 <= k < |tail| - 1 ==> tail[k] != '\n'
    ensures var l := Ledger(InitialOffset(None, Some(torn), false), map[], map[]);
            var w := World(torn + tail + rest, l);
            match parse(tail)
            case None => After(w, parse, run).ledger == l
            case Some(d) => Pass(l, parse, w.file, l.offset, now) == Pass(Store(l, d, |torn|, now), parse, w.file, |torn + tail|, now)
  {
    var l := Ledger(|torn|, map[], map[]);
    var file := torn + tail + rest;
    assert forall k :: |torn| <= k < |torn + tail| ==> file[k] == tail[k - |torn|];
    FirstNewline(file, |torn|, |torn + tail| - 1);
    assert file[|torn|..|torn + tail|] == tail;
    if parse(tail).None? {
      assert Pass(l, parse, file, l.offset, 0).None?;
      BadRecordBlocks(World(file, l), parse, run);
    }
  }
}
