/**
  Recovery of missed messages after a reconnect (listen.py, `backfill_pages`, `chunk_messages`, `emit`,
  `advance_cursor_locked` and the loop in `watch`), with a crash possible before any fetch, durable
  write or cursor save.
 */
module Backfill {
  import opened Common

  /** A message of a room; `names` are those it addresses, by target or mention. */
  datatype Message = Message(id: nat, sender: string, names: set<string>, broadcast: bool)

  type Messages = seq<Message>

  /** The runtime's own delivery policy; a lead hears everything but itself. */
  datatype Policy = Policy(skipOwn: Option<string>, mentionsOnly: Option<string>, onlyDirect: Option<string>, lead: bool)

  predicate Wanted(p: Policy, m: Message) {
    && p.skipOwn != Some(m.sender)
    && (p.mentionsOnly.Some? && !p.lead ==> m.broadcast || p.mentionsOnly.value in m.names)
    && (p.onlyDirect.Some? && !p.lead ==> m.broadcast || p.onlyDirect.value in m.names)
  }

  const PAGE_SIZE := 200

  function Filter(p: Policy, ms: Messages): Messages {
    if ms == [] then []
    else Filter(p, ms[..|ms| - 1]) + if Wanted(p, ms[|ms| - 1]) then [ms[|ms| - 1]] else []
  }

  function Flatten(batches: seq<Messages>): Messages {
    if batches == [] then [] else Flatten(batches[..|batches| - 1]) + batches[|batches| - 1]
  }

  predicate Ascending(ms: Messages) {
    forall i, j :: 0 <= i < j < |ms| ==> ms[i].id < ms[j].id
  }

  /** How many messages are not above `since`. */
  function Below(ms: Messages, since: nat): (n: nat)
    ensures n <= |ms|
  {
    if ms == [] || ms[0].id > since then 0 else 1 + Below(ms[1..], since)
  }

  lemma {:induction false} BelowSplits(ms: Messages, since: nat)
    requires Ascending(ms)
    ensures forall i :: 0 <= i < |ms| ==> (ms[i].id <= since <==> i < Below(ms, since))
  {
    if ms != [] && ms[0].id <= since {
      BelowSplits(ms[1..], since);
      assert forall i :: 1 <= i < |ms| ==> ms[i] == ms[1..][i - 1];
    }
  }

  lemma {:induction false} FilterConcat(p: Policy, a: Messages, b: Messages)
    ensures Filter(p, a + b) == Filter(p, a) + Filter(p, b)
  {
    if b == [] {
      assert a + b == a;
    } else {
      assert (a + b)[..|a + b| - 1] == a + b[..|b| - 1];
      FilterConcat(p, a, b[..|b| - 1]);
    }
  }

  lemma {:induction false} FilterMeans(p: Policy, ms: Messages)
    ensures forall m :: m in Filter(p, ms) <==> m in ms && Wanted(p, m)
    ensures Ascending(ms) ==> Ascending(Filter(p, ms))
  {
    if ms != [] {
      FilterMeans(p, ms[..|ms| - 1]);
      assert ms == ms[..|ms| - 1] + [ms[|ms| - 1]];
      var rest := Filter(p, ms[..|ms| - 1]);
      if Ascending(ms) {
        assert forall k :: 0 <= k < |rest| ==> rest[k] in ms[..|ms| - 1];
      }
    }
  }

  /**
    Who hears what: nobody itself; a lead all others; any other agent, if it asks only for what addresses it,
    what is broadcast or names it, and otherwise everything.
   */
  lemma WhoHearsWhat(p: Policy, ms: Messages, m: Message)
    ensures p.skipOwn == Some(m.sender) ==> m !in Filter(p, ms)
    ensures p.skipOwn != Some(m.sender) && (p.lead || m.broadcast || (p.mentionsOnly.None? && p.onlyDirect.None?)) ==>
              (m in Filter(p, ms) <==> m in ms)
    ensures p.skipOwn != Some(m.sender) && !p.lead && !m.broadcast ==>
              (m in Filter(p, ms) <==>
                 && m in ms
                 && (forall name :: p.mentionsOnly == Some(name) ==> name in m.names)
                 && (forall name :: p.onlyDirect == Some(name) ==> name in m.names))
  {
    FilterMeans(p, ms);
  }

  /** The server's room: its history so far, and what arrives before each later request. */
  class RoomServer {
    var history: Messages
    var arrivals: seq<Messages>

    ghost function Whole(): Messages
      reads this
    {
      history + Flatten(arrivals)
    }

    ghost predicate Valid()
      reads this
    {
      Ascending(Whole())
    }

    /** GET messages?since=..&limit=..: the oldest `limit` messages above `since`. */
    method Fetch(since: nat, limit: nat) returns (page: Messages)
      requires Valid()
      modifies this
      ensures Valid() && Whole() == old(Whole()) && old(history) <= history
      ensures |arrivals| <= |old(arrivals)| && (|arrivals| == |old(arrivals)| ==> history == old(history))
      ensures var b := Below(history, since); page == history[b..if b + limit < |history| then b + limit else |history|]
    {
      if arrivals != [] {
        FlattenFirst(arrivals);
        assert history + Flatten(arrivals) == history + arrivals[0] + Flatten(arrivals[1..]);
        history, arrivals := history + arrivals[0], arrivals[1..];
      }
      var b := 0;
      while b < |history| && history[b].id <= since
        invariant 0 <= b <= |history| && Below(history, since) == b + Below(history[b..], since)
      {
        assert history[b..][1..] == history[b + 1..];
        b := b + 1;
      }
      page := history[b..if b + limit < |history| then b + limit else |history|];
    }
  }

  lemma {:induction false} FlattenFirst(batches: seq<Messages>)
    requires batches != []
    ensures Flatten(batches) == batches[0] + Flatten(batches[1..])
  {
    if |batches| > 1 {
      FlattenFirst(batches[..|batches| - 1]);
      assert batches[1..][..|batches| - 2] == batches[..|batches| - 1][1..];
    }
  }

  lemma FlattenMore(batches: seq<Messages>, batch: Messages)
    ensures Flatten(batches + [batch]) == Flatten(batches) + batch
  {
    assert (batches + [batch])[..|batches|] == batches;
  }

  /**
    What a recovery from the cursor `start` has delivered: the first wanted messages above it, in
    order, with the saved cursor below every one not delivered.
   */
  ghost predicate Progress(p: Policy, whole: Messages, start: nat, delivered: Messages, saved: nat) {
    var due := Filter(p, whole[Below(whole, start)..]);
    && delivered <= due && start <= saved
    && forall x :: |delivered| <= x < |due| ==> saved < due[x].id
  }

  lemma DueSplits(p: Policy, whole: Messages, b: nat, i: nat, j: nat)
    requires b <= i <= j <= |whole|
    ensures Filter(p, whole[b..]) == Filter(p, whole[b..i]) + Filter(p, whole[i..j]) + Filter(p, whole[j..])
  {
    assert whole[b..] == whole[b..i] + whole[i..j] + whole[j..];
    FilterConcat(p, whole[b..i] + whole[i..j], whole[j..]);
    FilterConcat(p, whole[b..i], whole[i..j]);
  }

  lemma FilteredAbove(p: Policy, ms: Messages, low: nat)
    requires forall y :: 0 <= y < |ms| ==> low < ms[y].id
    ensures forall x :: 0 <= x < |Filter(p, ms)| ==> low < Filter(p, ms)[x].id
  {
    FilterMeans(p, ms);
    forall x | 0 <= x < |Filter(p, ms)| ensures low < Filter(p, ms)[x].id {
      assert Filter(p, ms)[x] in Filter(p, ms);
    }
  }

  /** Everything up to `i` is delivered and nothing of the rest: the cursor may be up to the last id before `i`. */
  lemma StandsBetween(p: Policy, whole: Messages, start: nat, i: nat, saved: nat)
    requires Ascending(whole) && Below(whole, start) <= i <= |whole|
    requires start <= saved <= LastBefore(whole, start, i)
    ensures Progress(p, whole, start, Filter(p, whole[Below(whole, start)..i]), saved)
  {
    var b := Below(whole, start);
    RestIsAbove(whole, start, i);
    FilteredAbove(p, whole[i..], saved);
    DueSplits(p, whole, b, i, i);
    assert whole[i..i] == [] && Filter(p, []) == [];
    hide Filter, Below, Ascending, LastBefore;
    assert Filter(p, whole[b..i]) + [] == Filter(p, whole[b..i]);
    RestProgress(Filter(p, whole[b..]), Filter(p, whole[b..i]), Filter(p, whole[i..]), saved);
  }

  lemma RestIsAbove(whole: Messages, start: nat, i: nat)
    requires Ascending(whole) && Below(whole, start) <= i <= |whole|
    ensures forall y :: 0 <= y < |whole[i..]| ==> LastBefore(whole, start, i) < whole[i..][y].id
  {
    BelowSplits(whole, start);
  }

  /** `k` wanted messages of the page from `i` to `j` are delivered too: the cursor may be up to the last of them. */
  lemma StandsInPage(p: Policy, whole: Messages, start: nat, i: nat, j: nat, k: nat, saved: nat)
    requires Ascending(whole) && Below(whole, start) <= i <= j <= |whole| && 0 < k <= |Filter(p, whole[i..j])|
    requires start <= saved <= Filter(p, whole[i..j])[k - 1].id
    ensures Progress(p, whole, start, Filter(p, whole[Below(whole, start)..i]) + Filter(p, whole[i..j])[..k], saved)
  {
    hide Filter, Below, Ascending, Progress;
    var b := Below(whole, start);
    DueSplits(p, whole, b, i, j);
    TailAscends(p, whole, b);
    PrefixProgress(Filter(p, whole[b..]), Filter(p, whole[b..i]), Filter(p, whole[i..j]), Filter(p, whole[j..]), k, saved);
    IsProgress(p, whole, start, Filter(p, whole[b..i]) + Filter(p, whole[i..j])[..k], saved);
  }

  lemma TailAscends(p: Policy, whole: Messages, b: nat)
    requires Ascending(whole) && b <= |whole|
    ensures Ascending(Filter(p, whole[b..]))
  {
    SliceAscends(whole, b, |whole|);
    assert whole[b..] == whole[b..|whole|];
    FilterMeans(p, whole[b..]);
  }

  lemma IsProgress(p: Policy, whole: Messages, start: nat, delivered: Messages, saved: nat)
    requires delivered <= Filter(p, whole[Below(whole, start)..]) && start <= saved
    requires forall x :: |delivered| <= x < |Filter(p, whole[Below(whole, start)..])| ==>
               saved < Filter(p, whole[Below(whole, start)..])[x].id
    ensures Progress(p, whole, start, delivered, saved)
  {
  }

  lemma PrefixProgress(due: Messages, a: Messages, b: Messages, c: Messages, k: nat, saved: nat)
    requires due == a + b + c && Ascending(due) && 0 < k <= |b| && saved <= b[k - 1].id
    ensures a + b[..k] <= due && forall x :: |a| + k <= x < |due| ==> saved < due[x].id
  {
    assert due[|a| + k - 1] == b[k - 1];
  }

  lemma RestProgress(due: Messages, a: Messages, b: Messages, saved: nat)
    requires due == a + b && forall x :: 0 <= x < |b| ==> saved < b[x].id
    ensures a <= due && forall x :: |a| <= x < |due| ==> saved < due[x].id
  {
  }

  /** Turns are only appended, each with at most `limit` messages. */
  predicate Bounded(before: seq<Messages>, after: seq<Messages>, limit: nat) {
    before <= after && forall q :: |before| <= q < |after| ==> |after[q]| <= limit
  }

  function LastBefore(whole: Messages, start: nat, i: nat): nat
    requires i <= |whole|
  {
    if i > Below(whole, start) then whole[i - 1].id else start
  }

  predicate IsPage(whole: Messages, start: nat, i: nat, page: Messages) {
    Below(whole, start) <= i && i + |page| <= |whole| && page == whole[i..i + |page|] && page != []
  }

  /** The page's wanted messages ascend, above what came before and up to the page's last id. */
  lemma PageFacts(p: Policy, whole: Messages, start: nat, i: nat, page: Messages)
    requires Ascending(whole) && IsPage(whole, start, i, page)
    ensures var eligible := Filter(p, page); var base := LastBefore(whole, start, i);
            && Ascending(page) && Ascending(eligible) && base < page[|page| - 1].id
            && forall x :: 0 <= x < |eligible| ==> base < eligible[x].id <= page[|page| - 1].id
  {
    FilterMeans(p, page);
    BelowSplits(whole, start);
    var eligible, base := Filter(p, page), LastBefore(whole, start, i);
    assert forall y :: 0 <= y < |page| ==> page[y] == whole[i + y] && base < page[y].id;
    forall x | 0 <= x < |eligible| ensures base < eligible[x].id <= page[|page| - 1].id {
      assert eligible[x] in eligible;
    }
  }

  /** `delivered` is what the current recovery has written; `earlier` is what was there before. */
  class Listener {
    var saved: nat
    var last: nat
    var turns: seq<Messages>
    ghost var earlier: Messages
    ghost var delivered: Messages

    constructor (cursor: nat)
      ensures saved == last == cursor && turns == [] && Written() == []
    {
      saved, last, turns := cursor, cursor, [];
      earlier, delivered := [], [];
    }

    /** Every message durably written, in order; duplicates are possible after a crash. */
    ghost function Written(): Messages
      reads this
    {
      Flatten(turns)
    }

    ghost predicate Accounted()
      reads this
    {
      Written() == earlier + delivered
    }

    /** `advance_cursor_locked`: persist first, then publish in memory; never backwards. */
    method AdvanceCursor(id: nat)
      modifies `saved, `last
      ensures last == (if id <= old(last) then old(last) else id) && saved == (if id <= old(last) then old(saved) else id)
    {
      if id <= last {
        return;
      }
      saved := id;
      last := id;
    }

    /** `emit`: the batch is durable before the cursor moves; `budget` counts actions before a crash. */
    method Emit(batch: Messages, budget: nat) returns (left: nat, ok: bool)
      requires batch != [] && Ascending(batch) && saved == last && Accounted()
      modifies `turns, `saved, `last, `delivered
      ensures left <= budget && (budget >= 2 ==> ok) && (ok ==> left == budget - 2 && saved == last) && Accounted()
      ensures turns == (if budget == 0 then old(turns) else old(turns) + [batch])
      ensures delivered == (if budget == 0 then old(delivered) else old(delivered) + batch)
      ensures if ok then last == (if batch[|batch| - 1].id > old(last) then batch[|batch| - 1].id else old(last))
              else last == old(last) && saved == old(saved)
    {
      if budget == 0 {
        return 0, false;
      }
      FlattenMore(turns, batch);
      assert earlier + delivered + batch == earlier + (delivered + batch);
      turns, delivered := turns + [batch], delivered + batch;
      if budget == 1 {
        return 0, false;
      }
      var mid := MaxId(batch);
      AdvanceCursor(mid);
      return budget - 2, true;
    }

    /** Everything of `whole` above `start` and before `i` is delivered, and the cursor says so. */
    ghost predicate At(p: Policy, whole: Messages, start: nat, i: nat)
      requires Below(whole, start) <= i <= |whole|
      reads this
    {
      && saved == last && start <= last && last == LastBefore(whole, start, i) && Accounted()
      && delivered == Filter(p, whole[Below(whole, start)..i])
    }

    /** A page's wanted messages, in order, in batches of at most `limit`. */
    method DeliverBatches(policy: Policy, page: Messages, eligible: Messages, limit: nat, budget: nat,
                          ghost whole: Messages, ghost start: nat, ghost i: nat)
      returns (left: nat, ok: bool)
      requires Ascending(whole) && IsPage(whole, start, i, page) && At(policy, whole, start, i)
      requires eligible == Filter(policy, page) && limit >= 1
      modifies `turns, `saved, `last, `delivered
      ensures left <= budget && Progress(policy, whole, start, delivered, saved) && Accounted()
      ensures Bounded(old(turns), turns, limit)
      ensures budget >= 2 * |eligible| ==> ok && left >= budget - 2 * |eligible|
      ensures ok ==> saved == last <= page[|page| - 1].id && start <= last
      ensures ok ==> delivered == old(delivered) + eligible
    {
      hide Filter, Below, Ascending, Flatten, Progress;
      PageFacts(policy, whole, start, i, page);
      StandsBetween(policy, whole, start, i, saved);
      SelfBounded(turns, limit);
      var k := 0;
      left, ok := budget, true;
      ghost var done := Filter(policy, whole[Below(whole, start)..i]);
      assert delivered == done && delivered + eligible[..0] == delivered;
      assert Accounted() && start <= last && saved == last && page == whole[i..i + |page|];
      hide *;
      while k < |eligible|
        invariant 0 <= k <= |eligible| && 0 <= left <= budget && saved == last && start <= last && limit >= 1
        invariant budget >= 2 * |eligible| ==> left >= budget - 2 * k
        invariant last == if k > 0 then eligible[k - 1].id else old(last)
        invariant delivered == done + eligible[..k] && Accounted()
        invariant Progress(policy, whole, start, delivered, saved) && Bounded(old(turns), turns, limit)
      {
        var next := if k + limit < |eligible| then k + limit else |eligible|;
        var batch := eligible[k..next];
        BatchFacts(done, eligible, k, next);
        if left > 0 {
          StandsInPage(policy, whole, start, i, i + |page|, next, saved);
          StandsInPage(policy, whole, start, i, i + |page|, next, eligible[next - 1].id);
        }
        ghost var sofar := turns;
        left, ok := Emit(batch, left);
        AppendBounded(old(turns), sofar, turns, batch, limit);
        if !ok {
          return;
        }
        k := next;
      }
      assert eligible[..k] == eligible;
      ok := true;
    }

    /** One page: its wanted messages, then the page's own watermark. */
    method DeliverPage(policy: Policy, page: Messages, limit: nat, budget: nat,
                       ghost whole: Messages, ghost start: nat, ghost i: nat)
      returns (left: nat, ok: bool)
      requires Ascending(whole) && IsPage(whole, start, i, page) && At(policy, whole, start, i) && limit >= 1
      modifies `turns, `saved, `last, `delivered
      ensures left <= budget && Progress(policy, whole, start, delivered, saved) && Accounted()
      ensures Bounded(old(turns), turns, limit)
      ensures budget >= 2 * |page| + 1 ==> ok && left >= budget - 2 * |page| - 1
      ensures ok ==> At(policy, whole, start, i + |page|)
    {
      hide Filter, Below, Ascending, Flatten, Progress, Bounded;
      ghost var b, j := Below(whole, start), i + |page|;
      PageFacts(policy, whole, start, i, page);
      FilterShrinks(policy, page);
      var eligible := Select(policy, page);
      left, ok := DeliverBatches(policy, page, eligible, limit, budget, whole, start, i);
      if !ok {
        return;
      }
      if left == 0 {
        return 0, false;
      }
      var watermark := MaxId(page);
      AdvanceCursor(watermark);
      PageDone(policy, whole, start, i, page);
      StandsBetween(policy, whole, start, j, saved);
      return left - 1, true;
    }

    /**
      Recovery from the saved cursor. Whatever the moment of a crash, what it delivered is the wanted
      messages above the cursor in order up to some point, and the saved cursor is below every one
      not delivered. Paging ends: given enough actions before a crash it completes, and then it
      delivered every wanted message the server had.
     */
    method Recover(server: RoomServer, policy: Policy, limit: nat, budget: nat) returns (done: bool)
      requires server.Valid() && limit >= 1 && saved == last
      modifies this, server
      ensures server.Valid() && server.Whole() == old(server.Whole())
      ensures Written() == old(Written()) + delivered && Bounded(old(turns), turns, limit)
      ensures Progress(policy, server.Whole(), old(saved), delivered, saved)
      ensures budget >= 4 * |server.Whole()| + 1 ==> done
      ensures done && old(saved) > 0 ==>
                delivered == Filter(policy, server.history[Below(server.history, old(saved))..])
    {
      hide Filter, Below, Ascending, Flatten, Progress, Bounded, IsPage;
      ghost var whole, start := server.Whole(), saved;
      ghost var i := Below(whole, start);
      earlier, delivered := Written(), [];
      assert earlier + [] == earlier && whole[i..i] == [];
      SelfBounded(turns, limit);
      NothingYet(policy, whole, start);
      StandsBetween(policy, whole, start, i, saved);
      if last == 0 {
        return true;
      }
      var left, rest := budget, last;
      while true
        invariant server.Valid() && server.Whole() == whole && 0 <= left <= budget
        invariant i <= |server.history| || i == Below(whole, start)
        invariant Below(whole, start) <= i <= |whole| && At(policy, whole, start, i) && rest == last
        invariant Progress(policy, whole, start, delivered, saved) && Bounded(old(turns), turns, limit)
        invariant earlier == old(Written())
        invariant budget >= 4 * |whole| + 1 ==> left >= 4 * (|whole| - i) + 1
        decreases left
      {
        if left == 0 {
          return false;
        }
        left := left - 1;
        var page := server.Fetch(rest, PAGE_SIZE);
        FetchedPage(whole, server.history, start, i, rest, page);
        WholeStarts(server);
        if page == [] {
          DeliveredAll(policy, whole, server.history, start, i);
          return true;
        }
        var ok;
        ghost var sofar := turns;
        left, ok := DeliverPage(policy, page, limit, left, whole, start, i);
        BoundedChains(old(turns), sofar, turns, limit);
        if !ok {
          return false;
        }
        i := i + |page|;
        rest := last;
        if |page| < PAGE_SIZE {
          DeliveredAll(policy, whole, server.history, start, i);
          return true;
        }
      }
    }
  }

  lemma PageDone(p: Policy, whole: Messages, start: nat, i: nat, page: Messages)
    requires IsPage(whole, start, i, page)
    ensures var b := Below(whole, start);
            && Filter(p, whole[b..i]) + Filter(p, page) == Filter(p, whole[b..i + |page|])
            && LastBefore(whole, start, i + |page|) == page[|page| - 1].id
  {
    assert whole[Below(whole, start)..i + |page|] == whole[Below(whole, start)..i] + page;
    FilterConcat(p, whole[Below(whole, start)..i], page);
  }

  lemma SelfBounded(turns: seq<Messages>, limit: nat)
    ensures Bounded(turns, turns, limit)
  {
  }

  lemma NothingYet(p: Policy, whole: Messages, start: nat)
    ensures var b := Below(whole, start); Filter(p, whole[b..b]) == []
  {
  }

  lemma WholeStarts(server: RoomServer)
    ensures server.history <= server.Whole()
  {
  }

  /** When the server has nothing above the loop's position, everything it had is delivered. */
  lemma DeliveredAll(p: Policy, whole: Messages, history: Messages, start: nat, i: nat)
    requires Ascending(whole) && history <= whole && Below(whole, start) <= i <= |whole|
    requires |history| == i || (|history| < i && i == Below(whole, start))
    ensures Filter(p, history[Below(history, start)..]) == Filter(p, whole[Below(whole, start)..i])
  {
    BelowOfPrefix(whole, history, start);
    assert whole[Below(whole, start)..i] == history[Below(history, start)..];
  }

  lemma BelowOfPrefix(whole: Messages, history: Messages, since: nat)
    requires Ascending(whole) && history <= whole
    ensures Below(history, since) == Min(Below(whole, since), |history|)
  {
    assert Ascending(history);
    BelowSplits(whole, since);
    BelowSplits(history, since);
    var n, i := Below(history, since), Below(whole, since);
    assert n < |history| ==> history[n] == whole[n];
    assert i < |history| ==> history[i] == whole[i];
  }

  /** What a request above the loop's cursor returns is the page at `i`, or nothing at the end of the history. */
  lemma FetchedPage(whole: Messages, history: Messages, start: nat, i: nat, rest: nat, page: Messages)
    requires Ascending(whole) && history <= whole && Below(whole, start) <= i <= |whole| && start <= rest
    requires rest == LastBefore(whole, start, i) && (i <= |history| || i == Below(whole, start))
    requires var b := Below(history, rest); page == history[b..if b + PAGE_SIZE < |history| then b + PAGE_SIZE else |history|]
    ensures page != [] ==> IsPage(whole, start, i, page)
    ensures |page| < PAGE_SIZE ==> i + |page| == |history| || (page == [] && |history| < i)
    ensures page != [] ==> i + |page| <= |history|
  {
    AtCursor(whole, start, i);
    BelowOfPrefix(whole, history, rest);
  }

  lemma AtCursor(whole: Messages, start: nat, i: nat)
    requires Ascending(whole) && Below(whole, start) <= i <= |whole|
    ensures Below(whole, LastBefore(whole, start, i)) == i
  {
    var last := LastBefore(whole, start, i);
    BelowSplits(whole, start);
    BelowSplits(whole, last);
    assert i < |whole| ==> last < whole[i].id;
    assert i > 0 ==> whole[i - 1].id <= last;
    assert Below(whole, last) < |whole| ==> last < whole[Below(whole, last)].id;
  }

  lemma BatchFacts(done: Messages, ms: Messages, k: nat, next: nat)
    requires Ascending(ms) && k < next <= |ms|
    ensures var batch := ms[k..next];
            && Ascending(batch) && batch[|batch| - 1] == ms[next - 1] && (k > 0 ==> ms[k - 1].id < ms[next - 1].id)
            && done + ms[..next] == done + ms[..k] + batch
  {
    assert ms[..next] == ms[..k] + ms[k..next];
  }

  lemma AppendBounded(a: seq<Messages>, b: seq<Messages>, c: seq<Messages>, batch: Messages, limit: nat)
    requires Bounded(a, b, limit) && (c == b || c == b + [batch]) && |batch| <= limit
    ensures Bounded(a, c, limit)
  {
  }

  lemma SliceAscends(ms: Messages, i: nat, j: nat)
    requires Ascending(ms) && i <= j <= |ms|
    ensures Ascending(ms[i..j])
  {
  }

  lemma {:induction false} FilterShrinks(p: Policy, ms: Messages)
    ensures |Filter(p, ms)| <= |ms|
  {
    if ms != [] {
      FilterShrinks(p, ms[..|ms| - 1]);
    }
  }

  lemma BoundedChains(a: seq<Messages>, b: seq<Messages>, c: seq<Messages>, limit: nat)
    requires Bounded(a, b, limit) && Bounded(b, c, limit)
    ensures Bounded(a, c, limit)
  {
  }

  method Select(policy: Policy, page: Messages) returns (eligible: Messages)
    ensures eligible == Filter(policy, page)
  {
    eligible := [];
    for k := 0 to |page|
      invariant eligible == Filter(policy, page[..k])
    {
      assert page[..k + 1][..k] == page[..k];
      if Wanted(policy, page[k]) {
        eligible := eligible + [page[k]];
      }
    }
    assert page[..|page|] == page;
  }

  method MaxId(ms: Messages) returns (id: nat)
    requires ms != [] && Ascending(ms)
    ensures id == ms[|ms| - 1].id
  {
    id := 0;
    for k := 0 to |ms|
      invariant id == if k > 0 then ms[k - 1].id else 0
    {
      id := if ms[k].id > id then ms[k].id else id;
    }
  }

  // ---- Any number of crashes ----

  /** One recovery, complete or cut short: the policy it ran under, what it delivered, and the cursor it left. */
  datatype Attempt = Attempt(policy: Policy, delivered: Messages, saved: nat)

  function SavedAfter(base: nat, attempts: seq<Attempt>): nat {
    if attempts == [] then base else attempts[|attempts| - 1].saved
  }

  /** Each attempt starts from the cursor the one before it left; lead status may change in between. */
  ghost predicate Chained(whole: Messages, base: nat, attempts: seq<Attempt>) {
    attempts == [] ||
    var n := |attempts| - 1;
    && Chained(whole, base, attempts[..n])
    && Progress(attempts[n].policy, whole, SavedAfter(base, attempts[..n]), attempts[n].delivered, attempts[n].saved)
  }

  /** The attempt that moved the cursor past the message delivered it, unless its policy did not want it. */
  ghost predicate Passed(base: nat, attempts: seq<Attempt>, k: nat, m: Message)
    requires k < |attempts|
  {
    && SavedAfter(base, attempts[..k]) < m.id <= attempts[k].saved
    && (Wanted(attempts[k].policy, m) ==> m in attempts[k].delivered)
  }

  /** After any number of crashed recoveries, under whatever policies, every message the cursor has passed was so treated. */
  lemma {:induction false} CursorNeverPassesUndelivered(whole: Messages, base: nat, attempts: seq<Attempt>, m: Message)
    requires Ascending(whole) && Chained(whole, base, attempts)
    requires m in whole && base < m.id <= SavedAfter(base, attempts)
    ensures exists k :: 0 <= k < |attempts| && Passed(base, attempts, k, m)
  {
    var n := |attempts| - 1;
    var start, p := SavedAfter(base, attempts[..n]), attempts[n].policy;
    if m.id <= start {
      CursorNeverPassesUndelivered(whole, base, attempts[..n], m);
      var k :| 0 <= k < n && Passed(base, attempts[..n], k, m);
      assert attempts[..n][..k] == attempts[..k];
      assert Passed(base, attempts, k, m);
    } else {
      if Wanted(p, m) {
        BelowSplits(whole, start);
        var b := Below(whole, start);
        var y :| 0 <= y < |whole| && whole[y] == m;
        assert whole[b..][y - b] == m;
        FilterMeans(p, whole[b..]);
        var due := Filter(p, whole[b..]);
        var x :| 0 <= x < |due| && due[x] == m;
        assert x < |attempts[n].delivered| && attempts[n].delivered[x] == m;
      }
      assert Passed(base, attempts, n, m);
    }
  }
}
