/**
  Runs of the wiki runner (wiki_runtime.py, `WikiRunner`) over its journal, a worker whose outcome may
  be lost and a server that answers each lease once and for all. A crash may come between any two steps.
 */
module WikiPublication {
  import opened Common
  import opened WikiJournals

  datatype Payload = Payload(lease: Lease, review: Review)

  datatype Finish = Finish(id: JobId, payload: Payload)

  /** Where `run_once` stands for a room; a crash or an exception goes back to Resting. */
  datatype Phase =
    | Resting
    | Claiming(room: string)
    | Holding(room: string, lease: Lease)
    | Reading(room: string, lease: Lease, revision: int)
    | Dispatched(room: string, id: JobId)
    | Inferring(room: string, id: JobId)
    | Judged(room: string, id: JobId, review: Review)
    | Publishing(room: string, id: JobId, payload: Payload)
    | Answered(room: string, id: JobId, receipt: int)

  type Receipts = map<(string, Lease), int>

  /**
    The server keeps one receipt per lease. The rest is history: how often the worker ran for a
    job, every finish call, how often each lease advanced the room's revision, the routes of stored
    results, and those offered to their targets.
   */
  datatype World = World(
    journal: Journal, phase: Phase, revisions: map<string, int>, receipts: Receipts,
    runs: multiset<JobId>, finishes: seq<Finish>, advances: multiset<(string, Lease)>,
    wanted: set<(JobId, string)>, offered: set<(JobId, string)>)

  const INITIAL := World(Journal([], map[]), Resting, map[], map[], multiset{}, [], multiset{}, {}, {})

  datatype Event =
    | Crashed
    | Started(room: string)
    | Claimed(lease: Option<Lease>)
    | SnapshotRead(revision: int)
    | Intended(fits: bool)
    | Invoked
    | Returned(review: Option<Review>)
    | Stored
    | FinishCalled(reaches: bool, accepts: bool, changes: bool, answers: bool)
    | ReceiptJudged
    | RouteOffered(id: JobId, target: string)
    | RevisedByOthers(room: string)

  predicate Enabled(w: World, e: Event) {
    match e
    case Crashed => true
    case Started(_) => w.phase.Resting?
    case Claimed(_) => w.phase.Claiming?
    case SnapshotRead(_) => w.phase.Holding?
    case Intended(_) => w.phase.Reading?
    case Invoked => w.phase.Dispatched?
    case Returned(_) => w.phase.Inferring?
    case Stored => w.phase.Judged?
    case FinishCalled(_, _, _, _) => w.phase.Publishing?
    case ReceiptJudged => w.phase.Answered?
    case RouteOffered(id, target) => exists k :: 0 <= k < |w.journal.jobs| && (id, target) in PendingRoutes(w.journal, w.journal.jobs[k].room)
    case RevisedByOthers(_) => true
  }

  /** `publish`: the payload is the lease and the review as journalled. */
  function PublishLatest(j: Journal, room: string): Phase {
    var job := Latest(j.jobs, room);
    if job.Some? && job.value.status.PublicationPending? && job.value.review.Some?
    then Publishing(room, job.value.id, Payload(job.value.lease, job.value.review.value))
    else Resting
  }

  function RouteKeys(id: JobId, routes: seq<Route>): set<(JobId, string)> {
    set k | 0 <= k < |routes| :: (id, routes[k].target)
  }

  function RevisionOf(revisions: map<string, int>, room: string): int {
    if room in revisions then revisions[room] else 0
  }

  function Start(w: World, room: string): World {
    match Latest(w.journal.jobs, room)
    case None => w.(phase := Claiming(room))
    case Some(job) =>
      match job.status
      case PublicationPending => w.(phase := PublishLatest(w.journal, room))
      case DispatchIntent => w.(journal := Block(w.journal, job.id))
      case Blocked => w
      case Accepted => w.(phase := Claiming(room))
  }

  /** The server applies a finish at most once per lease and repeats its receipt. */
  function Serve(w: World, room: string, payload: Payload, changes: bool): World {
    var key := (room, payload.lease);
    if key in w.receipts then w
    else
      var revision := RevisionOf(w.revisions, room) + if changes then 1 else 0;
      w.(revisions := w.revisions[room := revision], receipts := w.receipts[key := revision],
         advances := if changes then w.advances + multiset{key} else w.advances)
  }

  function CallFinish(w: World, reaches: bool, accepts: bool, changes: bool, answers: bool): World
    requires w.phase.Publishing?
  {
    var (room, id, payload) := (w.phase.room, w.phase.id, w.phase.payload);
    var sent := w.(finishes := w.finishes + [Finish(id, payload)]);
    var served := if reaches && ((room, payload.lease) in w.receipts || accepts) then Serve(sent, room, payload, changes) else sent;
    if reaches && answers && (room, payload.lease) in served.receipts
    then served.(phase := Answered(room, id, served.receipts[(room, payload.lease)]))
    else served.(phase := Resting)
  }

  /** `verify_receipt`: the revision the worker saw, or one more. */
  predicate Verified(jobs: Jobs, id: JobId, receipt: int) {
    exists k :: 0 <= k < |jobs| && jobs[k].id == id && jobs[k].snapshotRevision.Some?
      && jobs[k].snapshotRevision.value <= receipt <= jobs[k].snapshotRevision.value + 1
  }

  function Apply(w: World, e: Event): World
    requires Enabled(w, e)
  {
    match e
    case Crashed => w.(phase := Resting)
    case Started(room) => Start(w, room)
    case Claimed(lease) =>
      var latest := Latest(w.journal.jobs, w.phase.room);
      if lease.None? || (latest.Some? && latest.value.lease == lease.value) then w.(phase := Resting)
      else w.(phase := Holding(w.phase.room, lease.value))
    case SnapshotRead(revision) => w.(phase := Reading(w.phase.room, w.phase.lease, revision))
    case Intended(fits) =>
      var id := NextId(w.journal.jobs);
      if AllowsIntent(w.journal, w.phase.room, w.phase.lease, fits)
      then w.(journal := Intend(w.journal, w.phase.room, w.phase.lease, w.phase.revision, fits), phase := Dispatched(w.phase.room, id))
      else w.(phase := Resting)
    case Invoked => w.(runs := w.runs + multiset{w.phase.id}, phase := Inferring(w.phase.room, w.phase.id))
    case Returned(None) => w.(journal := Block(w.journal, w.phase.id), phase := Resting)
    case Returned(Some(review)) => w.(phase := Judged(w.phase.room, w.phase.id, review))
    case Stored =>
      if AllowsResult(w.journal, w.phase.id, w.phase.review)
      then
        var journal := StoreResult(w.journal, w.phase.id, w.phase.review);
        w.(journal := journal, phase := PublishLatest(journal, w.phase.room), wanted := w.wanted + RouteKeys(w.phase.id, w.phase.review.routes))
      else w.(phase := Resting)
    case FinishCalled(reaches, accepts, changes, answers) => CallFinish(w, reaches, accepts, changes, answers)
    case ReceiptJudged =>
      if Verified(w.journal.jobs, w.phase.id, w.phase.receipt)
      then w.(journal := RecordReceipt(w.journal, w.phase.id, w.phase.receipt), phase := Resting)
      else w.(phase := Resting)
    case RouteOffered(id, target) => w.(journal := Routed(w.journal, id, target), offered := w.offered + {(id, target)})
    case RevisedByOthers(room) => w.(revisions := w.revisions[room := RevisionOf(w.revisions, room) + 1])
  }

  // ---- What every reachable world satisfies ----

  predicate Ascending(jobs: Jobs) {
    && (forall k :: 0 <= k < |jobs| ==> 1 <= jobs[k].id)
    && (forall i, k :: 0 <= i < k < |jobs| ==> jobs[i].id < jobs[k].id)
  }

  /** Within a room every job but the newest is accepted. */
  predicate NewestOnly(jobs: Jobs) {
    forall a, b :: a in jobs && b in jobs && a.room == b.room && a.id < b.id ==> a.status.Accepted?
  }

  /** The review exists only between worker and receipt; what the worker saw and wrote is forgotten with the receipt. */
  predicate RowOk(a: Job) {
    && (a.review.Some? <==> a.status.PublicationPending?)
    && (a.snapshotRevision.None? <==> a.status.Accepted?) && (a.receipt.Some? <==> a.status.Accepted?)
  }

  predicate RowsOk(jobs: Jobs) {
    forall a :: a in jobs ==> RowOk(a)
  }

  /** All finish calls of a job carry one payload, the journalled one while it is still pending. */
  predicate FinishesOk(jobs: Jobs, finishes: seq<Finish>) {
    && (forall f :: f in finishes ==> 1 <= f.id < NextId(jobs))
    && (forall f, g :: f in finishes && g in finishes && f.id == g.id ==> f.payload == g.payload)
    && (forall f, a :: f in finishes && a in jobs && a.id == f.id && !a.status.Accepted? ==> PendingAs(a, f.payload))
  }

  predicate PendingAs(a: Job, p: Payload) {
    a.status.PublicationPending? && a.lease == p.lease && a.review == Some(p.review)
  }

  ghost predicate RunsOk(jobs: Jobs, runs: multiset<JobId>) {
    forall id :: runs[id] <= 1 && (runs[id] > 0 ==> 1 <= id < NextId(jobs))
  }

  predicate ReceiptsOk(jobs: Jobs, receipts: Receipts) {
    forall a :: a in jobs && a.status.Accepted? ==> (a.room, a.lease) in receipts && a.receipt == Some(receipts[(a.room, a.lease)])
  }

  ghost predicate AdvancesOk(receipts: Receipts, advances: multiset<(string, Lease)>) {
    forall key :: advances[key] <= 1 && (advances[key] > 0 ==> key in receipts)
  }

  /** Some unfinished job of the room has this id and status. */
  predicate Open(jobs: Jobs, room: string, id: JobId, status: Status) {
    exists a :: a in jobs && a.room == room && a.id == id && a.status == status
  }

  ghost predicate PhaseOk(w: World) {
    var jobs := w.journal.jobs;
    match w.phase
    case Resting => true
    case Claiming(room) => true
    case Holding(room, _) => true
    case Reading(room, _, _) => true
    case Dispatched(room, id) => Open(jobs, room, id, DispatchIntent) && w.runs[id] == 0
    case Inferring(room, id) => Open(jobs, room, id, DispatchIntent)
    case Judged(room, id, _) => Open(jobs, room, id, DispatchIntent)
    case Publishing(room, id, payload) => exists a :: a in jobs && a.room == room && a.id == id && PendingAs(a, payload)
    case Answered(room, id, receipt) =>
      exists a :: a in jobs && a.room == room && a.id == id && a.status.PublicationPending?
                  && (room, a.lease) in w.receipts && w.receipts[(room, a.lease)] == receipt
  }

  ghost predicate Good(w: World) {
    && Ascending(w.journal.jobs) && NewestOnly(w.journal.jobs) && RowsOk(w.journal.jobs)
    && FinishesOk(w.journal.jobs, w.finishes) && RunsOk(w.journal.jobs, w.runs)
    && ReceiptsOk(w.journal.jobs, w.receipts) && AdvancesOk(w.receipts, w.advances)
    && PhaseOk(w)
  }

  // ---- Rows ----

  lemma SameIdSameRow(jobs: Jobs, a: Job, b: Job)
    requires Ascending(jobs) && a in jobs && b in jobs && a.id == b.id
    ensures a == b
  {
  }

  lemma IdsBelowNext(jobs: Jobs, a: Job)
    requires Ascending(jobs) && a in jobs
    ensures 1 <= a.id < NextId(jobs)
  {
  }

  lemma {:induction false} LatestMeans(jobs: Jobs, room: string)
    requires Ascending(jobs)
    ensures Latest(jobs, room).None? ==> forall a :: a in jobs ==> a.room != room
    ensures Latest(jobs, room).Some? ==>
              var j := Latest(jobs, room).value;
              j in jobs && j.room == room && forall a :: a in jobs && a.room == room ==> a.id <= j.id
  {
    if jobs != [] {
      var n := |jobs| - 1;
      LatestMeans(jobs[..n], room);
      assert jobs == jobs[..n] + [jobs[n]];
    }
  }

  /** Rows are replaced one for one; ids and rooms stay, accepted rows stay as they are. */
  predicate Replaced(before: Jobs, after: Jobs) {
    |after| == |before| &&
    forall k :: 0 <= k < |before| ==>
      && after[k].id == before[k].id && after[k].room == before[k].room
      && (before[k].status.Accepted? ==> after[k] == before[k])
  }

  lemma ReplacedKeeps(before: Jobs, after: Jobs)
    requires Ascending(before) && NewestOnly(before) && Replaced(before, after)
    ensures Ascending(after) && NewestOnly(after) && NextId(after) == NextId(before)
  {
    forall a, b | a in after && b in after && a.room == b.room && a.id < b.id ensures a.status.Accepted? {
      var i :| 0 <= i < |after| && after[i] == a;
      var k :| 0 <= k < |after| && after[k] == b;
      assert before[i] in before && before[k] in before;
    }
  }

  lemma {:induction false} PrunedMeans(jobs: Jobs, routed: set<JobId>, newer: nat)
    requires Ascending(jobs)
    ensures var kept := Pruned(jobs, routed, newer);
            && Ascending(kept) && (forall a :: a in kept ==> a in jobs)
            && (forall a :: a in jobs && !a.status.Accepted? ==> a in kept)
            && (newer < MAX_ACCEPTED ==> NextId(kept) == NextId(jobs))
  {
    if jobs != [] {
      var n := |jobs| - 1;
      var before, last := jobs[..n], jobs[n];
      assert jobs == before + [last];
      var more := if last.status.Accepted? then newer + 1 else newer;
      PrunedMeans(before, routed, more);
      var kept := Pruned(before, routed, more);
      forall k | 0 <= k < |kept| ensures kept[k].id < last.id {
        assert kept[k] in before;
      }
    }
  }

  /** The accepted jobs newer than this id. */
  function AcceptedAbove(jobs: Jobs, id: JobId): set<JobId> {
    set a | a in jobs && a.status.Accepted? && a.id > id :: a.id
  }

  /** An accepted job stays exactly while fewer than 128 newer ones are accepted, or while it has routes to deliver. */
  lemma {:induction false} PrunedKeeps(jobs: Jobs, routed: set<JobId>, newer: nat)
    requires Ascending(jobs)
    ensures forall a :: a in Pruned(jobs, routed, newer) <==>
              a in jobs && (!a.status.Accepted? || a.id in routed || newer + |AcceptedAbove(jobs, a.id)| < 128)
  {
    if jobs != [] {
      var n := |jobs| - 1;
      var before, last := jobs[..n], jobs[n];
      assert jobs == before + [last];
      PrunedKeeps(before, routed, if last.status.Accepted? then newer + 1 else newer);
      forall a | a in before ensures a.id < last.id {
        var k :| 0 <= k < n && jobs[k] == a;
      }
      AboveLast(before, last);
      hide AcceptedAbove, Ascending;
    }
  }

  lemma AboveLast(before: Jobs, last: Job)
    requires forall a :: a in before ==> a.id < last.id
    ensures AcceptedAbove(before + [last], last.id) == {}
    ensures forall a :: a in before ==>
              |AcceptedAbove(before + [last], a.id)| == |AcceptedAbove(before, a.id)| + if last.status.Accepted? then 1 else 0
  {
    hide AcceptedAbove;
    OneAbove(before, last, last.id);
    NoneAbove(before, last.id);
    forall a | a in before
      ensures |AcceptedAbove(before + [last], a.id)| == |AcceptedAbove(before, a.id)| + if last.status.Accepted? then 1 else 0
    {
      OneAbove(before, last, a.id);
    }
  }

  lemma NoneAbove(jobs: Jobs, id: JobId)
    requires forall a :: a in jobs ==> a.id < id
    ensures AcceptedAbove(jobs, id) == {}
  {
  }

  lemma OneAbove(before: Jobs, last: Job, id: JobId)
    requires forall a :: a in before ==> a.id < last.id
    ensures AcceptedAbove(before + [last], id) == AcceptedAbove(before, id) + (if last.status.Accepted? && id < last.id then {last.id} else {})
    ensures |AcceptedAbove(before + [last], id)| == |AcceptedAbove(before, id)| + if last.status.Accepted? && id < last.id then 1 else 0
  {
    var more := AcceptedAbove(before, id) + (if last.status.Accepted? && id < last.id then {last.id} else {});
    forall n ensures n in AcceptedAbove(before + [last], id) <==> n in more {
      if n in more {
        if n in AcceptedAbove(before, id) {
          var a :| a in before && a.status.Accepted? && a.id > id && a.id == n;
          assert a in before + [last];
        } else {
          assert last in before + [last];
        }
      }
    }
    assert AcceptedAbove(before + [last], id) == more;
    assert last.id !in AcceptedAbove(before, id);
  }

  // ---- One row at a time ----

  /** `after` is `before` with row `p` replaced by `q`. */
  ghost predicate Swapped(before: Jobs, after: Jobs, p: Job, q: Job) {
    && p in before && q.id == p.id && q.room == p.room && !p.status.Accepted?
    && |after| == |before| && forall k :: 0 <= k < |before| ==> after[k] == if before[k].id == p.id then q else before[k]
  }

  lemma SwappedRows(before: Jobs, after: Jobs, p: Job, q: Job)
    requires Ascending(before) && NewestOnly(before) && Swapped(before, after, p, q)
    ensures Ascending(after) && NewestOnly(after) && NextId(after) == NextId(before)
    ensures forall a :: a in after <==> a == q || (a in before && a.id != p.id)
  {
    forall k | 0 <= k < |before| && before[k].id == p.id ensures before[k] == p {
      SameIdSameRow(before, before[k], p);
    }
    ReplacedKeeps(before, after);
  }

  ghost predicate Only(before: Jobs, after: Jobs, q: Job) {
    NextId(after) == NextId(before) && forall a :: a in after ==> a == q || (a in before && a.id != q.id)
  }

  lemma FinishesKeep(before: Jobs, after: Jobs, finishes: seq<Finish>, p: Job, q: Job)
    requires FinishesOk(before, finishes) && p in before && p.id == q.id && Only(before, after, q)
    requires q.status.Accepted? || p.status.DispatchIntent?
    ensures FinishesOk(after, finishes)
  {
    forall f | f in finishes && f.id == p.id ensures !p.status.DispatchIntent? {
      assert p.status.Accepted? || PendingAs(p, f.payload);
    }
  }

  lemma ReceiptsKeep(before: Jobs, after: Jobs, receipts: Receipts, q: Job)
    requires ReceiptsOk(before, receipts) && Only(before, after, q)
    requires q.status.Accepted? ==> (q.room, q.lease) in receipts && q.receipt == Some(receipts[(q.room, q.lease)])
    ensures ReceiptsOk(after, receipts)
  {
  }

  /** Replacing an unfinished row keeps everything but, perhaps, the phase. */
  lemma SwapKeeps(w: World, jobs: Jobs, routes: Routes, p: Job, q: Job, phase: Phase)
    requires Good(w) && Swapped(w.journal.jobs, jobs, p, q)
    requires q.status.Accepted? || p.status.DispatchIntent?
    requires q.status.Accepted? ==> (q.room, q.lease) in w.receipts && q.receipt == Some(w.receipts[(q.room, q.lease)])
    requires RowOk(q)
    requires PhaseOk(w.(journal := Journal(jobs, routes), phase := phase))
    ensures Good(w.(journal := Journal(jobs, routes), phase := phase))
  {
    SwappedRows(w.journal.jobs, jobs, p, q);
    hide PhaseOk, Ascending, NewestOnly, AdvancesOk;
    FinishesKeep(w.journal.jobs, jobs, w.finishes, p, q);
    ReceiptsKeep(w.journal.jobs, jobs, w.receipts, q);
    hide FinishesOk, ReceiptsOk;
  }

  // ---- Each step ----

  /** The one row with this id. */
  lemma TheRow(jobs: Jobs, p: Job)
    requires Ascending(jobs) && p in jobs
    ensures forall k :: 0 <= k < |jobs| && jobs[k].id == p.id ==> jobs[k] == p
  {
    forall k | 0 <= k < |jobs| && jobs[k].id == p.id ensures jobs[k] == p {
      SameIdSameRow(jobs, jobs[k], p);
    }
  }

  lemma BlockKeeps(w: World, id: JobId, room: string)
    requires Good(w) && Open(w.journal.jobs, room, id, DispatchIntent)
    ensures Good(w.(journal := Block(w.journal, id), phase := Resting))
  {
    var jobs := w.journal.jobs;
    var p :| p in jobs && p.id == id && p.status.DispatchIntent?;
    TheRow(jobs, p);
    SwapKeeps(w, Block(w.journal, id).jobs, w.journal.routes, p, WithBlock(p, id), Resting);
    hide Good;
  }

  lemma StartKeeps(w: World, room: string)
    requires Good(w) && w.phase.Resting?
    ensures Good(Start(w, room))
  {
    LatestMeans(w.journal.jobs, room);
    match Latest(w.journal.jobs, room) {
      case None =>
      case Some(job) =>
        if job.status.DispatchIntent? {
          assert Open(w.journal.jobs, room, job.id, DispatchIntent);
          BlockKeeps(w, job.id, room);
          assert w.(journal := Block(w.journal, job.id), phase := Resting) == w.(journal := Block(w.journal, job.id));
        }
    }
  }

  lemma IntentKeeps(w: World, fits: bool)
    requires Good(w) && w.phase.Reading? && AllowsIntent(w.journal, w.phase.room, w.phase.lease, fits)
    ensures Good(w.(journal := Intend(w.journal, w.phase.room, w.phase.lease, w.phase.revision, fits),
                    phase := Dispatched(w.phase.room, NextId(w.journal.jobs))))
  {
    var jobs, room := w.journal.jobs, w.phase.room;
    var job := NewJob(w.journal, room, w.phase.lease, w.phase.revision);
    var after := jobs + [job];
    forall a | a in jobs && a.room == room ensures a.status.Accepted? {
      var k :| 0 <= k < |jobs| && jobs[k] == a;
    }
    AppendRow(jobs, job);
    hide Ascending, NewestOnly, Conflicts;
    assert forall a :: a in after <==> a in jobs || a == job;
    assert job in after && Open(after, room, job.id, DispatchIntent);
    assert FinishesOk(after, w.finishes) && RunsOk(after, w.runs) && ReceiptsOk(after, w.receipts) && RowsOk(after);
    hide FinishesOk, RunsOk, ReceiptsOk, RowsOk;
  }

  lemma AppendRow(jobs: Jobs, job: Job)
    requires Ascending(jobs) && NewestOnly(jobs) && job.id == NextId(jobs)
    requires forall a :: a in jobs && a.room == job.room ==> a.status.Accepted?
    ensures Ascending(jobs + [job]) && NewestOnly(jobs + [job]) && NextId(jobs + [job]) == job.id + 1
  {
    forall a | a in jobs ensures a.id < job.id {
      IdsBelowNext(jobs, a);
    }
  }

  lemma ReviewedSwaps(jobs: Jobs, p: Job, review: Review)
    requires Ascending(jobs) && p in jobs && p.status.DispatchIntent?
    ensures Swapped(jobs, Reviewed(jobs, p.id, review), p, WithReview(p, p.id, review))
  {
    TheRow(jobs, p);
  }

  lemma StoredKeeps(w: World)
    requires Good(w) && w.phase.Judged? && AllowsResult(w.journal, w.phase.id, w.phase.review)
    ensures var journal := StoreResult(w.journal, w.phase.id, w.phase.review);
            Good(w.(journal := journal, phase := PublishLatest(journal, w.phase.room)))
  {
    var jobs, id, room, review := w.journal.jobs, w.phase.id, w.phase.room, w.phase.review;
    var p :| p in jobs && p.room == room && p.id == id && p.status.DispatchIntent?;
    assert Ascending(jobs) && p.snapshotRevision.Some?;
    ReviewedSwaps(jobs, p, review);
    hide Good, Ascending, Swapped, Reviewed, AllowsResult;
    var journal, q := StoreResult(w.journal, id, review), WithReview(p, id, review);
    var phase := PublishLatest(journal, room);
    PublishingIsPending(journal.jobs, journal.routes, room);
    SwapKeeps(w, journal.jobs, journal.routes, p, q, phase);
    assert journal == Journal(journal.jobs, journal.routes);
  }

  /** `publish` takes a pending row of the room exactly as journalled. */
  lemma PublishingIsPending(jobs: Jobs, routes: Routes, room: string)
    ensures var phase := PublishLatest(Journal(jobs, routes), room);
            phase == Resting || (phase.Publishing? && exists a :: a in jobs && a.room == phase.room && a.id == phase.id && PendingAs(a, phase.payload))
  {
    LatestIsRow(jobs, room);
  }

  lemma {:induction false} LatestIsRow(jobs: Jobs, room: string)
    ensures Latest(jobs, room).Some? ==> Latest(jobs, room).value in jobs && Latest(jobs, room).value.room == room
  {
    if jobs != [] {
      LatestIsRow(jobs[..|jobs| - 1], room);
    }
  }

  lemma CallFinishKeeps(w: World, reaches: bool, accepts: bool, changes: bool, answers: bool)
    requires Good(w) && w.phase.Publishing?
    ensures Good(CallFinish(w, reaches, accepts, changes, answers))
  {
    var jobs, id, payload := w.journal.jobs, w.phase.id, w.phase.payload;
    var v := CallFinish(w, reaches, accepts, changes, answers);
    var pending :| pending in jobs && pending.room == w.phase.room && pending.id == id && PendingAs(pending, payload);
    IdsBelowNext(jobs, pending);
    FinishAdded(jobs, w.finishes, pending, payload);
    hide FinishesOk, Ascending, NewestOnly, RowsOk, RunsOk;
    ServeKeeps(w.(finishes := w.finishes + [Finish(id, payload)]), w.phase.room, payload, changes);
  }

  /** A receipt, once given, stays; serving a lease again changes nothing. */
  lemma ServeKeeps(w: World, room: string, payload: Payload, changes: bool)
    requires AdvancesOk(w.receipts, w.advances) && ReceiptsOk(w.journal.jobs, w.receipts)
    ensures var v := Serve(w, room, payload, changes);
            && AdvancesOk(v.receipts, v.advances) && ReceiptsOk(v.journal.jobs, v.receipts)
            && v == w.(revisions := v.revisions, receipts := v.receipts, advances := v.advances)
  {
  }

  lemma FinishAdded(jobs: Jobs, finishes: seq<Finish>, pending: Job, payload: Payload)
    requires Ascending(jobs) && FinishesOk(jobs, finishes) && pending in jobs && PendingAs(pending, payload)
    ensures FinishesOk(jobs, finishes + [Finish(pending.id, payload)])
  {
    IdsBelowNext(jobs, pending);
    var more := finishes + [Finish(pending.id, payload)];
    assert forall f :: f in more <==> f in finishes || f == Finish(pending.id, payload);
    forall f | f in more && f.id == pending.id ensures f.payload == payload {
      if f in finishes {
        assert PendingAs(pending, f.payload);
      }
    }
    forall a | a in jobs && a.id == pending.id ensures a == pending {
      SameIdSameRow(jobs, a, pending);
    }
  }

  lemma ReceiptKeeps(w: World)
    requires Good(w) && w.phase.Answered? && HasJob(w.journal.jobs, w.phase.id, PublicationPending)
    ensures Good(w.(journal := RecordReceipt(w.journal, w.phase.id, w.phase.receipt), phase := Resting))
  {
    var jobs, id, receipt := w.journal.jobs, w.phase.id, w.phase.receipt;
    var p :| p in jobs && p.room == w.phase.room && p.id == id && p.status.PublicationPending?
             && (p.room, p.lease) in w.receipts && w.receipts[(p.room, p.lease)] == receipt;
    assert Ascending(jobs);
    TheRow(jobs, p);
    hide Good, Ascending;
    var marked, q := Receipted(jobs, id, receipt), WithReceipt(p, id, receipt);
    assert Swapped(jobs, marked, p, q);
    SwapKeeps(w, marked, w.journal.routes, p, q, Resting);
    PruneKeeps(w.(journal := Journal(marked, w.journal.routes), phase := Resting));
  }

  /**
    A receipt is taken exactly when it is the revision the worker saw or the next one. Then the job is accepted
    with it and forgets what the worker saw and wrote; otherwise the journal stays as it is.
   */
  lemma ReceiptIsJudged(w: World) returns (p: Job)
    requires Good(w) && w.phase.Answered?
    ensures p in w.journal.jobs && p.id == w.phase.id && p.room == w.phase.room && p.status.PublicationPending? && p.snapshotRevision.Some?
    ensures var v, q := Apply(w, ReceiptJudged), p.(status := Accepted, receipt := Some(w.phase.receipt), review := None, snapshotRevision := None);
            && v.phase == Resting && v.journal.routes == w.journal.routes
            && if w.phase.receipt == p.snapshotRevision.value || w.phase.receipt == p.snapshotRevision.value + 1
               then && (forall a :: a in v.journal.jobs ==> a == q || (a in w.journal.jobs && a.id != p.id))
                    && (forall a :: a in w.journal.jobs && a.id != p.id && !a.status.Accepted? ==> a in v.journal.jobs)
                    && (q in v.journal.jobs <==> p.id in RoutedIds(w.journal.routes) || |AcceptedAbove(w.journal.jobs, p.id)| < 128)
               else v.journal == w.journal
  {
    var jobs, id, receipt := w.journal.jobs, w.phase.id, w.phase.receipt;
    p :| p in jobs && p.room == w.phase.room && p.id == id && p.status.PublicationPending?
         && (p.room, p.lease) in w.receipts && w.receipts[(p.room, p.lease)] == receipt;
    assert RowOk(p) && Ascending(jobs) && NewestOnly(jobs);
    hide Good;
    assert HasJob(jobs, id, PublicationPending) by {
      var k :| 0 <= k < |jobs| && jobs[k] == p;
    }
    assert Verified(jobs, id, receipt) <==> receipt == p.snapshotRevision.value || receipt == p.snapshotRevision.value + 1 by {
      TheRow(jobs, p);
    }
    ReceiptRow(w.journal, p, receipt);
    hide Verified, HasJob, RecordReceipt, AcceptedAbove, Ascending, NewestOnly, RoutedIds;
  }

  /** Recording a receipt: the row is accepted and forgets, and of the accepted ones the newest stay. */
  lemma ReceiptRow(j: Journal, p: Job, receipt: int)
    requires Ascending(j.jobs) && NewestOnly(j.jobs) && p in j.jobs && p.status.PublicationPending? && HasJob(j.jobs, p.id, PublicationPending)
    ensures var v, q := RecordReceipt(j, p.id, receipt), p.(status := Accepted, receipt := Some(receipt), review := None, snapshotRevision := None);
            && v.routes == j.routes
            && (forall a :: a in v.jobs ==> a == q || (a in j.jobs && a.id != p.id))
            && (forall a :: a in j.jobs && a.id != p.id && !a.status.Accepted? ==> a in v.jobs)
            && (q in v.jobs <==> p.id in RoutedIds(j.routes) || |AcceptedAbove(j.jobs, p.id)| < 128)
  {
    TheRow(j.jobs, p);
    var marked, q := Receipted(j.jobs, p.id, receipt), WithReceipt(p, p.id, receipt);
    assert Swapped(j.jobs, marked, p, q);
    SwappedRows(j.jobs, marked, p, q);
    PrunedKeeps(marked, RoutedIds(j.routes), 0);
    SameAbove(j.jobs, marked, p, q);
    hide AcceptedAbove, Ascending, NewestOnly, Swapped, Pruned, Receipted, HasJob;
  }

  lemma SameAbove(jobs: Jobs, marked: Jobs, p: Job, q: Job)
    requires forall a :: a in marked <==> a == q || (a in jobs && a.id != p.id)
    requires q.id == p.id
    ensures AcceptedAbove(marked, p.id) == AcceptedAbove(jobs, p.id)
  {
  }

  lemma PruneKeeps(w: World)
    requires Good(w) && w.phase.Resting?
    ensures Good(w.(journal := w.journal.(jobs := Pruned(w.journal.jobs, RoutedIds(w.journal.routes), 0))))
  {
    PrunedMeans(w.journal.jobs, RoutedIds(w.journal.routes), 0);
  }

  lemma StepKeepsGood(w: World, e: Event)
    requires Good(w) && Enabled(w, e)
    ensures Good(Apply(w, e))
  {
    match e {
      case Crashed =>
      case Started(room) => StartKeeps(w, room);
      case Claimed(_) =>
      case SnapshotRead(_) =>
      case Intended(fits) =>
        if AllowsIntent(w.journal, w.phase.room, w.phase.lease, fits) {
          IntentKeeps(w, fits);
        }
      case Invoked => InvokedKeeps(w);
      case Returned(None) => BlockKeeps(w, w.phase.id, w.phase.room);
      case Returned(Some(_)) =>
      case Stored =>
        if AllowsResult(w.journal, w.phase.id, w.phase.review) {
          StoredKeeps(w);
        }
      case FinishCalled(reaches, accepts, changes, answers) => CallFinishKeeps(w, reaches, accepts, changes, answers);
      case ReceiptJudged =>
        if Verified(w.journal.jobs, w.phase.id, w.phase.receipt) && HasJob(w.journal.jobs, w.phase.id, PublicationPending) {
          ReceiptKeeps(w);
        }
      case RouteOffered(_, _) =>
      case RevisedByOthers(_) =>
    }
  }

  lemma InvokedKeeps(w: World)
    requires Good(w) && w.phase.Dispatched?
    ensures Good(Apply(w, Invoked))
  {
    var open :| open in w.journal.jobs && open.id == w.phase.id;
    IdsBelowNext(w.journal.jobs, open);
  }

  // ---- All runs ----

  predicate Legal(run: seq<Event>)
    decreases |run|, 0
  {
    run == [] || (Legal(run[..|run| - 1]) && Enabled(After(run[..|run| - 1]), run[|run| - 1]))
  }

  function After(run: seq<Event>): World
    requires Legal(run)
    decreases |run|, 1
  {
    if run == [] then INITIAL else Apply(After(run[..|run| - 1]), run[|run| - 1])
  }

  lemma {:induction false} ReachableIsGood(run: seq<Event>)
    requires Legal(run)
    ensures Good(After(run))
  {
    if run != [] {
      ReachableIsGood(run[..|run| - 1]);
      StepKeepsGood(After(run[..|run| - 1]), run[|run| - 1]);
    }
  }

  /** With crashes at any step, the worker runs at most once for a journalled job. */
  lemma WorkerRunsAtMostOnce(run: seq<Event>, id: JobId)
    requires Legal(run)
    ensures After(run).runs[id] <= 1
  {
    ReachableIsGood(run);
  }

  /** Every finish call for a job carries the identical lease and review. */
  lemma FinishCallsAreIdentical(run: seq<Event>, f: Finish, g: Finish)
    requires Legal(run) && f in After(run).finishes && g in After(run).finishes && f.id == g.id
    ensures f.payload == g.payload
  {
    ReachableIsGood(run);
  }

  /** Only a room's newest job can be unfinished, so a room has at most one. */
  lemma OnlyNewestIsUnfinished(run: seq<Event>, a: Job, b: Job)
    requires Legal(run) && a in After(run).journal.jobs && b in After(run).journal.jobs
    requires a.room == b.room && !a.status.Accepted?
    ensures b.id <= a.id && (!b.status.Accepted? ==> b == a)
  {
    ReachableIsGood(run);
    if !b.status.Accepted? {
      SameRoomUnfinished(After(run).journal.jobs, a, b);
    }
  }

  lemma SameRoomUnfinished(jobs: Jobs, a: Job, b: Job)
    requires Ascending(jobs) && NewestOnly(jobs) && a in jobs && b in jobs && a.room == b.room
    requires !a.status.Accepted? && !b.status.Accepted?
    ensures a == b
  {
    SameIdSameRow(jobs, a, if a.id == b.id then b else a);
  }

  /** A lease advances the room's revision at most once, and an accepted job holds the server's receipt. */
  lemma RevisionAdvancesOncePerLease(run: seq<Event>, room: string, lease: Lease)
    requires Legal(run)
    ensures var w := After(run);
            && w.advances[(room, lease)] <= 1
            && forall a :: a in w.journal.jobs && a.room == room && a.lease == lease && a.status.Accepted? ==>
                 (room, lease) in w.receipts && a.receipt == Some(w.receipts[(room, lease)])
  {
    ReachableIsGood(run);
  }

  // ---- A blocked room ----

  /** The room's latest job is blocked. */
  predicate BlockedAt(jobs: Jobs, room: string, job: Job) {
    Latest(jobs, room) == Some(job) && job.status.Blocked?
  }

  /** Rows keep their ids and rooms, and a blocked row is not touched. */
  predicate SparesBlocked(before: Jobs, after: Jobs) {
    |after| == |before| &&
    forall k :: 0 <= k < |before| ==>
      && after[k].id == before[k].id && after[k].room == before[k].room
      && (before[k].status.Blocked? ==> after[k] == before[k])
  }

  lemma {:induction false} SparedStaysLatest(before: Jobs, after: Jobs, room: string, job: Job)
    requires BlockedAt(before, room, job) && SparesBlocked(before, after)
    ensures BlockedAt(after, room, job)
  {
    var n := |before| - 1;
    if before[n].room != room {
      SparedStaysLatest(before[..n], after[..n], room, job);
    }
  }

  lemma {:induction false} PrunedStaysLatest(jobs: Jobs, routed: set<JobId>, newer: nat, room: string, job: Job)
    requires BlockedAt(jobs, room, job)
    ensures BlockedAt(Pruned(jobs, routed, newer), room, job)
  {
    var n := |jobs| - 1;
    var last, before := jobs[n], jobs[..n];
    var more := if last.status.Accepted? then newer + 1 else newer;
    var kept := Pruned(before, routed, more);
    assert (kept + [last])[..|kept|] == kept && (kept + [last])[|kept|] == last && kept + [] == kept;
    if last.room != room {
      PrunedStaysLatest(before, routed, more, room, job);
    }
  }

  lemma OtherRoomStaysLatest(jobs: Jobs, more: Job, room: string, job: Job)
    requires BlockedAt(jobs, room, job) && more.room != room
    ensures BlockedAt(jobs + [more], room, job)
  {
    assert (jobs + [more])[..|jobs|] == jobs;
  }

  lemma UpdatesSpare(j: Journal, id: JobId, review: Review, receipt: int)
    ensures SparesBlocked(j.jobs, Block(j, id).jobs)
    ensures SparesBlocked(j.jobs, Reviewed(j.jobs, id, review))
    ensures SparesBlocked(j.jobs, Receipted(j.jobs, id, receipt))
    ensures SparesBlocked(j.jobs, j.jobs)
  {
  }

  lemma BlockStays(j: Journal, id: JobId, room: string, job: Job)
    requires BlockedAt(j.jobs, room, job)
    ensures BlockedAt(Block(j, id).jobs, room, job)
  {
    UpdatesSpare(j, id, Review(0, 0, "", [], []), 0);
    SparedStaysLatest(j.jobs, Block(j, id).jobs, room, job);
  }

  lemma ResultStays(j: Journal, id: JobId, review: Review, room: string, job: Job)
    requires BlockedAt(j.jobs, room, job)
    ensures BlockedAt(StoreResult(j, id, review).jobs, room, job)
  {
    UpdatesSpare(j, id, review, 0);
    SparedStaysLatest(j.jobs, Reviewed(j.jobs, id, review), room, job);
    hide Latest, Reviewed, SparesBlocked;
  }

  lemma ReceiptStays(j: Journal, id: JobId, receipt: int, room: string, job: Job)
    requires BlockedAt(j.jobs, room, job)
    ensures BlockedAt(RecordReceipt(j, id, receipt).jobs, room, job)
  {
    UpdatesSpare(j, id, Review(0, 0, "", [], []), receipt);
    var marked := Receipted(j.jobs, id, receipt);
    SparedStaysLatest(j.jobs, marked, room, job);
    PrunedStaysLatest(marked, RoutedIds(j.routes), 0, room, job);
    hide Latest, Receipted, SparesBlocked, Pruned, RoutedIds;
  }

  lemma StartStays(w: World, started: string, room: string, job: Job)
    requires BlockedAt(w.journal.jobs, room, job)
    ensures BlockedAt(Start(w, started).journal.jobs, room, job) && Start(w, started).runs == w.runs
  {
    hide Block, PublishLatest;
    var latest := Latest(w.journal.jobs, started);
    if latest.Some? {
      BlockStays(w.journal, latest.value.id, room, job);
    }
  }

  /** No step touches a blocked room: its job stays the latest and blocked, and its worker does not run. */
  lemma StepKeepsBlocked(w: World, e: Event, room: string, job: Job)
    requires Good(w) && Enabled(w, e) && BlockedAt(w.journal.jobs, room, job)
    ensures BlockedAt(Apply(w, e).journal.jobs, room, job)
    ensures Apply(w, e).runs[job.id] == w.runs[job.id]
  {
    LatestIsRow(w.journal.jobs, room);
    assert job in w.journal.jobs && job.status.Blocked?;
    hide Good, BlockedAt, Block, StoreResult, RecordReceipt, Intend, Verified, PublishLatest, AllowsIntent, AllowsResult, Latest, Start,
      CallFinish, Routed, RouteKeys;
    match e {
      case Crashed =>
      case Started(r) => StartStays(w, r, room, job);
      case Claimed(_) =>
      case SnapshotRead(_) =>
      case Intended(fits) => IntendedStays(w, fits, room, job);
      case Invoked => InvokedElsewhere(w, job);
      case Returned(None) => BlockStays(w.journal, w.phase.id, room, job);
      case Returned(Some(_)) =>
      case Stored => ResultStays(w.journal, w.phase.id, w.phase.review, room, job);
      case FinishCalled(reaches, accepts, changes, answers) => FinishLeavesJournal(w, reaches, accepts, changes, answers);
      case ReceiptJudged => ReceiptStays(w.journal, w.phase.id, w.phase.receipt, room, job);
      case RouteOffered(id, target) => assert Routed(w.journal, id, target).jobs == w.journal.jobs by { RoutedKeepsJobs(w.journal, id, target); }
      case RevisedByOthers(_) =>
    }
  }

  lemma FinishLeavesJournal(w: World, reaches: bool, accepts: bool, changes: bool, answers: bool)
    requires w.phase.Publishing?
    ensures var v := CallFinish(w, reaches, accepts, changes, answers); v.journal == w.journal && v.runs == w.runs && v.wanted == w.wanted && v.offered == w.offered
  {
  }

  lemma RoutedKeepsJobs(j: Journal, id: JobId, target: string)
    ensures Routed(j, id, target).jobs == j.jobs
  {
  }

  lemma IntendedStays(w: World, fits: bool, room: string, job: Job)
    requires w.phase.Reading? && BlockedAt(w.journal.jobs, room, job)
    ensures BlockedAt(Apply(w, Intended(fits)).journal.jobs, room, job)
  {
    var jobs := w.journal.jobs;
    LatestIsRow(jobs, room);
    var k :| 0 <= k < |jobs| && jobs[k] == job;
    if AllowsIntent(w.journal, w.phase.room, w.phase.lease, fits) {
      OtherRoomStaysLatest(jobs, NewJob(w.journal, w.phase.room, w.phase.lease, w.phase.revision), room, job);
    }
  }

  lemma InvokedElsewhere(w: World, job: Job)
    requires Good(w) && w.phase.Dispatched? && job in w.journal.jobs && job.status.Blocked?
    ensures w.phase.id != job.id
  {
    var open :| open in w.journal.jobs && open.id == w.phase.id && open.status.DispatchIntent?;
    if open.id == job.id {
      SameIdSameRow(w.journal.jobs, open, job);
    }
  }

  /**
    Uncertainty is never hidden: once a room's job is blocked, it stays the room's latest job and blocked,
    over every continuation with restarts, and its worker does not run again.
   */
  lemma {:induction false} BlockedIsForever(run: seq<Event>, n: nat, room: string, job: Job)
    requires Legal(run) && n <= |run|
    ensures Legal(run[..n])
    ensures BlockedAt(After(run[..n]).journal.jobs, room, job) ==>
              BlockedAt(After(run).journal.jobs, room, job) && After(run).runs[job.id] == After(run[..n]).runs[job.id]
  {
    if n == |run| {
      assert run[..n] == run;
    } else {
      var m := |run| - 1;
      BlockedIsForever(run[..m], n, room, job);
      assert run[..m][..n] == run[..n];
      ReachableIsGood(run[..m]);
      if BlockedAt(After(run[..n]).journal.jobs, room, job) {
        StepKeepsBlocked(After(run[..m]), run[m], room, job);
      }
      hide Apply, Good, BlockedAt, Enabled;
    }
  }

  // ---- Routes ----

  predicate Routable(jobs: Jobs, id: JobId) {
    exists a :: a in jobs && a.id == id
  }

  /** A wanted route was offered, or its row is still there with its job. */
  ghost predicate RoutesKept(w: World) {
    && (forall key :: key in w.wanted ==> key in w.offered || key in w.journal.routes)
    && (forall key :: key in w.journal.routes ==> Routable(w.journal.jobs, key.0))
  }

  lemma {:induction false} WithRoutesKeys(rows: Routes, id: JobId, routes: seq<Route>)
    ensures WithRoutes(rows, id, routes).Keys == rows.Keys + RouteKeys(id, routes)
  {
    if routes != [] {
      var n := |routes| - 1;
      WithRoutesKeys(rows, id, routes[..n]);
      assert RouteKeys(id, routes) == RouteKeys(id, routes[..n]) + {(id, routes[n].target)} by {
        assert forall k :: 0 <= k < n ==> routes[..n][k] == routes[k];
      }
    }
  }

  lemma {:induction false} PrunedKeepsRouted(jobs: Jobs, routed: set<JobId>, newer: nat, id: JobId)
    requires id in routed && Routable(jobs, id)
    ensures Routable(Pruned(jobs, routed, newer), id)
  {
    if jobs != [] {
      var n := |jobs| - 1;
      var last, before := jobs[n], jobs[..n];
      var more := if last.status.Accepted? then newer + 1 else newer;
      assert jobs == before + [last];
      if last.id == id {
        assert last in Pruned(jobs, routed, newer);
      } else {
        PrunedKeepsRouted(before, routed, more, id);
        var a :| a in Pruned(before, routed, more) && a.id == id;
        assert a in Pruned(jobs, routed, newer);
      }
    }
  }

  lemma SameIdsRoutable(before: Jobs, after: Jobs, id: JobId)
    requires |before| <= |after| && (forall k :: 0 <= k < |before| ==> after[k].id == before[k].id) && Routable(before, id)
    ensures Routable(after, id)
  {
    var k :| 0 <= k < |before| && before[k].id == id;
    assert after[k] in after;
  }

  lemma StoredKeepsRoutes(w: World)
    requires Enabled(w, Stored) && RoutesKept(w)
    ensures RoutesKept(Apply(w, Stored))
  {
    if AllowsResult(w.journal, w.phase.id, w.phase.review) {
      var v := Apply(w, Stored);
      WithRoutesKeys(w.journal.routes, w.phase.id, w.phase.review.routes);
      var k :| 0 <= k < |w.journal.jobs| && w.journal.jobs[k].id == w.phase.id;
      assert w.journal.jobs[k] in w.journal.jobs;
      forall key | key in v.journal.routes ensures Routable(v.journal.jobs, key.0) {
        SameIdsRoutable(w.journal.jobs, v.journal.jobs, key.0);
      }
    }
  }

  lemma ReceiptKeepsRoutes(w: World)
    requires Enabled(w, ReceiptJudged) && RoutesKept(w)
    ensures RoutesKept(Apply(w, ReceiptJudged))
  {
    hide Pruned, WithReceipt;
    var v := Apply(w, ReceiptJudged);
    forall key | key in v.journal.routes ensures Routable(v.journal.jobs, key.0) {
      if v.journal != w.journal {
        var marked := Receipted(w.journal.jobs, w.phase.id, w.phase.receipt);
        assert forall k :: 0 <= k < |marked| ==> marked[k].id == w.journal.jobs[k].id by { ReceiptsKeepIds(w.journal.jobs, w.phase.id, w.phase.receipt); }
        SameIdsRoutable(w.journal.jobs, marked, key.0);
        PrunedKeepsRouted(marked, RoutedIds(w.journal.routes), 0, key.0);
      }
    }
  }

  lemma ReceiptsKeepIds(jobs: Jobs, id: JobId, receipt: int)
    ensures forall k :: 0 <= k < |jobs| ==> Receipted(jobs, id, receipt)[k].id == jobs[k].id
  {
  }

  lemma StepKeepsRoutes(w: World, e: Event)
    requires Enabled(w, e) && RoutesKept(w)
    ensures RoutesKept(Apply(w, e))
  {
    hide Verified, PublishLatest, AllowsIntent, AllowsResult, RecordReceipt, StoreResult;
    if e.Stored? {
      StoredKeepsRoutes(w);
    } else if e.ReceiptJudged? {
      ReceiptKeepsRoutes(w);
    } else {
      OtherKeepsRoutes(w, e);
    }
  }

  /** Jobs keep their ids, perhaps one is added, and a route row goes only when it was offered. */
  ghost predicate KeepsIds(w: World, v: World) {
    && |w.journal.jobs| <= |v.journal.jobs|
    && (forall k :: 0 <= k < |w.journal.jobs| ==> v.journal.jobs[k].id == w.journal.jobs[k].id)
    && v.wanted == w.wanted && w.offered <= v.offered && v.journal.routes.Keys <= w.journal.routes.Keys
    && w.journal.routes.Keys <= v.journal.routes.Keys + v.offered
  }

  lemma KeptIdsKeepRoutes(w: World, v: World)
    requires RoutesKept(w) && KeepsIds(w, v)
    ensures RoutesKept(v)
  {
    forall key | key in v.journal.routes ensures Routable(v.journal.jobs, key.0) {
      SameIdsRoutable(w.journal.jobs, v.journal.jobs, key.0);
    }
    forall key | key in v.wanted ensures key in v.offered || key in v.journal.routes {
      assert key in w.offered || key in w.journal.routes.Keys;
    }
  }

  lemma OtherKeepsRoutes(w: World, e: Event)
    requires Enabled(w, e) && RoutesKept(w) && !e.Stored? && !e.ReceiptJudged?
    ensures RoutesKept(Apply(w, e))
  {
    hide RoutesKept, Verified, PublishLatest, AllowsIntent, AllowsResult, RecordReceipt, StoreResult, Latest, PendingRoutes;
    match e {
      case Crashed =>
      case Started(_) =>
      case Claimed(_) =>
      case SnapshotRead(_) =>
      case Intended(_) =>
      case Invoked =>
      case Returned(None) =>
      case Returned(Some(_)) =>
      case FinishCalled(reaches, accepts, changes, answers) => FinishLeavesJournal(w, reaches, accepts, changes, answers);
      case RouteOffered(_, _) =>
      case RevisedByOthers(_) =>
    }
    assert KeepsIds(w, Apply(w, e));
    KeptIdsKeepRoutes(w, Apply(w, e));
  }

  /**
    No route is lost: over every run with crashes, a route of a stored result has been offered to its
    target, or is still in the journal with its job, pending as soon as the publication is accepted.
   */
  lemma {:induction false} RoutesAreNeverLost(run: seq<Event>, key: (JobId, string))
    requires Legal(run)
    ensures RoutesKept(After(run))
    ensures key in After(run).wanted && key !in After(run).offered ==>
              exists a :: a in After(run).journal.jobs && a.id == key.0
                          && (a.status.Accepted? ==> key in PendingRoutes(After(run).journal, a.room))
  {
    if run != [] {
      RoutesAreNeverLost(run[..|run| - 1], key);
      StepKeepsRoutes(After(run[..|run| - 1]), run[|run| - 1]);
    }
    hide Apply, Enabled;
    if key in After(run).wanted && key !in After(run).offered {
      var a :| a in After(run).journal.jobs && a.id == key.0;
      var k :| 0 <= k < |After(run).journal.jobs| && After(run).journal.jobs[k] == a;
    }
  }

  // ---- The backlog ----

  lemma {:induction false} UpdatesKeepCount(before: Jobs, after: Jobs)
    requires |after| == |before| && forall k :: 0 <= k < |before| && before[k].status.Accepted? ==> after[k].status.Accepted?
    ensures UnfinishedCount(after) <= UnfinishedCount(before)
  {
    if before != [] {
      UpdatesKeepCount(before[..|before| - 1], after[..|after| - 1]);
    }
  }

  lemma {:induction false} PruningKeepsCount(jobs: Jobs, routed: set<JobId>, newer: nat)
    ensures UnfinishedCount(Pruned(jobs, routed, newer)) == UnfinishedCount(jobs)
  {
    if jobs != [] {
      var n := |jobs| - 1;
      var last := jobs[n];
      var more := if last.status.Accepted? then newer + 1 else newer;
      PruningKeepsCount(jobs[..n], routed, more);
      OneMoreCounted(Pruned(jobs[..n], routed, more), last);
    }
  }

  lemma OneMoreCounted(jobs: Jobs, job: Job)
    ensures UnfinishedCount(jobs + [job]) == UnfinishedCount(jobs) + if job.status.Accepted? then 0 else 1
    ensures jobs + [] == jobs
  {
    assert (jobs + [job])[..|jobs|] == jobs;
  }

  lemma BlockKeepsCount(j: Journal, p: Job)
    requires Ascending(j.jobs) && p in j.jobs && !p.status.Accepted?
    ensures UnfinishedCount(Block(j, p.id).jobs) <= UnfinishedCount(j.jobs)
  {
    TheRow(j.jobs, p);
    UpdatesKeepCount(j.jobs, Block(j, p.id).jobs);
  }

  lemma StepKeepsBacklog(w: World, e: Event)
    requires Good(w) && Enabled(w, e) && UnfinishedCount(w.journal.jobs) <= 16
    ensures UnfinishedCount(Apply(w, e).journal.jobs) <= 16
  {
    var jobs := w.journal.jobs;
    hide Good, Ascending, Conflicts, RoutesFit, HasJob, Verified, PendingRoutes, Pruned, Block, Reviewed, Receipted, UnfinishedCount;
    match e {
      case Started(room) => StartKeepsBacklog(w, room);
      case Intended(fits) => OneMoreCounted(jobs, NewJob(w.journal, w.phase.room, w.phase.lease, w.phase.revision));
      case Returned(_) => FailureKeepsBacklog(w);
      case Stored => ReviewKeepsCount(jobs, w.phase.id, w.phase.review);
      case FinishCalled(reaches, accepts, changes, answers) => FinishLeavesJournal(w, reaches, accepts, changes, answers);
      case ReceiptJudged =>
        ReceiptKeepsCount(jobs, w.phase.id, w.phase.receipt);
        PruningKeepsCount(Receipted(jobs, w.phase.id, w.phase.receipt), RoutedIds(w.journal.routes), 0);
      case _ =>
    }
  }

  lemma FailureKeepsBacklog(w: World)
    requires Good(w) && w.phase.Inferring?
    ensures UnfinishedCount(Block(w.journal, w.phase.id).jobs) <= UnfinishedCount(w.journal.jobs)
  {
    var p :| p in w.journal.jobs && p.room == w.phase.room && p.id == w.phase.id && p.status.DispatchIntent?;
    BlockKeepsCount(w.journal, p);
  }

  lemma StartKeepsBacklog(w: World, room: string)
    requires Good(w) && w.phase.Resting?
    ensures UnfinishedCount(Start(w, room).journal.jobs) <= UnfinishedCount(w.journal.jobs)
  {
    LatestIsRow(w.journal.jobs, room);
    var latest := Latest(w.journal.jobs, room);
    if latest.Some? && latest.value.status.DispatchIntent? {
      BlockKeepsCount(w.journal, latest.value);
    }
  }

  lemma ReviewKeepsCount(jobs: Jobs, id: JobId, review: Review)
    ensures UnfinishedCount(Reviewed(jobs, id, review)) <= UnfinishedCount(jobs)
  {
    UpdatesKeepCount(jobs, Reviewed(jobs, id, review));
  }

  lemma ReceiptKeepsCount(jobs: Jobs, id: JobId, receipt: int)
    ensures UnfinishedCount(Receipted(jobs, id, receipt)) <= UnfinishedCount(jobs)
  {
    UpdatesKeepCount(jobs, Receipted(jobs, id, receipt));
  }

  /** Over every run, with crashes anywhere, at most sixteen jobs are unfinished. */
  lemma {:induction false} BacklogIsBounded(run: seq<Event>)
    requires Legal(run)
    ensures UnfinishedCount(After(run).journal.jobs) <= 16
  {
    if run != [] {
      BacklogIsBounded(run[..|run| - 1]);
      ReachableIsGood(run[..|run| - 1]);
      hide Good;
      StepKeepsBacklog(After(run[..|run| - 1]), run[|run| - 1]);
    }
  }
}
