/**
  The write-ahead journal of the wiki runner (wiki_runtime.py, `WikiJournal`): job rows in id order,
  route rows, and each transaction as a function, computed by the class below.
 */
module WikiJournals {
  import opened Common

  type JobId = nat

  datatype Lease = Lease(batchId: int, epoch: int, token: string)

  datatype Route = Route(target: string, slugs: seq<string>, reason: string)

  datatype Draft = Draft(slug: string, title: string, body: string, sources: seq<int>)

  datatype Review = Review(expectedRevision: int, reviewedThrough: int, reason: string, pages: seq<Draft>, routes: seq<Route>)

  datatype Status = DispatchIntent | PublicationPending | Blocked | Accepted

  /** The snapshot and the review are forgotten once the publication is accepted. */
  datatype Job = Job(
    id: JobId, room: string, lease: Lease, status: Status,
    snapshotRevision: Option<int>, review: Option<Review>, receipt: Option<int>)

  type Jobs = seq<Job>
  type Routes = map<(JobId, string), Route>

  datatype Journal = Journal(jobs: Jobs, routes: Routes)

  const MAX_UNFINISHED := 16
  const MAX_ACCEPTED := 128

  // ---- Queries ----

  function Latest(jobs: Jobs, room: string): Option<Job> {
    if jobs == [] then None
    else if jobs[|jobs| - 1].room == room then Some(jobs[|jobs| - 1])
    else Latest(jobs[..|jobs| - 1], room)
  }

  function UnfinishedCount(jobs: Jobs): nat {
    if jobs == [] then 0
    else UnfinishedCount(jobs[..|jobs| - 1]) + if jobs[|jobs| - 1].status.Accepted? then 0 else 1
  }

  /** SQLite gives the row after the largest id in the table. */
  function NextId(jobs: Jobs): JobId {
    if jobs == [] then 1 else jobs[|jobs| - 1].id + 1
  }

  predicate HasJob(jobs: Jobs, id: JobId, status: Status) {
    exists k :: 0 <= k < |jobs| && jobs[k].id == id && jobs[k].status == status
  }

  /** UNIQUE(room, batch_id, epoch), and the unique index on a room's unfinished job. */
  predicate Conflicts(jobs: Jobs, room: string, lease: Lease) {
    exists k :: 0 <= k < |jobs| && jobs[k].room == room
      && (!jobs[k].status.Accepted? || (jobs[k].lease.batchId == lease.batchId && jobs[k].lease.epoch == lease.epoch))
  }

  // ---- Transactions ----

  predicate AllowsIntent(j: Journal, room: string, lease: Lease, fits: bool) {
    fits && UnfinishedCount(j.jobs) < MAX_UNFINISHED && !Conflicts(j.jobs, room, lease)
  }

  function NewJob(j: Journal, room: string, lease: Lease, revision: int): Job {
    Job(NextId(j.jobs), room, lease, DispatchIntent, Some(revision), None, None)
  }

  function Intend(j: Journal, room: string, lease: Lease, revision: int, fits: bool): Journal {
    if AllowsIntent(j, room, lease, fits) then j.(jobs := j.jobs + [NewJob(j, room, lease, revision)]) else j
  }

  function WithReview(job: Job, id: JobId, review: Review): Job {
    if job.id == id && job.status.DispatchIntent? then job.(status := PublicationPending, review := Some(review)) else job
  }

  function WithReceipt(job: Job, id: JobId, receipt: int): Job {
    if job.id == id && job.status.PublicationPending?
    then job.(status := Accepted, receipt := Some(receipt), review := None, snapshotRevision := None)
    else job
  }

  function WithBlock(job: Job, id: JobId): Job {
    if job.id == id then job.(status := Blocked) else job
  }

  function Reviewed(jobs: Jobs, id: JobId, review: Review): Jobs {
    seq(|jobs|, k requires 0 <= k < |jobs| => WithReview(jobs[k], id, review))
  }

  function Receipted(jobs: Jobs, id: JobId, receipt: int): Jobs {
    seq(|jobs|, k requires 0 <= k < |jobs| => WithReceipt(jobs[k], id, receipt))
  }

  function WithRoutes(rows: Routes, id: JobId, routes: seq<Route>): Routes {
    if routes == [] then rows
    else
      var last := routes[|routes| - 1];
      WithRoutes(rows, id, routes[..|routes| - 1])[(id, last.target) := last]
  }

  /** PRIMARY KEY(job_id, target): each route of the review must be new. */
  predicate RoutesFit(rows: Routes, id: JobId, routes: seq<Route>) {
    && (forall i, k :: 0 <= i < k < |routes| ==> routes[i].target != routes[k].target)
    && (forall i :: 0 <= i < |routes| ==> (id, routes[i].target) !in rows)
  }

  predicate AllowsResult(j: Journal, id: JobId, review: Review) {
    HasJob(j.jobs, id, DispatchIntent) && RoutesFit(j.routes, id, review.routes)
  }

  function StoreResult(j: Journal, id: JobId, review: Review): Journal {
    if !AllowsResult(j, id, review) then j
    else Journal(Reviewed(j.jobs, id, review), WithRoutes(j.routes, id, review.routes))
  }

  function RoutedIds(routes: Routes): set<JobId> {
    set key | key in routes :: key.0
  }

  /** Of the accepted jobs only the newest 128 stay, and those with routes still to deliver. */
  function Pruned(jobs: Jobs, routed: set<JobId>, newer: nat): Jobs {
    if jobs == [] then []
    else
      var last, before := jobs[|jobs| - 1], jobs[..|jobs| - 1];
      if !last.status.Accepted? then Pruned(before, routed, newer) + [last]
      else Pruned(before, routed, newer + 1) + if newer < MAX_ACCEPTED || last.id in routed then [last] else []
  }

  function RecordReceipt(j: Journal, id: JobId, receipt: int): Journal {
    if !HasJob(j.jobs, id, PublicationPending) then j
    else j.(jobs := Pruned(Receipted(j.jobs, id, receipt), RoutedIds(j.routes), 0))
  }

  function Block(j: Journal, id: JobId): Journal {
    j.(jobs := seq(|j.jobs|, k requires 0 <= k < |j.jobs| => WithBlock(j.jobs[k], id)))
  }

  /** The routes still to be offered for a room: those of its accepted jobs. */
  function PendingRoutes(j: Journal, room: string): set<(JobId, string)> {
    set key, k | key in j.routes && 0 <= k < |j.jobs| && j.jobs[k].id == key.0 && j.jobs[k].room == room
                 && j.jobs[k].status.Accepted? :: key
  }

  function Routed(j: Journal, id: JobId, target: string): Journal {
    j.(routes := j.routes - {(id, target)})
  }

  // ---- The journal as a mutable object ----

  datatype Outcome = Done | Refused

  class WikiJournal {
    var jobs: Jobs
    var routes: Routes

    constructor ()
      ensures State() == Journal([], map[])
    {
      jobs, routes := [], map[];
    }

    function State(): Journal
      reads this
    {
      Journal(jobs, routes)
    }

    method LatestOf(room: string) returns (job: Option<Job>)
      ensures job == Latest(jobs, room)
    {
      var k := |jobs|;
      assert jobs[..k] == jobs;
      while k > 0
        invariant 0 <= k <= |jobs| && Latest(jobs, room) == Latest(jobs[..k], room)
      {
        k := k - 1;
        assert jobs[..k + 1][..k] == jobs[..k];
        if jobs[k].room == room {
          return Some(jobs[k]);
        }
      }
      return None;
    }

    method Intent(room: string, lease: Lease, revision: int, fits: bool) returns (outcome: Outcome, id: JobId)
      modifies `jobs
      ensures State() == Intend(old(State()), room, lease, revision, fits)
      ensures outcome.Done? <==> AllowsIntent(old(State()), room, lease, fits)
      ensures outcome.Done? <==>
                && fits && UnfinishedCount(old(jobs)) < 16
                && forall k :: 0 <= k < |old(jobs)| && old(jobs)[k].room == room ==>
                     && old(jobs)[k].status.Accepted?
                     && !(old(jobs)[k].lease.batchId == lease.batchId && old(jobs)[k].lease.epoch == lease.epoch)
      ensures outcome.Done? ==> id == NextId(old(jobs)) && jobs != [] && jobs[|jobs| - 1].id == id
    {
      id := NextId(jobs);
      var pending := 0;
      for k := 0 to |jobs|
        invariant pending == UnfinishedCount(jobs[..k])
      {
        assert jobs[..k + 1][..k] == jobs[..k];
        if !jobs[k].status.Accepted? {
          pending := pending + 1;
        }
      }
      assert jobs[..|jobs|] == jobs;
      if !fits || pending >= MAX_UNFINISHED || Conflicts(jobs, room, lease) {
        return Refused, id;
      }
      jobs := jobs + [Job(id, room, lease, DispatchIntent, Some(revision), None, None)];
      outcome := Done;
    }

    /** All of the result or, if any row is refused, none of it. */
    method Result(id: JobId, review: Review) returns (outcome: Outcome)
      modifies this
      ensures State() == StoreResult(old(State()), id, review)
      ensures outcome.Done? <==> AllowsResult(old(State()), id, review)
    {
      if !HasJob(jobs, id, DispatchIntent) || !RoutesFit(routes, id, review.routes) {
        return Refused;
      }
      jobs := Reviewed(jobs, id, review);
      var wanted := review.routes;
      for k := 0 to |wanted|
        invariant jobs == Reviewed(old(jobs), id, review) && routes == WithRoutes(old(routes), id, wanted[..k])
      {
        assert wanted[..k + 1][..k] == wanted[..k];
        routes := routes[(id, wanted[k].target) := wanted[k]];
      }
      assert wanted[..|wanted|] == wanted;
      outcome := Done;
    }

    method Accepted(id: JobId, receipt: int) returns (outcome: Outcome)
      modifies `jobs
      ensures State() == RecordReceipt(old(State()), id, receipt)
      ensures outcome.Done? <==> HasJob(old(jobs), id, PublicationPending)
    {
      if !HasJob(jobs, id, PublicationPending) {
        return Refused;
      }
      var all := Receipted(jobs, id, receipt);
      var kept: Jobs, newer, k := [], 0, |all|;
      assert all[..k] == all && Pruned(all, RoutedIds(routes), 0) + [] == Pruned(all, RoutedIds(routes), 0);
      while k > 0
        invariant 0 <= k <= |all| && newer >= 0
        invariant Pruned(all, RoutedIds(routes), 0) == Pruned(all[..k], RoutedIds(routes), newer) + kept
      {
        k := k - 1;
        assert all[..k + 1][..k] == all[..k];
        if !all[k].status.Accepted? || newer < MAX_ACCEPTED || all[k].id in RoutedIds(routes) {
          kept := [all[k]] + kept;
        }
        if all[k].status.Accepted? {
          newer := newer + 1;
        }
      }
      jobs := kept;
      outcome := Done;
    }

    method BlockJob(id: JobId)
      modifies `jobs
      ensures State() == Block(old(State()), id)
    {
      var rows := jobs;
      jobs := seq(|rows|, k requires 0 <= k < |rows| => WithBlock(rows[k], id));
    }

    method RouteDelivered(id: JobId, target: string)
      modifies `routes
      ensures State() == Routed(old(State()), id, target)
    {
      routes := routes - {(id, target)};
    }
  }
}
