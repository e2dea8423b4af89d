/**
  `WikiRunner.run_once` (wiki_runtime.py) as a method over the journal and the assumed idempotent
  server: whatever the transport, the worker and the server answer, one call is a run of steps of
  WikiPublication, so its theorems hold of the code's own order of effects.
 */
module WikiRunners {
  import opened Common
  import opened WikiJournals
  import opened WikiPublication

  /** What the outside answers during one call; None stands for an exception or a lost answer. */
  datatype Answers = Answers(
    claim: Option<Option<Lease>>, snapshot: Option<int>, fits: bool, review: Option<Review>,
    reaches: bool, accepts: bool, changes: bool, answers: bool,
    offersFirst: RouteOffers, offersLast: RouteOffers)

  /** Whether the offer of a route to its target goes through. */
  type RouteOffers = ((JobId, string)) -> bool

  datatype Outcome = PublishedAt(revision: int) | BlockedRoom | IdleRoom | Unfinished

  /** `w` becomes `v` by these steps. */
  ghost predicate Reaches(w: World, steps: seq<Event>, v: World)
    decreases |steps|
  {
    if steps == [] then v == w else Enabled(w, steps[0]) && Reaches(Apply(w, steps[0]), steps[1..], v)
  }

  lemma {:induction false} ReachesMore(w: World, steps: seq<Event>, v: World, e: Event)
    requires Reaches(w, steps, v) && Enabled(v, e)
    ensures Reaches(w, steps + [e], Apply(v, e))
    decreases |steps|
  {
    hide Apply, Enabled;
    if steps == [] {
      assert [e][1..] == [];
    } else {
      ReachesMore(Apply(w, steps[0]), steps[1..], v, e);
      assert (steps + [e])[1..] == steps[1..] + [e];
    }
  }

  /** One more step of a run of good worlds. */
  lemma Advance(w: World, steps: seq<Event>, v: World, e: Event)
    requires Reaches(w, steps, v) && Good(v) && Enabled(v, e)
    ensures Reaches(w, steps + [e], Apply(v, e)) && Good(Apply(v, e))
  {
    hide *;
    ReachesMore(w, steps, v, e);
    StepKeepsGood(v, e);
  }

  /** The result just stored is the room's latest job, so that is what `publish` takes. */
  lemma StoredIsLatest(w: World)
    requires Good(w) && w.phase.Judged? && AllowsResult(w.journal, w.phase.id, w.phase.review)
    ensures PublishLatest(StoreResult(w.journal, w.phase.id, w.phase.review), w.phase.room).Publishing?
  {
    var jobs, id, review := w.journal.jobs, w.phase.id, w.phase.review;
    var p :| p in jobs && p.room == w.phase.room && p.id == id && p.status.DispatchIntent?;
    assert Ascending(jobs) && NewestOnly(jobs);
    hide Good, AllowsResult;
    TheRow(jobs, p);
    SwappedRows(jobs, Reviewed(jobs, id, review), p, WithReview(p, id, review));
    UnfinishedIsLatest(Reviewed(jobs, id, review), WithReview(p, id, review));
    hide Ascending, NewestOnly, Reviewed;
  }

  /** A room's unfinished job is its latest. */
  lemma UnfinishedIsLatest(jobs: Jobs, q: Job)
    requires Ascending(jobs) && NewestOnly(jobs) && q in jobs && !q.status.Accepted?
    ensures Latest(jobs, q.room) == Some(q)
  {
    LatestMeans(jobs, q.room);
    var latest := Latest(jobs, q.room).value;
    if latest.id == q.id {
      SameIdSameRow(jobs, latest, q);
    }
  }

  /** Delivering one pending route leaves exactly the others pending. */
  lemma DeliveredOne(j: Journal, room: string, key: (JobId, string))
    requires key in PendingRoutes(j, room)
    ensures PendingRoutes(Routed(j, key.0, key.1), room) == PendingRoutes(j, room) - {key}
  {
    var v := Routed(j, key.0, key.1);
    forall other | other in PendingRoutes(j, room) && other != key ensures other in PendingRoutes(v, room) {
      var k :| 0 <= k < |j.jobs| && j.jobs[k].id == other.0 && j.jobs[k].room == room && j.jobs[k].status.Accepted?;
      assert v.jobs[k] == j.jobs[k];
    }
  }

  lemma PendingIsOfferable(w: World, room: string, key: (JobId, string))
    requires key in PendingRoutes(w.journal, room)
    ensures Enabled(w, RouteOffered(key.0, key.1))
  {
    var k :| 0 <= k < |w.journal.jobs| && w.journal.jobs[k].id == key.0 && w.journal.jobs[k].room == room && w.journal.jobs[k].status.Accepted?;
    assert key in PendingRoutes(w.journal, w.journal.jobs[k].room);
  }

  // ---- What one call does ----

  /** The receipt the server has for a lease after a finish that it accepts, or not. */
  function ServedFor(receipts: Receipts, revisions: map<string, int>, room: string, lease: Lease, a: Answers): Option<int> {
    if (room, lease) in receipts then Some(receipts[(room, lease)])
    else if a.accepts then Some(RevisionOf(revisions, room) + if a.changes then 1 else 0)
    else None
  }

  /** The receipt is heard, and it is the revision the worker saw or the next one. */
  predicate Settles(job: Job, served: Option<int>, a: Answers) {
    && a.reaches && a.answers && served.Some? && job.snapshotRevision.Some?
    && (served.value == job.snapshotRevision.value || served.value == job.snapshotRevision.value + 1)
  }

  /** A publication: settled, the job is accepted with the receipt and its routes are offered; else nothing changes. */
  ghost predicate Publishes(j: Journal, m: Journal, room: string, job: Job, served: Option<int>, a: Answers, outcome: Outcome) {
    if Settles(job, served, a)
    then
      var k := RecordReceipt(j, job.id, served.value);
      && m == k.(routes := k.routes - (PendingRoutes(k, room) - PendingRoutes(m, room)))
      && (PendingRoutes(m, room) == {} || exists key :: key in PendingRoutes(m, room) && !a.offersLast(key))
      && outcome == if PendingRoutes(m, room) == {} then PublishedAt(served.value) else Unfinished
    else m == j && outcome.Unfinished?
  }

  type Server = Lease -> Option<int>

  function ServerOf(receipts: Receipts, revisions: map<string, int>, room: string, a: Answers): Server {
    lease => ServedFor(receipts, revisions, room, lease, a)
  }

  /** A new batch: journalled, given to the worker once, and what it returns stored and published. */
  ghost predicate Works(j: Journal, m: Journal, room: string, lease: Lease, revision: int, server: Server, a: Answers, outcome: Outcome) {
    if !AllowsIntent(j, room, lease, a.fits) then m == j && outcome.Unfinished?
    else
      var id, intended := NextId(j.jobs), Intend(j, room, lease, revision, a.fits);
      if a.review.None? then m == Block(intended, id) && outcome.BlockedRoom?
      else if !AllowsResult(intended, id, a.review.value) then m == intended && outcome.Unfinished?
      else Publishes(StoreResult(intended, id, a.review.value), m, room,
                     Job(id, room, lease, PublicationPending, Some(revision), Some(a.review.value), None), server(lease), a, outcome)
  }

  /** One call on a journal whose pending routes are delivered, by the room's latest job and the answers. */
  ghost predicate RunsOnce(j: Journal, m: Journal, room: string, working: bool, server: Server, a: Answers, outcome: Outcome) {
    var job := Latest(j.jobs, room);
    if job.Some? && job.value.status.DispatchIntent? then m == Block(j, job.value.id) && outcome.BlockedRoom?
    else if job.Some? && job.value.status.Blocked? then m == j && outcome.BlockedRoom?
    else if job.Some? && job.value.status.PublicationPending? then Publishes(j, m, room, job.value, server(job.value.lease), a, outcome)
    else if !working then m == j && outcome.BlockedRoom?
    else if a.claim == Some(None) then m == j && outcome.IdleRoom?
    else if a.claim.Some? && job.Some? && job.value.lease == a.claim.value.value
    then m == j && outcome == if job.value.receipt.Some? then PublishedAt(job.value.receipt.value) else Unfinished
    else if a.claim.None? || a.snapshot.None? then m == j && outcome.Unfinished?
    else Works(j, m, room, a.claim.value.value, a.snapshot.value, server, a, outcome)
  }

  /** The routes that were pending are delivered. */
  ghost function Delivered(j: Journal, room: string): Journal {
    j.(routes := j.routes - PendingRoutes(j, room))
  }

  class WikiServer {
    var revisions: map<string, int>
    var receipts: Receipts

    constructor ()
      ensures revisions == map[] && receipts == map[]
    {
      revisions, receipts := map[], map[];
    }

    /** Accept a lease's finish at most once, and repeat the receipt ever after. */
    method Finish(room: string, payload: Payload, accepts: bool, changes: bool, ghost w: World) returns (receipt: Option<int>)
      requires w.revisions == revisions && w.receipts == receipts
      modifies this
      ensures var v := if (room, payload.lease) in w.receipts || accepts then Serve(w, room, payload, changes) else w;
              v.revisions == revisions && v.receipts == receipts
              && receipt == if (room, payload.lease) in receipts then Some(receipts[(room, payload.lease)]) else None
    {
      var key := (room, payload.lease);
      if key !in receipts && accepts {
        var revision := (if room in revisions then revisions[room] else 0) + if changes then 1 else 0;
        revisions, receipts := revisions[room := revision], receipts[key := revision];
      }
      return if key in receipts then Some(receipts[key]) else None;
    }
  }

  class WikiRunner {
    const room: string
    const journal: WikiJournal
    const server: WikiServer
    /** An isolated worker is configured. */
    const working: bool
    ghost var world: World

    constructor (room: string, working: bool)
      ensures Valid() && world == INITIAL && this.room == room && this.working == working
      ensures fresh(journal) && fresh(server)
    {
      this.room, this.working := room, working;
      journal := new WikiJournal();
      server := new WikiServer();
      world := INITIAL;
    }

    /** The ghost world is the journal and the server as they are. */
    ghost predicate Valid()
      reads this, journal, server
    {
      && Good(world) && world.journal == journal.State()
      && world.revisions == server.revisions && world.receipts == server.receipts
    }

    /** `route_pending`: offer each pending route of the room, and forget it once its offer went through. */
    method RoutePending(offers: RouteOffers, ghost start: World, ghost before: seq<Event>) returns (ok: bool, ghost steps: seq<Event>)
      requires Valid() && world.phase.Resting? && Reaches(start, before, world)
      modifies `world, journal`routes
      ensures Valid() && world.phase.Resting? && Reaches(start, steps, world)
      ensures PendingRoutes(journal.State(), room) <= old(PendingRoutes(journal.State(), room))
      ensures ok <==> PendingRoutes(journal.State(), room) == {}
      ensures !ok ==> exists key :: key in PendingRoutes(journal.State(), room) && !offers(key)
      ensures journal.routes == old(journal.routes) - (old(PendingRoutes(journal.State(), room)) - PendingRoutes(journal.State(), room))
      ensures ok <==> forall key :: key in old(PendingRoutes(journal.State(), room)) ==> offers(key)
      ensures world.runs == old(world.runs) && world.finishes == old(world.finishes)
      ensures ok ==> old(PendingRoutes(journal.State(), room)) + old(world.offered) == world.offered
    {
      hide Good, Reaches, PendingRoutes;
      var todo := PendingRoutes(journal.State(), room);
      ghost var first, done: set<(JobId, string)> := todo, {};
      steps := before;
      while todo != {}
        invariant Valid() && world.phase.Resting? && Reaches(start, steps, world)
        invariant world.runs == old(world.runs) && world.finishes == old(world.finishes)
        invariant todo == PendingRoutes(journal.State(), room) && todo == first - done && done <= first
        invariant world.offered == old(world.offered) + done && journal.routes == old(journal.routes) - done
        invariant forall key :: key in done ==> offers(key)
        decreases |todo|
      {
        var key :| key in todo;
        if !offers(key) {
          assert first - todo == done;
          return false, steps;
        }
        steps := Offer(key, start, steps);
        assert old(journal.routes) - done - {key} == old(journal.routes) - (done + {key});
        done := done + {key};
        todo := todo - {key};
      }
      assert first - todo == done;
      ok := true;
    }

    /** A route whose offer went through is forgotten. */
    method Offer(key: (JobId, string), ghost start: World, ghost before: seq<Event>) returns (ghost steps: seq<Event>)
      requires Valid() && world.phase.Resting? && Reaches(start, before, world) && key in PendingRoutes(journal.State(), room)
      modifies `world, journal`routes
      ensures Valid() && world.phase.Resting? && Reaches(start, steps, world)
      ensures PendingRoutes(journal.State(), room) == old(PendingRoutes(journal.State(), room)) - {key}
      ensures world.runs == old(world.runs) && world.finishes == old(world.finishes) && world.offered == old(world.offered) + {key}
      ensures journal.routes == old(journal.routes) - {key}
    {
      PendingIsOfferable(world, room, key);
      DeliveredOne(journal.State(), room, key);
      hide Good, Reaches, PendingRoutes;
      Advance(start, before, world, RouteOffered(key.0, key.1));
      ghost var next := Apply(world, RouteOffered(key.0, key.1));
      journal.RouteDelivered(key.0, key.1);
      world := next;
      steps := before + [RouteOffered(key.0, key.1)];
    }

    /** `publish`: finish with the journalled payload, verify the receipt, record it. */
    method Publish(a: Answers, ghost start: World, ghost before: seq<Event>) returns (outcome: Outcome, ghost steps: seq<Event>)
      requires Valid() && world.phase == PublishLatest(journal.State(), room) && world.phase.Publishing?
      requires Reaches(start, before, world)
      modifies `world, journal, server
      ensures Valid() && world.phase.Resting? && Reaches(start, steps, world)
      ensures |world.finishes| == |old(world.finishes)| + 1 && world.runs == old(world.runs)
      ensures var job := Latest(old(journal.jobs), room);
              job.Some? && Publishes(old(journal.State()), journal.State(), room, job.value,
                                     ServedFor(old(server.receipts), old(server.revisions), room, job.value.lease, a), a, outcome)
    {
      hide Good, Reaches, Verified, RecordReceipt, PendingRoutes, ServedFor;
      PendingIsKnown(world, room);
      var job := journal.LatestOf(room);
      var receipt;
      receipt, steps := CallServer(a, start, before);
      if !a.answers || receipt.None? {
        return Unfinished, steps;
      }
      outcome, steps := Record(start, steps, job.value.id, receipt.value);
      if outcome.PublishedAt? {
        var routed;
        routed, steps := RoutePending(a.offersLast, start, steps);
        if !routed {
          outcome := Unfinished;
        }
      }
    }

    /** `transport.finish` with the journalled lease and review; the receipt is heard if the call and its answer get through. */
    method CallServer(a: Answers, ghost start: World, ghost before: seq<Event>) returns (receipt: Option<int>, ghost steps: seq<Event>)
      requires Valid() && world.phase == PublishLatest(journal.State(), room) && world.phase.Publishing? && Reaches(start, before, world)
      modifies `world, server
      ensures Valid() && Reaches(start, steps, world) && |world.finishes| == |old(world.finishes)| + 1 && world.runs == old(world.runs)
      ensures var job := Latest(journal.jobs, room);
              && job.Some? && receipt == (if a.reaches then ServedFor(old(server.receipts), old(server.revisions), room, job.value.lease, a) else None)
              && world.phase == if a.answers && receipt.Some? then Answered(room, job.value.id, receipt.value) else Resting
    {
      hide Good, Reaches;
      var job := journal.LatestOf(room);
      var payload := Payload(job.value.lease, job.value.review.value);
      ghost var call := FinishCalled(a.reaches, a.accepts, a.changes, a.answers);
      Advance(start, before, world, call);
      receipt := None;
      if a.reaches {
        receipt := server.Finish(room, payload, a.accepts, a.changes, world.(finishes := world.finishes + [Finish(job.value.id, payload)]));
      }
      steps := before + [call];
      world := Apply(world, call);
    }

    method Record(ghost start: World, ghost before: seq<Event>, id: JobId, receipt: int) returns (outcome: Outcome, ghost steps: seq<Event>)
      requires Valid() && world.phase == Answered(room, id, receipt) && Reaches(start, before, world)
      modifies `world, journal
      ensures Valid() && world.phase.Resting? && Reaches(start, steps, world)
      ensures world.finishes == old(world.finishes) && world.runs == old(world.runs) && journal.routes == old(journal.routes)
      ensures if Verified(old(journal.jobs), id, receipt) then journal.State() == RecordReceipt(old(journal.State()), id, receipt) && outcome == PublishedAt(receipt)
              else journal.State() == old(journal.State()) && outcome.Unfinished?
    {
      AnsweredIsPending(world);
      hide Good, Reaches, HasJob, Verified, RecordReceipt;
      Advance(start, before, world, ReceiptJudged);
      steps := before + [ReceiptJudged];
      ghost var next := Apply(world, ReceiptJudged);
      if !Verified(journal.jobs, id, receipt) {
        world := next;
        return Unfinished, steps;
      }
      var done := journal.Accepted(id, receipt);
      world := next;
      outcome := if done.Done? then PublishedAt(receipt) else Unfinished;
    }

    /** The batch is a new one, and the wiki can be read. */
    predicate NewBatch(a: Answers, job: Option<Job>) {
      && a.claim.Some? && a.claim.value.Some? && a.snapshot.Some?
      && (job.Some? ==> job.value.lease != a.claim.value.value)
    }

    /**
      One call: whatever the answers are, it is a run of steps. If the pending routes go through, what happens
      next depends on the room's latest job: its uncertainty is kept, its publication is tried, or a batch is
      claimed and the worker runs, once.
     */
    method RunOnce(a: Answers) returns (outcome: Outcome, ghost steps: seq<Event>)
      requires Valid() && world.phase.Resting?
      modifies `world, journal, server
      ensures Valid() && world.phase.Resting? && Reaches(old(world), steps, world)
      ensures var (j, m) := (old(journal.State()), journal.State());
              if forall key :: key in PendingRoutes(j, room) ==> a.offersFirst(key)
              then && world.runs == old(world.runs) + Runs(Delivered(j, room), a)
                   && RunsOnce(Delivered(j, room), m, room, working, ServerOf(old(server.receipts), old(server.revisions), room, a), a, outcome)
              else && outcome.Unfinished? && world.runs == old(world.runs) && world.finishes == old(world.finishes)
                   && m == j.(routes := j.routes - (PendingRoutes(j, room) - PendingRoutes(m, room)))
      ensures var job := Latest(old(journal.jobs), room);
              job.Some? && job.value.status.PublicationPending? && (forall key :: key in old(PendingRoutes(journal.State(), room)) ==> a.offersFirst(key)) ==>
                |world.finishes| == |old(world.finishes)| + 1
    {
      ghost var start := world;
      assert Reaches(start, [], start);
      hide Good, Reaches, RunsOnce, PendingRoutes, Runs, ServerOf;
      var routed;
      ghost var pending := PendingRoutes(journal.State(), room);
      routed, steps := RoutePending(a.offersFirst, start, []);
      if !routed {
        return Unfinished, steps;
      }
      assert Delivered(old(journal.State()), room) == journal.State() by {
        assert pending - {} == pending;
      }
      hide Delivered;
      outcome, steps := Proceed(a, start, steps);
    }

    /** What follows once the pending routes are delivered. */
    method Proceed(a: Answers, ghost start: World, ghost before: seq<Event>) returns (outcome: Outcome, ghost steps: seq<Event>)
      requires Valid() && world.phase.Resting? && Reaches(start, before, world)
      modifies `world, journal, server
      ensures Valid() && world.phase.Resting? && Reaches(start, steps, world)
      ensures RunsOnce(old(journal.State()), journal.State(), room, working, ServerOf(old(server.receipts), old(server.revisions), room, a), a, outcome)
      ensures world.runs == old(world.runs) + Runs(old(journal.State()), a)
      ensures var job := Latest(old(journal.jobs), room);
              job.Some? && job.value.status.PublicationPending? ==> |world.finishes| == |old(world.finishes)| + 1
    {
      hide Good, Reaches, Publishes, Works;
      Advance(start, before, world, Started(room));
      steps := before + [Started(room)];
      var job := journal.LatestOf(room);
      ghost var next := Apply(world, Started(room));
      if job.Some? && job.value.status.DispatchIntent? {
        journal.BlockJob(job.value.id);
        world := next;
        return BlockedRoom, steps;
      }
      world := next;
      if job.Some? && job.value.status.Blocked? {
        return BlockedRoom, steps;
      }
      if job.Some? && job.value.status.PublicationPending? {
        PendingHasReview(world.journal.jobs, world, room);
        outcome, steps := Publish(a, start, steps);
        return;
      }
      if !working {
        steps := Step(start, steps, Crashed);
        return BlockedRoom, steps;
      }
      var proceed, lease, revision;
      proceed, lease, revision, outcome, steps := Claim(a, start, steps, job);
      if proceed {
        outcome, steps := Work(a, start, steps, lease, revision);
      }
    }

    /** The worker runs that one call adds: one, for a new batch whose intent is journalled. */
    ghost function Runs(j: Journal, a: Answers): multiset<JobId> {
      var job := Latest(j.jobs, room);
      if (job.None? || job.value.status.Accepted?) && working && NewBatch(a, job) && AllowsIntent(j, room, a.claim.value.value, a.fits)
      then multiset{NextId(j.jobs)} else multiset{}
    }

    /** A new batch, from its intent to its publication. */
    method Work(a: Answers, ghost start: World, ghost before: seq<Event>, lease: Lease, revision: int) returns (outcome: Outcome, ghost steps: seq<Event>)
      requires Valid() && world.phase == Reading(room, lease, revision) && Reaches(start, before, world)
      modifies `world, journal, server
      ensures Valid() && world.phase.Resting? && Reaches(start, steps, world)
      ensures Works(old(journal.State()), journal.State(), room, lease, revision, ServerOf(old(server.receipts), old(server.revisions), room, a), a, outcome)
      ensures world.runs == if AllowsIntent(old(journal.State()), room, lease, a.fits)
                            then old(world.runs) + multiset{NextId(old(journal.jobs))} else old(world.runs)
    {
      ghost var j := journal.State();
      assert Ascending(j.jobs);
      hide Good, Reaches, Publishes, Ascending, AllowsIntent, AllowsResult, Intend, StoreResult;
      var proceed, id;
      proceed, id, outcome, steps := Dispatch(a, start, before, lease, revision);
      if proceed {
        NewJobIsStored(j, room, lease, revision, a.fits, a.review.value);
        outcome, steps := StoreAndPublish(a, start, steps, id);
      }
    }

    /** Claim a batch and read the wiki; nothing durable changes. */
    method Claim(a: Answers, ghost start: World, ghost before: seq<Event>, job: Option<Job>)
      returns (proceed: bool, lease: Lease, revision: int, outcome: Outcome, ghost steps: seq<Event>)
      requires Valid() && world.phase == Claiming(room) && Reaches(start, before, world)
      requires job == Latest(journal.jobs, room)
      modifies `world
      ensures Valid() && Reaches(start, steps, world)
      ensures world.phase == if proceed then Reading(room, lease, revision) else Resting
      ensures world.runs == old(world.runs) && (proceed <==> NewBatch(a, job)) && (proceed ==> lease == a.claim.value.value)
      ensures !proceed ==> if a.claim == Some(None) then outcome.IdleRoom?
                           else if a.claim.Some? && job.Some? && job.value.lease == a.claim.value.value
                           then outcome == (if job.value.receipt.Some? then PublishedAt(job.value.receipt.value) else Unfinished)
                           else outcome.Unfinished?
      ensures proceed ==> revision == a.snapshot.value
    {
      hide Good, Reaches;
      lease, revision, outcome := Lease(0, 0, ""), 0, Unfinished;
      if a.claim.None? {
        steps := Step(start, before, Crashed);
        return false, lease, revision, outcome, steps;
      }
      steps := Step(start, before, Claimed(a.claim.value));
      if a.claim.value.None? {
        return false, lease, revision, IdleRoom, steps;
      }
      lease := a.claim.value.value;
      if job.Some? && job.value.lease == lease {
        outcome := if job.value.receipt.Some? then PublishedAt(job.value.receipt.value) else Unfinished;
        return false, lease, revision, outcome, steps;
      }
      if a.snapshot.None? {
        steps := Step(start, steps, Crashed);
        return false, lease, revision, outcome, steps;
      }
      revision := a.snapshot.value;
      steps := Step(start, steps, SnapshotRead(revision));
      proceed := true;
    }

    /** Journal the intent, then run the worker once; a failed worker blocks the job. */
    method Dispatch(a: Answers, ghost start: World, ghost before: seq<Event>, lease: Lease, revision: int)
      returns (proceed: bool, id: JobId, outcome: Outcome, ghost steps: seq<Event>)
      requires Valid() && world.phase == Reading(room, lease, revision) && Reaches(start, before, world)
      modifies `world, journal
      ensures Valid() && Reaches(start, steps, world)
      ensures if proceed then a.review.Some? && world.phase == Judged(room, id, a.review.value) else world.phase.Resting?
      ensures world.runs == if AllowsIntent(old(journal.State()), room, lease, a.fits)
                            then old(world.runs) + multiset{NextId(old(journal.jobs))} else old(world.runs)
      ensures var j, intended := old(journal.State()), Intend(old(journal.State()), room, lease, revision, a.fits);
              && (proceed <==> AllowsIntent(j, room, lease, a.fits) && a.review.Some?)
              && (proceed ==> id == NextId(j.jobs) && journal.State() == intended)
              && (!proceed ==>
                    if AllowsIntent(j, room, lease, a.fits) then journal.State() == Block(intended, NextId(j.jobs)) && outcome.BlockedRoom?
                    else journal.State() == j && outcome.Unfinished?)
    {
      hide Good, Reaches;
      Advance(start, before, world, Intended(a.fits));
      ghost var next := Apply(world, Intended(a.fits));
      var intent;
      intent, id := journal.Intent(room, lease, revision, a.fits);
      world := next;
      steps := before + [Intended(a.fits)];
      if intent.Refused? {
        return false, id, Unfinished, steps;
      }
      steps := Step(start, steps, Invoked);
      Advance(start, steps, world, Returned(a.review));
      next := Apply(world, Returned(a.review));
      steps := steps + [Returned(a.review)];
      if a.review.None? {
        journal.BlockJob(id);
        world := next;
        return false, id, BlockedRoom, steps;
      }
      world := next;
      return true, id, Unfinished, steps;
    }

    method StoreAndPublish(a: Answers, ghost start: World, ghost before: seq<Event>, id: JobId) returns (outcome: Outcome, ghost steps: seq<Event>)
      requires a.review.Some? && Valid() && world.phase == Judged(room, id, a.review.value) && Reaches(start, before, world)
      modifies `world, journal, server
      ensures Valid() && world.phase.Resting? && Reaches(start, steps, world) && world.runs == old(world.runs)
      ensures var stored := StoreResult(old(journal.State()), id, a.review.value);
              if AllowsResult(old(journal.State()), id, a.review.value)
              then var job := Latest(stored.jobs, room);
                   job.Some? && Publishes(stored, journal.State(), room, job.value,
                                          ServedFor(old(server.receipts), old(server.revisions), room, job.value.lease, a), a, outcome)
              else journal.State() == old(journal.State()) && outcome.Unfinished?
    {
      hide Good, Reaches, Publishes;
      Advance(start, before, world, Stored);
      steps := before + [Stored];
      ghost var judged := world;
      var stored := journal.Result(id, a.review.value);
      world := Apply(world, Stored);
      if stored.Refused? {
        return Unfinished, steps;
      }
      StoredIsLatest(judged);
      outcome, steps := Publish(a, start, steps);
    }

    /** A step that leaves journal and server alone. */
    ghost method Step(start: World, steps: seq<Event>, e: Event) returns (longer: seq<Event>)
      requires Valid() && Reaches(start, steps, world) && Enabled(world, e)
      requires e.Crashed? || e.Claimed? || e.SnapshotRead? || e.Invoked?
      modifies `world
      ensures Valid() && world == Apply(old(world), e) && longer == steps + [e] && Reaches(start, longer, world)
    {
      hide Good, Reaches;
      Advance(start, steps, world, e);
      world := Apply(world, e);
      longer := steps + [e];
    }
  }

  /** The latest job of a room, if pending, has a review to publish. */
  lemma PendingHasReview(jobs: Jobs, w: World, room: string)
    requires Good(w) && w.journal.jobs == jobs && Latest(jobs, room).Some? && Latest(jobs, room).value.status.PublicationPending?
    ensures PublishLatest(w.journal, room).Publishing?
  {
    LatestMeans(jobs, room);
  }

  lemma AnsweredIsPending(w: World)
    requires Good(w) && w.phase.Answered?
    ensures HasJob(w.journal.jobs, w.phase.id, PublicationPending)
  {
    var p :| p in w.journal.jobs && p.room == w.phase.room && p.id == w.phase.id && p.status.PublicationPending?;
    var k :| 0 <= k < |w.journal.jobs| && w.journal.jobs[k] == p;
  }

  /** The pending job of a publication, and when its receipt verifies. */
  lemma PendingIsKnown(w: World, room: string)
    requires Good(w) && w.phase == PublishLatest(w.journal, room) && w.phase.Publishing?
    ensures var job := Latest(w.journal.jobs, room).value;
            job.snapshotRevision.Some? && forall receipt ::
              Verified(w.journal.jobs, job.id, receipt) <==> receipt == job.snapshotRevision.value || receipt == job.snapshotRevision.value + 1
  {
    LatestMeans(w.journal.jobs, room);
    var job := Latest(w.journal.jobs, room).value;
    assert RowOk(job);
    TheRow(w.journal.jobs, job);
    var k :| 0 <= k < |w.journal.jobs| && w.journal.jobs[k] == job;
  }

  /** A journalled batch, once its result is stored, is the room's latest job. */
  lemma NewJobIsStored(j: Journal, room: string, lease: Lease, revision: int, fits: bool, review: Review)
    requires Ascending(j.jobs) && AllowsIntent(j, room, lease, fits)
    ensures var id, intended := NextId(j.jobs), Intend(j, room, lease, revision, fits);
            AllowsResult(intended, id, review) ==>
              Latest(StoreResult(intended, id, review).jobs, room) == Some(Job(id, room, lease, PublicationPending, Some(revision), Some(review), None))
  {
    var id, intended := NextId(j.jobs), Intend(j, room, lease, revision, fits);
    var stored := Reviewed(intended.jobs, id, review);
    var n := |j.jobs|;
    assert stored[n] == Job(id, room, lease, PublicationPending, Some(revision), Some(review), None);
    assert stored[|stored| - 1] == stored[n];
    hide Conflicts, RoutesFit, HasJob, WithRoutes;
  }
}
