/**
  The cache agrees with the model: over every run of prepare, acknowledge and reset, what
  WikiPages.Context believes was injected is what the model holds.
 */
module WikiAgreement {
  import opened Common
  import opened WikiDeltas
  import opened WikiPages
  import WikiOffers

  type Offer = seq<(Slug, Option<Page>)>
  type Offers = map<PacketId, Offer>
  type Latest = map<Slug, PacketId>

  /** The change meets its base in the model and leads to the version the offer names. */
  predicate Sound(model: Model, change: Change) {
    && MeetsBase(model, change)
    && match change
       case Bootstrap(_, title, revision, sources, hash, body) => hash.of == Page(title, revision, sources, body)
       case Delta(slug, title, revision, sources, hash, _, _, sections) =>
         hash.of == Page(title, revision, sources, Patch(model[slug].body, sections))
       case Removed(_, _, _, _) => true
  }

  predicate DistinctSlugs(changes: seq<Change>) {
    forall i, j :: 0 <= i < j < |changes| ==> changes[i].slug != changes[j].slug
  }

  /** The cache holds each page once, at most `maxPages`, each exactly as the model does. */
  ghost predicate CacheOk(injected: seq<Entry>, maxPages: nat, model: Model) {
    && |injected| <= maxPages
    && (forall i, j :: 0 <= i < j < |injected| ==> injected[i].slug != injected[j].slug)
    && (forall i :: 0 <= i < |injected| ==> injected[i].slug in model && model[injected[i].slug] == injected[i].page)
  }

  predicate OfferOk(id: PacketId, offer: Offer) {
    id.of.changes != [] && DistinctSlugs(id.of.changes) && offer == OfferedBy(id.of.changes)
  }

  /** Latest offers and pending offers name each other, and together fit the page limit. */
  ghost predicate OffersOk(pending: Offers, latest: Latest, maxPages: nat) {
    && |latest.Keys| <= maxPages
    && (forall id :: id in pending ==> OfferOk(id, pending[id]) && id in latest.Values)
    && (forall s :: s in latest ==> latest[s] in pending && s in SlugsOf(pending[latest[s]]))
  }

  predicate AllSound(model: Model, changes: seq<Change>) {
    forall k :: 0 <= k < |changes| ==> Sound(model, changes[k])
  }

  predicate IsLatest(id: PacketId, offer: Offer, latest: Latest) {
    forall s :: s in SlugsOf(offer) ==> s in latest && latest[s] == id
  }

  /** Every offer that could still be acknowledged meets its bases. */
  ghost predicate PendingSound(pending: Offers, latest: Latest, model: Model) {
    forall id :: id in pending && IsLatest(id, pending[id], latest) ==> AllSound(model, id.of.changes)
  }

  ghost predicate Agrees(c: Context, model: Model) {
    && CacheOk(c.injected, c.maxPages, model)
    && OffersOk(c.pending, c.latest, c.maxPages)
    && PendingSound(c.pending, c.latest, model)
  }

  // ---- Preparing ----

  lemma {:induction false} FoundIsCached(injected: seq<Entry>, slug: Slug)
    ensures Find(injected, slug).Some? <==> exists i :: 0 <= i < |injected| && injected[i].slug == slug
    ensures Find(injected, slug).Some? ==>
              exists i :: 0 <= i < |injected| && injected[i] == Entry(slug, Find(injected, slug).value)
  {
    if injected != [] {
      FoundIsCached(injected[1..], slug);
      if Find(injected[1..], slug).Some? {
        var i :| 0 <= i < |injected[1..]| && injected[1..][i] == Entry(slug, Find(injected[1..], slug).value);
        assert injected[i + 1] == injected[1..][i];
      }
      if i :| 0 <= i < |injected| && injected[i].slug == slug {
        assert i > 0 ==> injected[1..][i - 1] == injected[i];
      }
    }
  }

  lemma ChangeIsSound(c: Context, model: Model, snapshot: Snapshot, diff: Differ, slug: Slug)
    requires Trusted(diff) && CacheOk(c.injected, c.maxPages, model)
    ensures var r := ChangeFor(c, snapshot, diff, slug);
            r.Ok? && r.value.Some? ==> r.value.value.slug == slug && Sound(model, r.value.value)
  {
    FoundIsCached(c.injected, slug);
    var indexed, previous := Indexed(snapshot.pages), Find(c.injected, slug);
    if slug in indexed && previous.Some? {
      var ops := OpsOf(diff, previous.value, indexed[slug]);
      assert Tiles(diff(SplitLines(previous.value.body), SplitLines(indexed[slug].body)), SplitLines(previous.value.body), SplitLines(indexed[slug].body));
      DeltaRoundTrip(previous.value.body, indexed[slug].body, ops);
    }
  }

  lemma {:induction false} ChangesAreSound(c: Context, model: Model, snapshot: Snapshot, diff: Differ, requested: seq<Slug>)
    requires Trusted(diff) && CacheOk(c.injected, c.maxPages, model)
    requires forall i, j :: 0 <= i < j < |requested| ==> requested[i] != requested[j]
    ensures var r := ChangesFor(c, snapshot, diff, requested);
            r.Ok? ==> AllSound(model, r.value) && DistinctSlugs(r.value)
                      && forall k :: 0 <= k < |r.value| ==> r.value[k].slug in requested
  {
    if requested != [] {
      var n := |requested| - 1;
      ChangesAreSound(c, model, snapshot, diff, requested[..n]);
      ChangeIsSound(c, model, snapshot, diff, requested[n]);
      hide Sound, ChangeFor;
      assert forall s :: s in requested[..n] ==> s in requested && s != requested[n];
    }
  }

  lemma SlugsOfOffered(changes: seq<Change>)
    ensures forall s :: s in SlugsOf(OfferedBy(changes)) <==> exists k :: 0 <= k < |changes| && changes[k].slug == s
  {
    var offer := OfferedBy(changes);
    forall k | 0 <= k < |changes| ensures changes[k].slug in SlugsOf(offer) {
      assert offer[k].0 == changes[k].slug;
    }
  }

  lemma RecordKeepsOffers(c: Context, packet: Packet)
    requires OffersOk(c.pending, c.latest, c.maxPages)
    requires packet.changes != [] && DistinctSlugs(packet.changes)
    requires |c.latest.Keys + SlugsOf(OfferedBy(packet.changes))| <= c.maxPages
    ensures OffersOk(Record(c, packet).pending, Record(c, packet).latest, c.maxPages)
  {
    SlugsOfOffered(packet.changes);
    assert packet.changes[0].slug in SlugsOf(OfferedBy(packet.changes));
    assert OfferOk(Digest(packet), OfferedBy(packet.changes));
    hide SlugsOf, OfferedBy, DistinctSlugs;
    NewOfferFits(c, Digest(packet), OfferedBy(packet.changes));
  }

  lemma NewOfferFits(c: Context, id: PacketId, offer: Offer)
    requires OffersOk(c.pending, c.latest, c.maxPages) && SlugsOf(offer) != {}
    requires OfferOk(id, offer)
    requires |c.latest.Keys + SlugsOf(offer)| <= c.maxPages
    ensures var latest := LatestWith(c.latest, SlugsOf(offer), id);
            OffersOk(Surviving(c.pending[id := offer], latest), latest, c.maxPages)
  {
    hide SlugsOf, OfferOk;
    var all, latest := c.pending[id := offer], LatestWith(c.latest, SlugsOf(offer), id);
    assert latest.Keys == c.latest.Keys + SlugsOf(offer);
    assert id in c.pending ==> c.pending[id] == offer by {
      assert id in c.pending ==> OfferOk(id, c.pending[id]);
      SameOffer(id, offer);
    }
    NamedBy(c, id, offer);
    SurvivorsNamed(all, latest);
    hide Surviving, LatestWith;
    forall other | other in all ensures OfferOk(other, all[other]) {}
  }

  lemma SameOffer(id: PacketId, offer: Offer)
    requires OfferOk(id, offer)
    ensures forall other: Offer :: OfferOk(id, other) ==> other == offer
  {
  }

  /** With the new offer entered, every latest offer is pending and offers its slug. */
  lemma NamedBy(c: Context, id: PacketId, offer: Offer)
    requires OffersOk(c.pending, c.latest, c.maxPages) && (id in c.pending ==> c.pending[id] == offer)
    ensures var latest := LatestWith(c.latest, SlugsOf(offer), id);
            forall s :: s in latest ==> latest[s] in c.pending[id := offer] && s in SlugsOf(c.pending[id := offer][latest[s]])
  {
    hide SlugsOf;
  }

  /** What survives is exactly what some slug's latest offer names. */
  lemma SurvivorsNamed(pending: Offers, latest: Latest)
    requires forall s :: s in latest ==> latest[s] in pending && s in SlugsOf(pending[latest[s]])
    ensures var kept := Surviving(pending, latest);
            && (forall s :: s in latest ==> latest[s] in kept && s in SlugsOf(kept[latest[s]]))
            && (forall id :: id in kept ==> id in pending && kept[id] == pending[id] && id in latest.Values)
  {
    hide SlugsOf;
    forall s | s in latest ensures latest[s] in Surviving(pending, latest) {
      assert latest[s] in latest.Values;
    }
  }

  lemma RecordKeepsSound(c: Context, packet: Packet, model: Model)
    requires OffersOk(c.pending, c.latest, c.maxPages) && PendingSound(c.pending, c.latest, model)
    requires AllSound(model, packet.changes)
    ensures PendingSound(Record(c, packet).pending, Record(c, packet).latest, model)
  {
    var v, offer := Record(c, packet), OfferedBy(packet.changes);
    forall id | id in v.pending && IsLatest(id, v.pending[id], v.latest) ensures AllSound(model, id.of.changes) {
      if id != Digest(packet) {
        assert v.pending[id] == c.pending[id];
        assert forall s :: s in SlugsOf(c.pending[id]) ==> s !in SlugsOf(offer);
        assert IsLatest(id, c.pending[id], c.latest);
      }
    }
  }

  lemma PreparedAgrees(c: Context, model: Model, snapshot: Snapshot, slugs: seq<Slug>, maxChars: int, diff: Differ, size: Packet -> nat)
    requires Trusted(diff) && Agrees(c, model)
    ensures Agrees(Prepared(c, snapshot, slugs, maxChars, diff, size).0, model)
  {
    var (v, outcome) := Prepared(c, snapshot, slugs, maxChars, diff, size);
    if outcome.Offered? {
      WikiOffers.UniqueMeans(slugs);
      ChangesAreSound(c, model, snapshot, diff, Unique(slugs));
      hide AllSound, DistinctSlugs, ChangesFor, CacheOk;
      RecordKeepsOffers(c, outcome.packet);
      RecordKeepsSound(c, outcome.packet, model);
    }
  }

  // ---- Acknowledging ----

  /** The model holds the offered version of the slug, or nothing for a removal. */
  predicate Holds(model: Model, slug: Slug, version: Option<Page>) {
    if version.None? then slug !in model else slug in model && model[slug] == version.value
  }

  predicate SameAt(m: Model, n: Model, slug: Slug) {
    (slug in m <==> slug in n) && (slug in m ==> m[slug] == n[slug])
  }

  lemma {:induction false} ReadingElsewhere(model: Model, changes: seq<Change>, slug: Slug)
    requires forall k :: 0 <= k < |changes| ==> changes[k].slug != slug
    ensures SameAt(ReadAll(model, changes), model, slug)
  {
    if changes != [] {
      ReadingElsewhere(model, changes[..|changes| - 1], slug);
    }
  }

  /** A change sound for `model` does the same to any context that agrees with it on the slug. */
  lemma ReadingOne(model: Model, before: Model, change: Change)
    requires Sound(model, change) && SameAt(before, model, change.slug)
    ensures MeetsBase(before, change) && Holds(Read(before, change), change.slug, Target(change))
  {
  }

  lemma {:induction false} ReadingChange(model: Model, changes: seq<Change>, k: nat)
    requires AllSound(model, changes) && DistinctSlugs(changes) && k < |changes|
    ensures MeetsBase(ReadAll(model, changes[..k]), changes[k])
    ensures Holds(ReadAll(model, changes), changes[k].slug, Target(changes[k]))
    decreases |changes|
  {
    var n := |changes| - 1;
    var before := ReadAll(model, changes[..n]);
    if k < n {
      ReadingChange(model, changes[..n], k);
      assert changes[..n][..k] == changes[..k];
      ReadingElsewhere(before, [changes[n]], changes[k].slug);
      assert ReadAll(before, [changes[n]]) == Read(before, changes[n]);
    } else {
      ReadingElsewhere(model, changes[..n], changes[n].slug);
      assert Sound(model, changes[n]);
      ReadingOne(model, before, changes[n]);
    }
  }

  /** Reading a packet of sound changes on distinct slugs: each meets its base in its turn. */
  lemma ReadingSoundChanges(model: Model, changes: seq<Change>)
    requires AllSound(model, changes) && DistinctSlugs(changes)
    ensures forall k :: 0 <= k < |changes| ==> MeetsBase(ReadAll(model, changes[..k]), changes[k])
    ensures forall s :: s !in SlugsOf(OfferedBy(changes)) ==> SameAt(ReadAll(model, changes), model, s)
    ensures forall k :: 0 <= k < |changes| ==> Holds(ReadAll(model, changes), changes[k].slug, Target(changes[k]))
  {
    forall k | 0 <= k < |changes|
      ensures MeetsBase(ReadAll(model, changes[..k]), changes[k])
      ensures Holds(ReadAll(model, changes), changes[k].slug, Target(changes[k]))
    {
      ReadingChange(model, changes, k);
    }
    SlugsOfOffered(changes);
    forall s | s !in SlugsOf(OfferedBy(changes)) ensures SameAt(ReadAll(model, changes), model, s) {
      ReadingElsewhere(model, changes, s);
    }
  }

  lemma {:induction false} WithoutMeans(injected: seq<Entry>, slug: Slug)
    requires forall i, j :: 0 <= i < j < |injected| ==> injected[i].slug != injected[j].slug
    ensures var rest := Without(injected, slug);
            && (forall i, j :: 0 <= i < j < |rest| ==> rest[i].slug != rest[j].slug)
            && (forall e :: e in rest <==> e in injected && e.slug != slug)
  {
    if injected != [] {
      WithoutMeans(injected[1..], slug);
      assert forall e :: e in injected <==> e == injected[0] || e in injected[1..];
    }
  }

  /** What placing an offer into the cache leaves: the offered versions, and the rest untouched. */
  lemma {:induction false} PlaceAllMeans(injected: seq<Entry>, offer: Offer)
    requires forall i, j :: 0 <= i < j < |injected| ==> injected[i].slug != injected[j].slug
    requires forall i, j :: 0 <= i < j < |offer| ==> offer[i].0 != offer[j].0
    ensures var placed := PlaceAll(injected, offer);
            && (forall i, j :: 0 <= i < j < |placed| ==> placed[i].slug != placed[j].slug)
            && (forall e :: e in placed <==>
                  (e in injected && e.slug !in SlugsOf(offer)) || (e.slug, Some(e.page)) in offer)
  {
    if offer != [] {
      var n := |offer| - 1;
      PlaceAllMeans(injected, offer[..n]);
      WithoutMeans(PlaceAll(injected, offer[..n]), offer[n].0);
      assert SlugsOf(offer) == SlugsOf(offer[..n]) + {offer[n].0} by {
        assert forall k :: 0 <= k < n ==> offer[k] == offer[..n][k];
        assert offer[n].0 in SlugsOf(offer);
      }
      assert forall o :: o in offer <==> o in offer[..n] || o == offer[n];
      assert forall o :: o in offer[..n] ==> o.0 != offer[n].0;
    }
  }

  /** The entries of other slugs, in their order. */
  function Others(injected: seq<Entry>, slugs: set<Slug>): seq<Entry> {
    if injected == [] then []
    else Others(injected[..|injected| - 1], slugs) + if injected[|injected| - 1].slug in slugs then [] else [injected[|injected| - 1]]
  }

  /** The offered pages, in the order of the offer. */
  function PagesOf(offer: Offer): seq<Entry> {
    if offer == [] then []
    else
      var last := offer[|offer| - 1];
      PagesOf(offer[..|offer| - 1]) + if last.1.Some? then [Entry(last.0, last.1.value)] else []
  }

  /** Offered pages move to the end of the cache, in order; all others keep theirs. So the first to go are the longest unread. */
  lemma {:induction false} PlacedAtTheEnd(injected: seq<Entry>, offer: Offer)
    requires forall i, j :: 0 <= i < j < |offer| ==> offer[i].0 != offer[j].0
    ensures PlaceAll(injected, offer) == Others(injected, SlugsOf(offer)) + PagesOf(offer)
  {
    if offer == [] {
      assert SlugsOf(offer) == {};
      NoOthers(injected);
    } else {
      var n := |offer| - 1;
      var before, last := offer[..n], offer[n];
      PlacedAtTheEnd(injected, before);
      MoreSlugs(offer);
      PlacedOne(Others(injected, SlugsOf(before)), PagesOf(before), last.0, last.1);
      WithoutOthers(injected, SlugsOf(before), last.0);
      WithoutPages(before, last.0);
      hide Others, Without, SlugsOf, Place;
    }
  }

  lemma MoreSlugs(offer: Offer)
    requires offer != []
    ensures SlugsOf(offer) == SlugsOf(offer[..|offer| - 1]) + {offer[|offer| - 1].0}
  {
    var n := |offer| - 1;
    assert forall k :: 0 <= k < n ==> offer[k] == offer[..n][k];
    assert offer[n].0 in SlugsOf(offer);
  }

  lemma PlacedOne(others: seq<Entry>, pages: seq<Entry>, slug: Slug, page: Option<Page>)
    ensures Place(others + pages, slug, page)
            == Without(others, slug) + (Without(pages, slug) + if page.Some? then [Entry(slug, page.value)] else [])
  {
    WithoutConcat(others, pages, slug);
    hide Without;
  }

  lemma {:induction false} NoOthers(injected: seq<Entry>)
    ensures Others(injected, {}) == injected
  {
    if injected != [] {
      NoOthers(injected[..|injected| - 1]);
    }
  }

  lemma {:induction false} WithoutConcat(a: seq<Entry>, b: seq<Entry>, slug: Slug)
    ensures Without(a + b, slug) == Without(a, slug) + Without(b, slug)
  {
    if a == [] {
      assert a + b == b;
    } else {
      assert (a + b)[1..] == a[1..] + b;
      WithoutConcat(a[1..], b, slug);
    }
  }

  lemma {:induction false} WithoutOthers(injected: seq<Entry>, slugs: set<Slug>, slug: Slug)
    ensures Without(Others(injected, slugs), slug) == Others(injected, slugs + {slug})
  {
    if injected != [] {
      var n := |injected| - 1;
      WithoutOthers(injected[..n], slugs, slug);
      var last := if injected[n].slug in slugs then [] else [injected[n]];
      WithoutConcat(Others(injected[..n], slugs), last, slug);
      assert last != [] ==> last[1..] == [];
    }
  }

  lemma {:induction false} WithoutPages(offer: Offer, slug: Slug)
    requires forall k :: 0 <= k < |offer| ==> offer[k].0 != slug
    ensures Without(PagesOf(offer), slug) == PagesOf(offer)
  {
    if offer != [] {
      var n := |offer| - 1;
      WithoutPages(offer[..n], slug);
      var last := if offer[n].1.Some? then [Entry(offer[n].0, offer[n].1.value)] else [];
      WithoutConcat(PagesOf(offer[..n]), last, slug);
      assert last != [] ==> last[1..] == [];
    }
  }

  /** An acknowledgement counts exactly for this room and context, and for a pending offer that is the latest of all its slugs. */
  lemma AcknowledgedIff(c: Context, id: PacketId, room: string, contextId: string)
    ensures var (after, done) := Acknowledged(c, id, room, contextId);
            && (done <==>
                  && room == c.room && contextId == c.contextId && id in c.pending
                  && forall k :: 0 <= k < |c.pending[id]| ==> c.pending[id][k].0 in c.latest && c.latest[c.pending[id][k].0] == id)
            && (!done ==> after == c)
  {
    if id in c.pending {
      assert forall k :: 0 <= k < |c.pending[id]| ==> c.pending[id][k].0 in SlugsOf(c.pending[id]);
    }
  }

  /** An offer is superseded by any later one that names one of its slugs, and then never acknowledged. */
  lemma SupersededIsRefused(c: Context, packet: Packet, id: PacketId, slug: Slug, room: string, contextId: string)
    requires id in c.pending && slug in SlugsOf(c.pending[id]) && slug in SlugsOf(OfferedBy(packet.changes)) && id != Digest(packet)
    ensures var later := Record(c, packet); Acknowledged(later, id, room, contextId) == (later, false)
  {
  }

  lemma AckKeepsCache(c: Context, model: Model, changes: seq<Change>)
    requires CacheOk(c.injected, c.maxPages, model) && AllSound(model, changes) && DistinctSlugs(changes)
    ensures CacheOk(Evict(PlaceAll(c.injected, OfferedBy(changes)), c.maxPages), c.maxPages, ReadAll(model, changes))
  {
    var offer, after := OfferedBy(changes), ReadAll(model, changes);
    var placed := PlaceAll(c.injected, offer);
    PlaceAllMeans(c.injected, offer);
    ReadingSoundChanges(model, changes);
    forall i | 0 <= i < |placed| ensures placed[i].slug in after && after[placed[i].slug] == placed[i].page {
      var e := placed[i];
      if (e.slug, Some(e.page)) in offer {
        var k :| 0 <= k < |offer| && offer[k] == (e.slug, Some(e.page));
        assert Holds(after, changes[k].slug, Target(changes[k]));
      } else {
        var j :| 0 <= j < |c.injected| && c.injected[j] == e;
      }
    }
  }

  /** Other offers that are still acknowledgeable share no slug with this one. */
  lemma AckKeepsOffers(c: Context, id: PacketId)
    requires OffersOk(c.pending, c.latest, c.maxPages) && Ackable(c, id)
    ensures OffersOk(c.pending - {id}, c.latest - SlugsOf(c.pending[id]), c.maxPages)
  {
    var pending, latest := c.pending - {id}, c.latest - SlugsOf(c.pending[id]);
    SubsetSize(latest.Keys, c.latest.Keys);
    forall other | other in pending ensures other in latest.Values {
      var s :| s in c.latest && c.latest[s] == other;
      assert s in latest && latest[s] == other;
    }
  }

  lemma AckKeepsSound(c: Context, id: PacketId, model: Model)
    requires OffersOk(c.pending, c.latest, c.maxPages) && PendingSound(c.pending, c.latest, model) && Ackable(c, id)
    ensures PendingSound(c.pending - {id}, c.latest - SlugsOf(c.pending[id]), ReadAll(model, id.of.changes))
  {
    var pending, latest := c.pending - {id}, c.latest - SlugsOf(c.pending[id]);
    var after := ReadAll(model, id.of.changes);
    assert IsLatest(id, c.pending[id], c.latest);
    ReadingSoundChanges(model, id.of.changes);
    forall other | other in pending && IsLatest(other, pending[other], latest)
      ensures AllSound(after, other.of.changes)
    {
      assert IsLatest(other, c.pending[other], c.latest);
      SlugsOfOffered(other.of.changes);
      forall k | 0 <= k < |other.of.changes| ensures Sound(after, other.of.changes[k]) {
        assert Sound(model, other.of.changes[k]);
        assert other.of.changes[k].slug in SlugsOf(pending[other]);
      }
    }
  }

  /**
    A successful acknowledgement: every change met exactly the base it was computed from, the model
    now holds the offered version of every slug in the packet, and the cache still agrees.
   */
  lemma AcknowledgedAgrees(c: Context, model: Model, id: PacketId, room: string, contextId: string)
    requires Agrees(c, model)
    ensures var (v, done) := Acknowledged(c, id, room, contextId);
            if done then
              && Agrees(v, ReadAll(model, id.of.changes))
              && (forall k :: 0 <= k < |id.of.changes| ==> MeetsBase(ReadAll(model, id.of.changes[..k]), id.of.changes[k]))
              && (forall k :: 0 <= k < |id.of.changes| ==>
                    Holds(ReadAll(model, id.of.changes), id.of.changes[k].slug, Target(id.of.changes[k])))
            else v == c
  {
    var (v, done) := Acknowledged(c, id, room, contextId);
    if done {
      assert IsLatest(id, c.pending[id], c.latest);
      AckKeepsCache(c, model, id.of.changes);
      AckKeepsOffers(c, id);
      AckKeepsSound(c, id, model);
      ReadingSoundChanges(model, id.of.changes);
    }
  }

  // ---- All runs ----

  datatype Step =
    | Prepare(snapshot: Snapshot, slugs: seq<Slug>, maxChars: int)
    | Acknowledge(id: PacketId, room: string, contextId: string)
    | Reset(contextId: string)

  /** The cache and the model after a run; a reset starts an empty model context. */
  ghost function After(start: Context, run: seq<Step>, diff: Differ, size: Packet -> nat): (Context, Model)
    requires Trusted(diff)
  {
    if run == [] then (start, map[])
    else
      var (c, model) := After(start, run[..|run| - 1], diff, size);
      match run[|run| - 1]
      case Prepare(snapshot, slugs, maxChars) => (Prepared(c, snapshot, slugs, maxChars, diff, size).0, model)
      case Acknowledge(id, room, contextId) =>
        var (v, done) := Acknowledged(c, id, room, contextId);
        (v, if done then ReadAll(model, id.of.changes) else model)
      case Reset(contextId) => (ResetTo(c, contextId), map[])
  }

  function Empty(room: string, contextId: string, maxPages: nat): Context {
    Context(room, contextId, maxPages, 0, [], map[], map[])
  }

  lemma {:induction false} CacheAgreesWithModel(room: string, contextId: string, maxPages: nat, run: seq<Step>, diff: Differ, size: Packet -> nat)
    requires Trusted(diff)
    ensures var (c, model) := After(Empty(room, contextId, maxPages), run, diff, size);
            c.maxPages == maxPages && Agrees(c, model)
  {
    if run != [] {
      CacheAgreesWithModel(room, contextId, maxPages, run[..|run| - 1], diff, size);
      var (c, model) := After(Empty(room, contextId, maxPages), run[..|run| - 1], diff, size);
      hide Agrees;
      match run[|run| - 1] {
        case Prepare(snapshot, slugs, maxChars) => PreparedAgrees(c, model, snapshot, slugs, maxChars, diff, size);
        case Acknowledge(id, r, x) => AcknowledgedAgrees(c, model, id, r, x);
        case Reset(x) => EmptyAgrees(ResetTo(c, x));
      }
    } else {
      EmptyAgrees(Empty(room, contextId, maxPages));
    }
  }

  lemma EmptyAgrees(c: Context)
    requires c.injected == [] && c.pending == map[] && c.latest == map[]
    ensures Agrees(c, map[])
  {
    assert c.latest.Keys == {};
  }

  // ---- Resets ----

  /** Pending offers are of the current generation, and no offer is of a later one. */
  ghost predicate OffersOfGeneration(c: Context) {
    forall id :: id in c.pending ==> id.of.generation == c.generation
  }

  lemma {:induction false} GenerationsGrow(start: Context, run: seq<Step>, more: seq<Step>, diff: Differ, size: Packet -> nat)
    requires Trusted(diff) && start.pending == map[]
    ensures OffersOfGeneration(After(start, run + more, diff, size).0)
    ensures After(start, run, diff, size).0.generation <= After(start, run + more, diff, size).0.generation
    decreases |run| + |more|
  {
    var whole := run + more;
    if more != [] {
      var n := |more| - 1;
      assert whole[..|whole| - 1] == run + more[..n];
      GenerationsGrow(start, run, more[..n], diff, size);
      OneGeneration(start, whole, diff, size);
    } else if run != [] {
      assert whole == run && run[..|run| - 1] + [] == run[..|run| - 1];
      GenerationsGrow(start, run[..|run| - 1], [], diff, size);
      OneGeneration(start, run, diff, size);
    } else {
      assert whole == [];
    }
  }

  lemma OneGeneration(start: Context, run: seq<Step>, diff: Differ, size: Packet -> nat)
    requires Trusted(diff) && run != [] && OffersOfGeneration(After(start, run[..|run| - 1], diff, size).0)
    ensures OffersOfGeneration(After(start, run, diff, size).0)
    ensures After(start, run[..|run| - 1], diff, size).0.generation <= After(start, run, diff, size).0.generation
  {
    hide ChangesFor, PlaceAll, Evict, SlugsOf, LatestWith, ReadAll, Unique;
  }

  /**
    A reset fences every offer made before it: whatever happens afterwards, even with the same context
    id, such an offer is never acknowledged.
   */
  lemma ResetFencesOldOffers(start: Context, run: seq<Step>, contextId: string, more: seq<Step>, id: PacketId, room: string, diff: Differ, size: Packet -> nat)
    requires Trusted(diff) && start.pending == map[] && id in After(start, run, diff, size).0.pending
    ensures var (c, _) := After(start, run + [Reset(contextId)] + more, diff, size);
            Acknowledged(c, id, room, contextId) == (c, false)
  {
    var reset := run + [Reset(contextId)];
    GenerationsGrow(start, run, [], diff, size);
    assert run + [] == run && reset[..|run|] == run;
    GenerationsGrow(start, reset, more, diff, size);
    hide Prepared, Trusted;
  }

  // ---- Bounds ----

  /** Superseded offers never pile up: there are at most as many pending offers as pages allowed. */
  lemma PendingIsBounded(c: Context, model: Model)
    requires Agrees(c, model)
    ensures |c.pending.Keys| <= c.maxPages
  {
    ValuesFit(c.latest);
    assert c.pending.Keys <= c.latest.Values;
    SubsetSize(c.pending.Keys, c.latest.Values);
  }

  lemma {:induction false} ValuesFit(latest: Latest)
    ensures |latest.Values| <= |latest.Keys|
    decreases |latest.Keys|
  {
    if latest.Keys == {} {
      assert latest.Values == {};
    } else {
      var s :| s in latest.Keys;
      var rest := latest - {s};
      assert rest.Keys == latest.Keys - {s};
      ValuesFit(rest);
      assert latest.Values == rest.Values + {latest[s]} by {
        forall id | id in latest.Values ensures id in rest.Values + {latest[s]} {
          var t :| t in latest && latest[t] == id;
          assert t == s || (t in rest && rest[t] == id);
        }
      }
    }
  }
}
