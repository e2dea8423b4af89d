/**
  What the reader's page selection (wiki_reader.py, `prepare`) achieves with the cache, and where a
  retraction does not reach the model.
 */
module WikiReading {
  import opened Common
  import opened WikiDeltas
  import opened WikiPages
  import WikiOffers
  import opened WikiAgreement

  function PageSlugs(pages: seq<(Slug, Page)>): seq<Slug> {
    seq(|pages|, k requires 0 <= k < |pages| => pages[k].0)
  }

  function CachedOf(slugs: seq<Slug>, injected: seq<Entry>): seq<Slug> {
    if slugs == [] then []
    else (if Find(injected, slugs[0]).Some? then [slugs[0]] else []) + CachedOf(slugs[1..], injected)
  }

  /** Every page of the snapshot, and the missing ones the cache still holds. */
  function Selected(c: Context, snapshot: Snapshot): seq<Slug> {
    PageSlugs(snapshot.pages) + CachedOf(snapshot.missing, c.injected)
  }

  lemma {:induction false} CachedOfMeans(slugs: seq<Slug>, injected: seq<Entry>)
    ensures forall s :: s in CachedOf(slugs, injected) <==> s in slugs && Find(injected, s).Some?
  {
    if slugs != [] {
      CachedOfMeans(slugs[1..], injected);
    }
  }

  lemma {:induction false} IndexedExactly(pages: seq<(Slug, Page)>)
    ensures forall s :: s in Indexed(pages) <==> s in PageSlugs(pages)
  {
    if pages != [] {
      var n := |pages| - 1;
      IndexedExactly(pages[..n]);
      assert PageSlugs(pages) == PageSlugs(pages[..n]) + [pages[n].0];
    }
  }

  /** Among the changes for a request, exactly the slugs that need one have one. */
  lemma {:induction false} ChangedExactly(c: Context, snapshot: Snapshot, diff: Differ, requested: seq<Slug>, slug: Slug)
    requires Trusted(diff) && ChangesFor(c, snapshot, diff, requested).Ok? && slug in requested
    ensures var one := ChangeFor(c, snapshot, diff, slug);
            one.Ok? && (one.value.Some? ==> one.value.value in ChangesFor(c, snapshot, diff, requested).value)
    ensures (exists change :: change in ChangesFor(c, snapshot, diff, requested).value && change.slug == slug)
            <== ChangeFor(c, snapshot, diff, slug).Ok? && ChangeFor(c, snapshot, diff, slug).value.Some?
  {
    var n := |requested| - 1;
    hide Trusted, Find, Indexed;
    if slug in requested[..n] {
      ChangedExactly(c, snapshot, diff, requested[..n], slug);
    } else {
      assert requested[n] == slug;
    }
  }

  lemma {:induction false} NoOtherSlugs(c: Context, snapshot: Snapshot, diff: Differ, requested: seq<Slug>, change: Change)
    requires Trusted(diff) && ChangesFor(c, snapshot, diff, requested).Ok?
    requires change in ChangesFor(c, snapshot, diff, requested).value
    ensures ChangeFor(c, snapshot, diff, change.slug) == Ok(Some(change)) && change.slug in requested
  {
    var n := |requested| - 1;
    hide Trusted, Find, Indexed;
    if ChangesFor(c, snapshot, diff, requested[..n]).Ok? && change in ChangesFor(c, snapshot, diff, requested[..n]).value {
      NoOtherSlugs(c, snapshot, diff, requested[..n], change);
    }
  }

  /**
    CURRENT means current: when the reader's selection needs no packet, the model holds every page
    of the snapshot at the snapshot's version, and the cache holds no page the snapshot misses.
   */
  lemma CurrentIsUpToDate(c: Context, model: Model, snapshot: Snapshot, diff: Differ, size: Packet -> nat, maxChars: int)
    requires Trusted(diff) && Agrees(c, model)
    requires Prepared(c, snapshot, Selected(c, snapshot), maxChars, diff, size).1 == Current
    ensures forall s :: s in Indexed(snapshot.pages) ==> s in model && model[s] == Indexed(snapshot.pages)[s]
    ensures forall s :: s in snapshot.missing && s !in Indexed(snapshot.pages) ==> Find(c.injected, s).None?
  {
    hide Trusted, Agrees;
    WikiOffers.UniqueMeans(Selected(c, snapshot));
    IndexedExactly(snapshot.pages);
    CachedOfMeans(snapshot.missing, c.injected);
    var requested := Unique(Selected(c, snapshot));
    assert ChangesFor(c, snapshot, diff, requested) == Ok([]);
    hide Unique, Prepared, Indexed, Find, PageSlugs;
    forall s | s in Indexed(snapshot.pages) ensures s in model && model[s] == Indexed(snapshot.pages)[s] {
      ChangedExactly(c, snapshot, diff, requested, s);
      UnchangedIsHeld(c, model, snapshot, diff, s);
    }
    forall s | s in snapshot.missing && s !in Indexed(snapshot.pages) ensures Find(c.injected, s).None? {
      if Find(c.injected, s).Some? {
        ChangedExactly(c, snapshot, diff, requested, s);
        UnchangedIsHeld(c, model, snapshot, diff, s);
      }
    }
  }

  /** A slug that needs no change: the model holds the snapshot's page, or neither cache nor snapshot has it. */
  lemma UnchangedIsHeld(c: Context, model: Model, snapshot: Snapshot, diff: Differ, slug: Slug)
    requires Trusted(diff) && Agrees(c, model) && ChangeFor(c, snapshot, diff, slug) == Ok(None)
    ensures if slug in Indexed(snapshot.pages) then slug in model && model[slug] == Indexed(snapshot.pages)[slug]
            else Find(c.injected, slug).None?
  {
    FoundIsCached(c.injected, slug);
  }

  /** Among requested slugs, one that the snapshot no longer has is to be removed exactly when the cache still holds it. */
  lemma RetractedIffCached(c: Context, snapshot: Snapshot, diff: Differ, slugs: seq<Slug>, slug: Slug)
    requires Trusted(diff) && slug in slugs && slug !in Indexed(snapshot.pages)
    requires ChangesFor(c, snapshot, diff, Unique(slugs)).Ok?
    ensures (exists change :: change in ChangesFor(c, snapshot, diff, Unique(slugs)).value && change.slug == slug && change.Removed?)
            <==> Find(c.injected, slug).Some?
  {
    WikiOffers.UniqueMeans(slugs);
    ChangedExactly(c, snapshot, diff, Unique(slugs), slug);
    var changes := ChangesFor(c, snapshot, diff, Unique(slugs)).value;
    if change :| change in changes && change.slug == slug && change.Removed? {
      NoOtherSlugs(c, snapshot, diff, Unique(slugs), change);
    }
  }

  /** The reader's offer removes a slug exactly when the snapshot names it missing, gives no page, and the cache holds it. */
  lemma OfferRemovesIff(c: Context, snapshot: Snapshot, maxChars: int, diff: Differ, size: Packet -> nat, slug: Slug)
    requires Trusted(diff) && Prepared(c, snapshot, Selected(c, snapshot), maxChars, diff, size).1.Offered?
    requires slug !in Indexed(snapshot.pages)
    ensures var changes := Prepared(c, snapshot, Selected(c, snapshot), maxChars, diff, size).1.packet.changes;
            && ((exists k :: 0 <= k < |changes| && changes[k].slug == slug) <==> slug in snapshot.missing && Find(c.injected, slug).Some?)
            && (forall k :: 0 <= k < |changes| && changes[k].slug == slug ==> changes[k].Removed?)
  {
    var slugs := Selected(c, snapshot);
    var changes := ChangesFor(c, snapshot, diff, Unique(slugs)).value;
    WikiOffers.UniqueMeans(slugs);
    SelectedMeans(c, snapshot, slug);
    if slug in slugs {
      RetractedIffCached(c, snapshot, diff, slugs, slug);
    }
    hide ChangesFor, Trusted, Find, Indexed, Selected, Unique;
    forall k | 0 <= k < |changes| && changes[k].slug == slug ensures changes[k].Removed? && slug in slugs {
      NoOtherSlugs(c, snapshot, diff, Unique(slugs), changes[k]);
    }
    if change :| change in changes && change.slug == slug && change.Removed? {
      var k :| 0 <= k < |changes| && changes[k] == change;
    }
  }

  lemma SelectedMeans(c: Context, snapshot: Snapshot, slug: Slug)
    ensures slug in PageSlugs(snapshot.pages) <==> slug in Indexed(snapshot.pages)
    ensures slug in Selected(c, snapshot) <==>
              slug in Indexed(snapshot.pages) || (slug in snapshot.missing && Find(c.injected, slug).Some?)
  {
    IndexedExactly(snapshot.pages);
    CachedOfMeans(snapshot.missing, c.injected);
  }

  /** One round of the reader: prepare the selection, and let the model accept the offer if there is one. */
  ghost function Consulted(c: Context, model: Model, snapshot: Snapshot, maxChars: int, diff: Differ, size: Packet -> nat): (Context, Model)
    requires Trusted(diff)
  {
    var (v, outcome) := Prepared(c, snapshot, Selected(c, snapshot), maxChars, diff, size);
    if outcome.Offered?
    then (Acknowledged(v, Digest(outcome.packet), c.room, c.contextId).0, ReadAll(model, outcome.packet.changes))
    else (v, model)
  }

  /** An offer that is accepted before anything else happens is always acknowledged. */
  lemma FreshOfferIsAckable(c: Context, packet: Packet)
    requires packet.changes != []
    ensures Ackable(Record(c, packet), Digest(packet))
  {
    var id, offer, v := Digest(packet), OfferedBy(packet.changes), Record(c, packet);
    assert offer[0].0 in SlugsOf(offer);
    assert v.latest[offer[0].0] == id && id in v.latest.Values;
  }

  /** Reading sound changes of which those on `slug` are removals. */
  lemma RemovalReachesModel(model: Model, changes: seq<Change>, slug: Slug)
    requires AllSound(model, changes) && DistinctSlugs(changes)
    requires forall k :: 0 <= k < |changes| && changes[k].slug == slug ==> changes[k].Removed?
    ensures slug in ReadAll(model, changes) <==> slug in model && forall k :: 0 <= k < |changes| ==> changes[k].slug != slug
  {
    ReadingSoundChanges(model, changes);
    SlugsOfOffered(changes);
    if k :| 0 <= k < |changes| && changes[k].slug == slug {
      assert Holds(ReadAll(model, changes), changes[k].slug, Target(changes[k]));
    } else {
      assert SameAt(ReadAll(model, changes), model, slug);
    }
  }

  lemma OfferIsSound(c: Context, model: Model, snapshot: Snapshot, slugs: seq<Slug>, maxChars: int, diff: Differ, size: Packet -> nat)
    requires Trusted(diff) && Agrees(c, model) && Prepared(c, snapshot, slugs, maxChars, diff, size).1.Offered?
    ensures var (v, outcome) := Prepared(c, snapshot, slugs, maxChars, diff, size);
            && AllSound(model, outcome.packet.changes) && DistinctSlugs(outcome.packet.changes)
            && Acknowledged(v, Digest(outcome.packet), c.room, c.contextId).1
            && Agrees(Acknowledged(v, Digest(outcome.packet), c.room, c.contextId).0, ReadAll(model, outcome.packet.changes))
  {
    var (v, outcome) := Prepared(c, snapshot, slugs, maxChars, diff, size);
    WikiOffers.UniqueMeans(slugs);
    ChangesAreSound(c, model, snapshot, diff, Unique(slugs));
    PreparedAgrees(c, model, snapshot, slugs, maxChars, diff, size);
    hide ChangesFor, AllSound, DistinctSlugs, Agrees, Ackable, ReadAll;
    FreshOfferIsAckable(c, outcome.packet);
    AcknowledgedAgrees(v, model, Digest(outcome.packet), c.room, c.contextId);
  }

  // ---- When the reader's offer is refused ----

  /** The snapshot is newer than the cache about this slug, or says the same. */
  predicate NotStale(c: Context, snapshot: Snapshot, slug: Slug) {
    var indexed, previous := Indexed(snapshot.pages), Find(c.injected, slug);
    if slug !in indexed then previous.None? || previous.value.revision < snapshot.revision
    else indexed[slug].revision >= 0
         && (previous.None? || previous.value.revision < indexed[slug].revision || previous.value == indexed[slug])
  }

  lemma {:induction false} NotStaleIff(c: Context, snapshot: Snapshot, diff: Differ, requested: seq<Slug>)
    requires Trusted(diff)
    ensures ChangesFor(c, snapshot, diff, requested).Ok? <==> forall s :: s in requested ==> NotStale(c, snapshot, s)
  {
    if requested != [] {
      var n := |requested| - 1;
      NotStaleIff(c, snapshot, diff, requested[..n]);
      assert ChangeFor(c, snapshot, diff, requested[n]).Ok? <==> NotStale(c, snapshot, requested[n]);
      assert requested == requested[..n] + [requested[n]];
      hide ChangeFor, NotStale, Trusted;
    }
  }

  /** The offer fits: its packet, if there is one, and with it the offers still pending. */
  ghost predicate Fits(c: Context, snapshot: Snapshot, changes: seq<Change>, maxChars: int, size: Packet -> nat) {
    changes == [] ||
    (size(Packet(c.room, c.contextId, c.generation, snapshot.revision, changes)) <= maxChars
     && |c.latest.Keys + SlugsOf(OfferedBy(changes))| <= c.maxPages)
  }

  /** Room, budget, page count, freshness, packet size and room for the offer. */
  ghost predicate Admitted(c: Context, snapshot: Snapshot, maxChars: int, diff: Differ, size: Packet -> nat)
    requires Trusted(diff)
  {
    var requested := Unique(Selected(c, snapshot));
    && snapshot.room == c.room && 1 <= maxChars <= 128_000 && |requested| <= c.maxPages
    && (forall s :: s in requested ==> NotStale(c, snapshot, s))
    && (ChangesFor(c, snapshot, diff, requested).Ok? ==> Fits(c, snapshot, ChangesFor(c, snapshot, diff, requested).value, maxChars, size))
  }

  lemma RefusedIff(c: Context, snapshot: Snapshot, maxChars: int, diff: Differ, size: Packet -> nat)
    requires Trusted(diff)
    ensures Prepared(c, snapshot, Selected(c, snapshot), maxChars, diff, size).1.Refused? <==> !Admitted(c, snapshot, maxChars, diff, size)
  {
    var requested := Unique(Selected(c, snapshot));
    WikiOffers.UniqueMeans(Selected(c, snapshot));
    NotStaleIff(c, snapshot, diff, requested);
    forall s | s in requested ensures s in Indexed(snapshot.pages) || s in snapshot.missing {
      SelectedMeans(c, snapshot, s);
    }
    hide ChangesFor, NotStale, Trusted, Selected, Unique, Indexed;
  }

  /** The snapshot's removal of the page is offered to the model. */
  ghost predicate Retracts(c: Context, snapshot: Snapshot, maxChars: int, diff: Differ, size: Packet -> nat, slug: Slug)
    requires Trusted(diff)
  {
    Admitted(c, snapshot, maxChars, diff, size) && slug in snapshot.missing && Find(c.injected, slug).Some?
  }

  /**
    What becomes of a page that the snapshot no longer has, after one round: it is gone from the model
    exactly when the offer is admitted, the snapshot names the page missing, and the cache still holds
    it; or the model never had it.
   */
  lemma RemovedPageStaysIff(c: Context, model: Model, snapshot: Snapshot, maxChars: int, diff: Differ, size: Packet -> nat, slug: Slug)
    requires Trusted(diff) && Agrees(c, model) && slug !in Indexed(snapshot.pages)
    ensures var (v, after) := Consulted(c, model, snapshot, maxChars, diff, size);
            Agrees(v, after) && (slug in after <==> slug in model && !Retracts(c, snapshot, maxChars, diff, size, slug))
  {
    hide Prepared, Trusted, Agrees, ReadAll, Acknowledged, Indexed, Find, Selected, Admitted;
    RefusedIff(c, snapshot, maxChars, diff, size);
    var (v, outcome) := Prepared(c, snapshot, Selected(c, snapshot), maxChars, diff, size);
    if outcome.Offered? {
      OfferIsSound(c, model, snapshot, Selected(c, snapshot), maxChars, diff, size);
      OfferRemovesIff(c, snapshot, maxChars, diff, size, slug);
      RemovalReachesModel(model, outcome.packet.changes, slug);
    } else {
      PreparedAgrees(c, model, snapshot, Selected(c, snapshot), maxChars, diff, size);
      NotOffered(c, snapshot, maxChars, diff, size);
      if outcome.Current? {
        CurrentIsUpToDate(c, model, snapshot, diff, size, maxChars);
      }
    }
  }

  lemma NotOffered(c: Context, snapshot: Snapshot, maxChars: int, diff: Differ, size: Packet -> nat)
    requires Trusted(diff)
    ensures var (v, outcome) := Prepared(c, snapshot, Selected(c, snapshot), maxChars, diff, size); !outcome.Offered? ==> v == c
  {
  }

  // ---- The retraction an evicted page never gets ----

  function OnePage(room: string, revision: int, slug: Slug, page: Page): Snapshot {
    Snapshot(room, revision, [(slug, page)], [])
  }

  lemma OneRequested(c: Context, snapshot: Snapshot, diff: Differ, slug: Slug)
    requires Trusted(diff)
    ensures ChangesFor(c, snapshot, diff, [slug]) ==
            match ChangeFor(c, snapshot, diff, slug)
            case Err(why) => Err(why)
            case Ok(None) => Ok([])
            case Ok(Some(change)) => Ok([change])
  {
    hide ChangeFor, Trusted;
    var requested := [slug];
    assert requested[..|requested| - 1] == [];
    assert ChangesFor(c, snapshot, diff, []) == Ok([]);
    var one := ChangeFor(c, snapshot, diff, slug);
    if one.Ok? && one.value.Some? {
      assert [] + [one.value.value] == [one.value.value];
    }
  }

  /** Offering and accepting a page the cache does not hold puts it at the end; the oldest page may go. */
  lemma OfferAndAccept(c: Context, slug: Slug, page: Page, revision: int, diff: Differ, size: Packet -> nat)
    requires Trusted(diff) && page.revision >= 0 && size(BootstrapPacket(c, revision, slug, page)) <= 8_000
    requires c.maxPages >= 1 && c.pending == map[] && c.latest == map[] && Find(c.injected, slug).None?
    ensures var packet := BootstrapPacket(c, revision, slug, page);
            var (v, outcome) := Prepared(c, OnePage(c.room, revision, slug, page), [slug], 8_000, diff, size);
            && outcome == Offered(packet)
            && Acknowledged(v, Digest(packet), c.room, c.contextId)
               == (c.(injected := Evict(c.injected + [Entry(slug, page)], c.maxPages)), true)
  {
    var snapshot, change := OnePage(c.room, revision, slug, page), BootstrapOf(slug, page);
    assert [slug][..0] == [] && [(slug, page)][..0] == [];
    assert Indexed(snapshot.pages) == map[slug := page];
    assert Unique([slug]) == [slug];
    OneRequested(c, snapshot, diff, slug);
    hide ChangesFor, Trusted, Evict;
    assert ChangeFor(c, snapshot, diff, slug) == Ok(Some(change));
    var packet := Packet(c.room, c.contextId, c.generation, revision, [change]);
    var offer := OfferedBy([change]);
    assert offer == [(slug, Some(page))] && offer[0].0 == slug && SlugsOf(offer) == {slug};
    OnePageRecorded(c, packet, slug, page);
    hide Indexed, Unique;
  }

  lemma {:induction false} NotFoundNotPlaced(injected: seq<Entry>, slug: Slug)
    requires Find(injected, slug).None?
    ensures Without(injected, slug) == injected
  {
    if injected != [] {
      NotFoundNotPlaced(injected[1..], slug);
    }
  }

  lemma OnePageRecorded(c: Context, packet: Packet, slug: Slug, page: Page)
    requires c.pending == map[] && c.latest == map[] && Find(c.injected, slug).None?
    requires packet.changes == [BootstrapOf(slug, page)]
    ensures Acknowledged(Record(c, packet), Digest(packet), c.room, c.contextId)
            == (c.(injected := Evict(c.injected + [Entry(slug, page)], c.maxPages)), true)
    ensures |c.latest.Keys + SlugsOf(OfferedBy(packet.changes))| == 1
  {
    var offer, id, v := OfferedBy(packet.changes), Digest(packet), Record(c, packet);
    assert offer == [(slug, Some(page))] && offer[0].0 == slug && SlugsOf(offer) == {slug};
    assert c.latest.Keys + SlugsOf(offer) == {slug};
    assert v.latest == map[slug := id];
    assert v.latest[slug] == id && id in v.latest.Values;
    assert v.pending == map[id := offer];
    assert v.pending - {id} == map[] && v.latest - {slug} == map[];
    NotFoundNotPlaced(c.injected, slug);
    assert offer[..0] == [];
    assert PlaceAll(c.injected, offer[..0]) == c.injected;
    assert PlaceAll(c.injected, offer) == c.injected + [Entry(slug, page)];
    hide Evict;
  }

  function BootstrapPacket(c: Context, revision: int, slug: Slug, page: Page): Packet {
    Packet(c.room, c.contextId, c.generation, revision, [BootstrapOf(slug, page)])
  }

  /** Two steps: offer one page, which is what the reader selects from a snapshot of one page, and accept the offer. */
  function Round(c: Context, revision: int, slug: Slug, page: Page): seq<Step> {
    [Prepare(OnePage(c.room, revision, slug, page), Selected(c, OnePage(c.room, revision, slug, page)), 8_000),
     Acknowledge(Digest(BootstrapPacket(c, revision, slug, page)), c.room, c.contextId)]
  }

  lemma AfterRound(start: Context, run: seq<Step>, c: Context, model: Model, revision: int, slug: Slug, page: Page, diff: Differ, size: Packet -> nat)
    requires Trusted(diff) && page.revision >= 0 && size(BootstrapPacket(c, revision, slug, page)) <= 8_000
    requires c.maxPages >= 1 && c.pending == map[] && c.latest == map[] && Find(c.injected, slug).None?
    requires After(start, run, diff, size) == (c, model)
    ensures After(start, run + Round(c, revision, slug, page), diff, size)
            == (c.(injected := Evict(c.injected + [Entry(slug, page)], c.maxPages)), model[slug := page])
  {
    hide Prepared, Acknowledged, Trusted, Find, Evict, Selected, ReadAll;
    OfferAndAccept(c, slug, page, revision, diff, size);
    SelectsThePage(c, revision, slug, page);
    BootstrapIsRead(model, slug, page);
    var round := Round(c, revision, slug, page);
    var longer, all := run + [round[0]], run + round;
    assert longer[..|longer| - 1] == run && all[..|all| - 1] == longer;
  }

  lemma SelectsThePage(c: Context, revision: int, slug: Slug, page: Page)
    ensures Selected(c, OnePage(c.room, revision, slug, page)) == [slug]
  {
  }

  lemma BootstrapIsRead(model: Model, slug: Slug, page: Page)
    ensures ReadAll(model, [BootstrapOf(slug, page)]) == model[slug := page]
  {
    var change := BootstrapOf(slug, page);
    assert [change][..0] == [];
    assert ReadAll(model, []) == model;
    assert ReadAll(model, [change]) == Read(model, change);
  }

  /** Slugs of different lengths, all different from the evicted page's. */
  function Name(k: nat): Slug {
    seq(k + 1, _ => 'p')
  }

  const EVICTED: Slug := "a"

  /** The first `k` of the pages that fill the cache. */
  function Filled(k: nat, b: Page): seq<Entry> {
    seq(k, i requires 0 <= i < k => Entry(Name(i), b))
  }

  /** What was ever cached, in order; the cache holds the newest of it. */
  function EverCached(a: Page, k: nat, b: Page): seq<Entry> {
    [Entry(EVICTED, a)] + Filled(k, b)
  }

  /** The page to be evicted, and then `k` other pages, one at a time. */
  function Rounds(c: Context, a: Page, k: nat, b: Page): seq<Step> {
    if k == 0 then Round(c, 1, EVICTED, a) else Rounds(c, a, k - 1, b) + Round(c, k + 1, Name(k - 1), b)
  }

  lemma NotCachedNotFound(injected: seq<Entry>, slug: Slug)
    requires forall i :: 0 <= i < |injected| ==> injected[i].slug != slug
    ensures Find(injected, slug).None?
  {
    FoundIsCached(injected, slug);
  }

  lemma EvictTwice(ever: seq<Entry>, e: Entry, limit: nat)
    requires limit >= 1
    ensures Evict(Evict(ever, limit) + [e], limit) == Evict(ever + [e], limit)
  {
  }

  /** The packets are small enough to offer. */
  ghost predicate Small(c: Context, a: Page, n: nat, b: Page, size: Packet -> nat) {
    size(BootstrapPacket(c, 1, EVICTED, a)) <= 8_000
    && forall k: nat :: k < n ==> size(BootstrapPacket(c, k + 2, Name(k), b)) <= 8_000
  }

  /** After `k` further pages the cache holds the newest ones, and the model all of them. */
  lemma {:induction false} FillsCache(start: Context, a: Page, k: nat, b: Page, diff: Differ, size: Packet -> nat) returns (model: Model)
    requires Trusted(diff) && start == Empty(start.room, start.contextId, start.maxPages) && start.maxPages >= 1
    requires a.revision >= 0 && b.revision >= 0 && Small(start, a, k, b, size)
    ensures After(start, Rounds(start, a, k, b), diff, size) == (start.(injected := Evict(EverCached(a, k, b), start.maxPages)), model)
    ensures EVICTED in model && model[EVICTED] == a
  {
    hide Trusted, Prepared, Selected, Evict;
    if k == 0 {
      model := map[EVICTED := a];
      AfterRound(start, [], start, map[], 1, EVICTED, a, diff, size);
      assert [] + Round(start, 1, EVICTED, a) == Round(start, 1, EVICTED, a);
      assert start.injected + [Entry(EVICTED, a)] == EverCached(a, 0, b);
    } else {
      var before := FillsCache(start, a, k - 1, b, diff, size);
      var c := start.(injected := Evict(EverCached(a, k - 1, b), start.maxPages));
      NewNameIsNotCached(a, k - 1, b, start.maxPages);
      assert BootstrapPacket(c, k + 1, Name(k - 1), b) == BootstrapPacket(start, k - 1 + 2, Name(k - 1), b);
      AfterRound(start, Rounds(start, a, k - 1, b), c, before, k + 1, Name(k - 1), b, diff, size);
      SameRound(c, start, k + 1, Name(k - 1), b);
      EvictTwice(EverCached(a, k - 1, b), Entry(Name(k - 1), b), start.maxPages);
      assert EverCached(a, k - 1, b) + [Entry(Name(k - 1), b)] == EverCached(a, k, b);
      model := before[Name(k - 1) := b];
      NamesDiffer(k - 1, 0);
    }
  }

  lemma NamesDiffer(k: nat, i: nat)
    ensures Name(k) != EVICTED && (k != i ==> Name(k) != Name(i))
  {
    assert Name(k)[0] == 'p';
    assert |Name(k)| == k + 1 && |Name(i)| == i + 1;
  }

  lemma NewNameIsNotCached(a: Page, k: nat, b: Page, limit: nat)
    ensures Find(Evict(EverCached(a, k, b), limit), Name(k)).None?
  {
    var ever := EverCached(a, k, b);
    forall i | 0 <= i < |ever| ensures ever[i].slug != Name(k) {
      NamesDiffer(k, if i > 0 then i - 1 else 0);
    }
    NotCachedNotFound(Evict(ever, limit), Name(k));
  }

  lemma SameRound(c: Context, start: Context, revision: int, slug: Slug, page: Page)
    requires start.room == c.room && start.contextId == c.contextId && start.generation == c.generation
    ensures Round(c, revision, slug, page) == Round(start, revision, slug, page)
  {
  }

  /**
    For every limit of the cache, 64 pages in the reader: a page evicted by newer ones and then removed upstream.
    The reader's selection says CURRENT, nothing is retracted, and the model still holds the removed page.
   */
  lemma EvictedPageIsNotRetracted(room: string, contextId: string, maxPages: nat, a: Page, b: Page, diff: Differ, size: Packet -> nat)
    requires Trusted(diff) && maxPages >= 1 && a.revision >= 0 && b.revision >= 0
    requires Small(Empty(room, contextId, maxPages), a, maxPages, b, size)
    ensures var start := Empty(room, contextId, maxPages);
            var later := Snapshot(room, maxPages + 2, [(Name(maxPages - 1), b)], [EVICTED]);
            var (c, model) := After(start, Rounds(start, a, maxPages, b), diff, size);
            && Prepared(c, later, Selected(c, later), 8_000, diff, size) == (c, Current)
            && EVICTED in model && model[EVICTED] == a
  {
    hide Prepared, Trusted, Selected, After, Rounds;
    var start := Empty(room, contextId, maxPages);
    var _ := FillsCache(start, a, maxPages, b, diff, size);
    assert Evict(EverCached(a, maxPages, b), maxPages) == Filled(maxPages, b);
    var last := start.(injected := Filled(maxPages, b));
    LastIsFound(maxPages, b);
    NothingToRetract(last, Name(maxPages - 1), EVICTED, b, maxPages + 2, diff, size);
  }

  /** A snapshot whose one page is cached as it is, and whose missing page is not cached at all. */
  lemma NothingToRetract(c: Context, slug: Slug, gone: Slug, b: Page, revision: int, diff: Differ, size: Packet -> nat)
    requires Trusted(diff) && c.maxPages >= 1 && b.revision >= 0
    requires Find(c.injected, slug) == Some(b) && Find(c.injected, gone).None?
    ensures var later := Snapshot(c.room, revision, [(slug, b)], [gone]);
            Prepared(c, later, Selected(c, later), 8_000, diff, size) == (c, Current)
  {
    hide Trusted, Find;
    var later := Snapshot(c.room, revision, [(slug, b)], [gone]);
    assert CachedOf(later.missing, c.injected) == CachedOf([], c.injected) == [];
    assert Selected(c, later) == [slug];
    OneRequested(c, later, diff, slug);
    hide ChangesFor, CachedOf, Selected;
    assert [slug][..0] == [] && Unique([slug]) == [slug] && later.pages[..0] == [];
    assert Indexed(later.pages) == map[slug := b];
    assert ChangeFor(c, later, diff, slug) == Ok(None);
  }

  lemma LastIsFound(n: nat, b: Page)
    requires n >= 1
    ensures Find(Filled(n, b), Name(n - 1)) == Some(b) && Find(Filled(n, b), EVICTED).None?
  {
    forall i | 0 <= i < n ensures Filled(n, b)[i].slug != EVICTED {
      NamesDiffer(i, 0);
    }
    NotCachedNotFound(Filled(n, b), EVICTED);
    assert Filled(n, b)[n - 1].slug == Name(n - 1);
    FoundIsCached(Filled(n, b), Name(n - 1));
  }
}
