/**
  The page cache as the mutable object wiki_context.py makes it; each method computes exactly what
  WikiPages says of its state.
 */
module WikiPageContexts {
  import opened Common
  import opened WikiDeltas
  import opened WikiPages
  import opened WikiOffers

  lemma OneMoreIndexed(pages: seq<(Slug, Page)>, k: nat)
    requires k < |pages|
    ensures Indexed(pages[..k + 1]) == Indexed(pages[..k])[pages[k].0 := pages[k].1]
  {
    assert pages[..k + 1][..k] == pages[..k];
  }

  lemma OneMoreUnique(slugs: seq<Slug>, k: nat)
    requires k < |slugs|
    ensures var before := Unique(slugs[..k]);
            Unique(slugs[..k + 1]) == if slugs[k] in before then before else before + [slugs[k]]
  {
    assert slugs[..k + 1][..k] == slugs[..k];
  }

  lemma OneMoreRequested(c: Context, snapshot: Snapshot, diff: Differ, requested: seq<Slug>, k: nat)
    requires Trusted(diff) && k < |requested| && ChangesFor(c, snapshot, diff, requested[..k]).Ok?
    ensures var before := ChangesFor(c, snapshot, diff, requested[..k]).value;
            ChangesFor(c, snapshot, diff, requested[..k + 1]) ==
            match ChangeFor(c, snapshot, diff, requested[k])
            case Err(why) => Err(why)
            case Ok(None) => Ok(before)
            case Ok(Some(change)) => Ok(before + [change])
  {
    assert requested[..k + 1][..k] == requested[..k];
  }

  /** The first refusal is the refusal of the whole request. */
  lemma {:induction false} RefusalStands(c: Context, snapshot: Snapshot, diff: Differ, requested: seq<Slug>, k: nat)
    requires Trusted(diff) && k <= |requested| && ChangesFor(c, snapshot, diff, requested[..k]).Err?
    ensures ChangesFor(c, snapshot, diff, requested) == ChangesFor(c, snapshot, diff, requested[..k])
    decreases |requested| - k
  {
    if k == |requested| {
      assert requested[..k] == requested;
    } else {
      assert requested[..k + 1][..k] == requested[..k];
      RefusalStands(c, snapshot, diff, requested, k + 1);
    }
  }

  class WikiPageContext {
    const room: string
    const maxPages: nat
    var contextId: string
    var generation: nat
    var injected: seq<Entry>
    var pending: map<PacketId, seq<(Slug, Option<Page>)>>
    var latest: map<Slug, PacketId>

    constructor (room: string, contextId: string, maxPages: nat)
      requires 1 <= maxPages <= 1024
      ensures State() == Context(room, contextId, maxPages, 0, [], map[], map[])
    {
      this.room, this.maxPages, this.contextId, this.generation := room, maxPages, contextId, 0;
      this.injected, this.pending, this.latest := [], map[], map[];
    }

    ghost function State(): Context
      reads this
    {
      Context(room, contextId, maxPages, generation, injected, pending, latest)
    }

    method Reset(contextId: string)
      modifies this
      ensures State() == ResetTo(old(State()), contextId)
    {
      this.contextId := contextId;
      generation := generation + 1;
      injected, pending, latest := [], map[], map[];
    }

    method Lookup(slug: Slug) returns (page: Option<Page>)
      ensures page == Find(injected, slug)
    {
      for i := 0 to |injected|
        invariant Find(injected, slug) == Find(injected[i..], slug)
      {
        assert injected[i..][0] == injected[i] && injected[i..][1..] == injected[i + 1..];
        if injected[i].slug == slug {
          return Some(injected[i].page);
        }
      }
      return None;
    }

    /** What one requested slug needs. */
    method Compare(snapshot: Snapshot, indexed: map<Slug, Page>, diff: Differ, slug: Slug) returns (r: Result<Option<Change>>)
      requires Trusted(diff) && indexed == Indexed(snapshot.pages)
      ensures r == ChangeFor(State(), snapshot, diff, slug)
    {
      var previous := Lookup(slug);
      if slug !in indexed {
        if previous.None? {
          return Ok(None);
        }
        var base := previous.value;
        if snapshot.revision <= base.revision {
          return Err(StaleRemoval);
        }
        return Ok(Some(Removed(slug, snapshot.revision, base.revision, Digest(base))));
      }
      var page := indexed[slug];
      if page.revision < 0 {
        return Err(InvalidRevision);
      }
      if previous.None? {
        return Ok(Some(BootstrapOf(slug, page)));
      }
      var base := previous.value;
      if page.revision < base.revision {
        return Err(StalePage);
      }
      if page.revision == base.revision {
        return if page != base then Err(ChangedWithoutRevision) else Ok(None);
      }
      var before, after := SplitLines(base.body), SplitLines(page.body);
      var ops := diff(before, after);
      assert ops == OpsOf(diff, base, page);
      var sections := CollectSections(ops, before, after);
      return Ok(Some(Delta(slug, page.title, page.revision, page.sources, Digest(page), base.revision, Digest(base), sections)));
    }

    /** The changes for all requested slugs, or the first refusal. */
    method Collect(snapshot: Snapshot, indexed: map<Slug, Page>, diff: Differ, requested: seq<Slug>) returns (r: Result<seq<Change>>)
      requires Trusted(diff) && indexed == Indexed(snapshot.pages)
      ensures r == ChangesFor(State(), snapshot, diff, requested)
    {
      hide ChangeFor, Indexed, Trusted;
      var changes: seq<Change> := [];
      for k := 0 to |requested|
        invariant ChangesFor(State(), snapshot, diff, requested[..k]) == Ok(changes)
      {
        OneMoreRequested(State(), snapshot, diff, requested, k);
        var one := Compare(snapshot, indexed, diff, requested[k]);
        if one.Err? {
          RefusalStands(State(), snapshot, diff, requested, k + 1);
          return Err(one.why);
        }
        if one.value.Some? {
          changes := changes + [one.value.value];
        }
      }
      assert requested[..|requested|] == requested;
      return Ok(changes);
    }

    /** Enter the offer, make it the latest for its slugs, and drop the offers it supersedes. */
    method Enter(packet: Packet)
      modifies `pending, `latest
      ensures State() == Record(old(State()), packet)
    {
      var id, offered := Digest(packet), OfferedBy(packet.changes);
      latest := NameLatest(latest, offered, id);
      pending := DropSuperseded(pending[id := offered], latest);
    }

    method Prepare(snapshot: Snapshot, slugs: seq<Slug>, maxChars: int, diff: Differ, size: Packet -> nat) returns (outcome: Outcome)
      requires Trusted(diff)
      modifies `pending, `latest
      ensures (State(), outcome) == Prepared(old(State()), snapshot, slugs, maxChars, diff, size)
      ensures outcome.Offered? ==> OfferRight(old(State()), snapshot, slugs, diff, outcome.packet) && size(outcome.packet) <= maxChars
      ensures outcome.Current? ==> forall s :: s in slugs ==> !Needs(State(), snapshot, s)
    {
      PreparedMeans(State(), snapshot, slugs, maxChars, diff, size);
      hide OfferRight, Needs, Conflicts, Absent;
      if snapshot.room != room {
        return Refused(OtherRoom);
      }
      if !(1 <= maxChars <= 128_000) {
        return Refused(InvalidBudget);
      }
      var indexed := Index(snapshot.pages);
      var requested := Dedupe(slugs);
      if |requested| > maxPages {
        return Refused(TooManyPages);
      }
      if exists s :: s in requested && s !in indexed && s !in snapshot.missing {
        return Refused(AbsentPage);
      }
      hide Trusted;
      var collected := Collect(snapshot, indexed, diff, requested);
      if collected.Err? {
        return Refused(collected.why);
      }
      var changes := collected.value;
      if changes == [] {
        return Current;
      }
      var packet := Packet(room, contextId, generation, snapshot.revision, changes);
      if size(packet) > maxChars {
        return Refused(PacketTooLarge);
      }
      if |latest.Keys + SlugsOf(OfferedBy(changes))| > maxPages {
        return Refused(CacheFull);
      }
      Enter(packet);
      return Offered(packet);
    }

    method AcknowledgeInjection(id: PacketId, room: string, contextId: string) returns (done: bool)
      modifies `injected, `pending, `latest
      ensures (State(), done) == Acknowledged(old(State()), id, room, contextId)
    {
      if room != this.room || contextId != this.contextId || id !in pending {
        return false;
      }
      if exists s :: s in SlugsOf(pending[id]) && (s !in latest || latest[s] != id) {
        return false;
      }
      var pages := pending[id];
      injected := PlaceEach(injected, pages);
      injected := EvictOldest(injected, maxPages);
      pending := pending - {id};
      latest := Forget(latest, pages);
      return true;
    }
  }

  // ---- Loops over values ----

  lemma OneMoreSlug(offer: seq<(Slug, Option<Page>)>, k: nat)
    requires k < |offer|
    ensures SlugsOf(offer[..k + 1]) == SlugsOf(offer[..k]) + {offer[k].0}
  {
    var shorter, longer := offer[..k], offer[..k + 1];
    assert longer == shorter + [offer[k]];
    assert longer[k].0 in SlugsOf(longer);
    forall s | s in SlugsOf(shorter) ensures s in SlugsOf(longer) {
      var j :| 0 <= j < k && shorter[j].0 == s;
      assert longer[j].0 == s;
    }
  }

  method NameLatest(before: map<Slug, PacketId>, offer: seq<(Slug, Option<Page>)>, id: PacketId) returns (latest: map<Slug, PacketId>)
    ensures latest == LatestWith(before, SlugsOf(offer), id)
  {
    latest := before;
    for k := 0 to |offer|
      invariant latest == LatestWith(before, SlugsOf(offer[..k]), id)
    {
      OneMoreSlug(offer, k);
      latest := latest[offer[k].0 := id];
    }
    assert offer[..|offer|] == offer;
  }

  method DropSuperseded(all: map<PacketId, seq<(Slug, Option<Page>)>>, latest: map<Slug, PacketId>)
    returns (pending: map<PacketId, seq<(Slug, Option<Page>)>>)
    ensures pending == Surviving(all, latest)
  {
    pending := all;
    var todo := all.Keys;
    while todo != {}
      invariant todo <= all.Keys
      invariant pending == map i | i in all && (i in todo || i in latest.Values) :: all[i]
      decreases |todo|
    {
      var i :| i in todo;
      todo := todo - {i};
      if i !in latest.Values {
        pending := pending - {i};
      }
    }
  }

  method PlaceEach(before: seq<Entry>, offer: seq<(Slug, Option<Page>)>) returns (injected: seq<Entry>)
    ensures injected == PlaceAll(before, offer)
  {
    injected := before;
    for k := 0 to |offer|
      invariant injected == PlaceAll(before, offer[..k])
    {
      assert offer[..k + 1][..k] == offer[..k];
      var rest := Without(injected, offer[k].0);
      injected := match offer[k].1 case Some(page) => rest + [Entry(offer[k].0, page)] case None => rest;
    }
    assert offer[..|offer|] == offer;
  }

  method EvictOldest(before: seq<Entry>, limit: nat) returns (injected: seq<Entry>)
    ensures injected == Evict(before, limit)
  {
    injected := before;
    while |injected| > limit
      invariant |injected| <= |before| && injected == before[|before| - |injected|..]
      invariant |injected| < |before| ==> |injected| >= limit
    {
      injected := injected[1..];
    }
  }

  method Forget(before: map<Slug, PacketId>, offer: seq<(Slug, Option<Page>)>) returns (latest: map<Slug, PacketId>)
    ensures latest == before - SlugsOf(offer)
  {
    latest := before;
    assert SlugsOf(offer[..0]) == {};
    for k := 0 to |offer|
      invariant latest == before - SlugsOf(offer[..k])
    {
      OneMoreSlug(offer, k);
      latest := latest - {offer[k].0};
    }
    assert offer[..|offer|] == offer;
  }

  method Index(pages: seq<(Slug, Page)>) returns (indexed: map<Slug, Page>)
    ensures indexed == Indexed(pages)
  {
    indexed := map[];
    for k := 0 to |pages|
      invariant indexed == Indexed(pages[..k])
    {
      OneMoreIndexed(pages, k);
      indexed := indexed[pages[k].0 := pages[k].1];
    }
    assert pages[..|pages|] == pages;
  }

  method Dedupe(slugs: seq<Slug>) returns (requested: seq<Slug>)
    ensures requested == Unique(slugs)
  {
    requested := [];
    for k := 0 to |slugs|
      invariant requested == Unique(slugs[..k])
    {
      OneMoreUnique(slugs, k);
      if slugs[k] !in requested {
        requested := requested + [slugs[k]];
      }
    }
    assert slugs[..|slugs|] == slugs;
  }
}
