/**
  What a worker's review must satisfy before the journal stores it (wiki_coordinator.py,
  `validate_review`), stated as one condition and decided by the code's loops.
 */
module WikiReviews {
  import opened Common
  import opened WikiJournals

  /** The source messages of a batch: id, sender, and whether the sender is an agent. */
  datatype Source = Source(id: int, sender: string, fromAgent: bool)

  datatype Batch = Batch(throughId: int, messages: seq<Source>, requests: seq<string>)

  datatype WikiPage = WikiPage(slug: string, sources: seq<int>)

  datatype Wiki = Wiki(revision: int, pages: seq<WikiPage>)

  /** A structured review as the worker returns it; routes may be absent. */
  datatype RawReview = RawReview(
    expectedRevision: int, reviewedThrough: int, reason: string,
    pages: seq<Draft>, routes: Option<seq<Route>>)

  /** UTF-8 length, and whether nothing is left after stripping white space. */
  datatype Text = Text(bytes: string -> nat, blank: string -> bool)

  const MAX_PAGES := 32
  const MAX_SOURCES := 256
  const MAX_ROUTES := 8
  const MAX_ROUTE_SLUGS := 16

  predicate SlugChar(c: char) {
    'a' <= c <= 'z' || '0' <= c <= '9' || c == '-'
  }

  predicate SlugOk(slug: string) {
    slug != "" && |slug| <= 80 && forall c :: c in slug ==> SlugChar(c)
  }

  /** A source is one of the batch's messages or already cited by a page of the wiki. */
  function Available(batch: Batch, wiki: Wiki): set<int> {
    (set k | 0 <= k < |batch.messages| :: batch.messages[k].id)
    + set k, j | 0 <= k < |wiki.pages| && 0 <= j < |wiki.pages[k].sources| :: wiki.pages[k].sources[j]
  }

  /** Routes go to agents among the batch's senders, or to those who asked for context. */
  function Targets(batch: Batch): set<string> {
    (set k | 0 <= k < |batch.messages| && batch.messages[k].fromAgent :: batch.messages[k].sender)
    + set k | 0 <= k < |batch.requests| :: batch.requests[k]
  }

  predicate PageOk(text: Text, page: Draft, available: set<int>) {
    && SlugOk(page.slug)
    && !text.blank(page.title) && text.bytes(page.title) <= 256 && text.bytes(page.body) <= 32_768
    && |page.sources| <= MAX_SOURCES && (text.blank(page.body) || page.sources != [])
    && forall k :: 0 <= k < |page.sources| ==> page.sources[k] in available
  }

  predicate RouteOk(text: Text, route: Route, targets: set<string>, slugs: set<string>) {
    && route.target in targets
    && !text.blank(route.reason) && text.bytes(route.reason) <= 1_024
    && 1 <= |route.slugs| <= MAX_ROUTE_SLUGS
    && (forall i, k :: 0 <= i < k < |route.slugs| ==> route.slugs[i] != route.slugs[k])
    && forall k :: 0 <= k < |route.slugs| ==> route.slugs[k] in slugs
  }

  function DraftSlugs(pages: seq<Draft>): set<string> {
    set k | 0 <= k < |pages| :: pages[k].slug
  }

  function WikiSlugs(wiki: Wiki): set<string> {
    set k | 0 <= k < |wiki.pages| :: wiki.pages[k].slug
  }

  ghost predicate PagesOk(text: Text, pages: seq<Draft>, available: set<int>) {
    && (forall k :: 0 <= k < |pages| ==> PageOk(text, pages[k], available))
    && forall i, k :: 0 <= i < k < |pages| ==> pages[i].slug != pages[k].slug
  }

  ghost predicate RoutesOk(text: Text, routes: seq<Route>, targets: set<string>, slugs: set<string>) {
    && (forall k :: 0 <= k < |routes| ==> RouteOk(text, routes[k], targets, slugs))
    && forall i, k :: 0 <= i < k < |routes| ==> routes[i].target != routes[k].target
  }

  /** Everything a review must satisfy against its batch and the wiki the worker saw. */
  ghost predicate Certified(text: Text, draft: RawReview, batch: Batch, wiki: Wiki) {
    && draft.expectedRevision == wiki.revision && draft.reviewedThrough == batch.throughId
    && !text.blank(draft.reason) && text.bytes(draft.reason) <= 4_096
    && |draft.pages| <= MAX_PAGES && PagesOk(text, draft.pages, Available(batch, wiki))
    && (draft.routes.Some? ==>
          |draft.routes.value| <= MAX_ROUTES
          && RoutesOk(text, draft.routes.value, Targets(batch), WikiSlugs(wiki) + DraftSlugs(draft.pages)))
  }

  /**
    What certification guarantees: pages within bounds that cite only sources they may cite, and routes only to
    those who may be told, each of one to sixteen distinct pages that exist.
   */
  lemma CertifiedMeans(text: Text, draft: RawReview, batch: Batch, wiki: Wiki)
    requires Certified(text, draft, batch, wiki)
    ensures draft.expectedRevision == wiki.revision && draft.reviewedThrough == batch.throughId
    ensures !text.blank(draft.reason) && text.bytes(draft.reason) <= 4_096
    ensures forall i, k :: 0 <= i < k < |draft.pages| ==> draft.pages[i].slug != draft.pages[k].slug
    ensures draft.routes.Some? ==> forall i, k :: 0 <= i < k < |draft.routes.value| ==> draft.routes.value[i].target != draft.routes.value[k].target
    ensures |draft.pages| <= 32 && forall p :: p in draft.pages ==>
              && 1 <= |p.slug| <= 80 && (forall c :: c in p.slug ==> 'a' <= c <= 'z' || '0' <= c <= '9' || c == '-')
              && !text.blank(p.title) && text.bytes(p.title) <= 256 && text.bytes(p.body) <= 32_768
              && |p.sources| <= 256 && (p.sources == [] ==> text.blank(p.body))
              && forall id :: id in p.sources ==>
                   (exists m :: m in batch.messages && m.id == id) || (exists q :: q in wiki.pages && id in q.sources)
    ensures draft.routes.Some? ==> |draft.routes.value| <= 8 && forall r :: r in draft.routes.value ==>
              && ((exists m :: m in batch.messages && m.fromAgent && m.sender == r.target) || r.target in batch.requests)
              && !text.blank(r.reason) && text.bytes(r.reason) <= 1_024
              && 1 <= |r.slugs| <= 16 && (forall i, k :: 0 <= i < k < |r.slugs| ==> r.slugs[i] != r.slugs[k])
              && forall s :: s in r.slugs ==>
                   (exists q :: q in wiki.pages && q.slug == s) || (exists p :: p in draft.pages && p.slug == s)
  {
    forall id | id in Available(batch, wiki)
      ensures (exists m :: m in batch.messages && m.id == id) || (exists q :: q in wiki.pages && id in q.sources)
    {
      if k :| 0 <= k < |batch.messages| && batch.messages[k].id == id {
        assert batch.messages[k] in batch.messages;
      } else {
        var k, j :| 0 <= k < |wiki.pages| && 0 <= j < |wiki.pages[k].sources| && wiki.pages[k].sources[j] == id;
        assert wiki.pages[k] in wiki.pages;
      }
    }
    forall t | t in Targets(batch) ensures (exists m :: m in batch.messages && m.fromAgent && m.sender == t) || t in batch.requests {
      if k :| 0 <= k < |batch.messages| && batch.messages[k].fromAgent && batch.messages[k].sender == t {
        assert batch.messages[k] in batch.messages;
      }
    }
    forall s | s in WikiSlugs(wiki) + DraftSlugs(draft.pages)
      ensures (exists q :: q in wiki.pages && q.slug == s) || (exists p :: p in draft.pages && p.slug == s)
    {
      if k :| 0 <= k < |wiki.pages| && wiki.pages[k].slug == s {
        assert wiki.pages[k] in wiki.pages;
      } else {
        var k :| 0 <= k < |draft.pages| && draft.pages[k].slug == s;
        assert draft.pages[k] in draft.pages;
      }
    }
    hide Available, Targets, WikiSlugs, DraftSlugs;
  }

  /** The loop over pages, with the slugs seen so far. */
  method CheckPages(text: Text, pages: seq<Draft>, available: set<int>) returns (ok: bool, slugs: set<string>)
    ensures ok <==> PagesOk(text, pages, available)
    ensures ok ==> slugs == DraftSlugs(pages)
  {
    hide PageOk;
    slugs := {};
    for k := 0 to |pages|
      invariant PagesOk(text, pages[..k], available) && slugs == DraftSlugs(pages[..k])
    {
      var page := pages[k];
      assert pages[..k + 1] == pages[..k] + [page];
      assert forall s :: s in slugs <==> exists i :: 0 <= i < k && pages[..k][i].slug == s;
      if !PageOk(text, page, available) {
        return false, slugs;
      }
      if page.slug in slugs {
        var i :| 0 <= i < k && pages[..k][i].slug == page.slug;
        assert pages[i].slug == pages[k].slug;
        return false, slugs;
      }
      assert forall i :: 0 <= i < k ==> pages[..k + 1][i] == pages[..k][i];
      assert pages[..k + 1][k] == page;
      slugs := slugs + {page.slug};
    }
    assert pages[..|pages|] == pages;
    ok := true;
  }

  /** The loop over routes, with the targets seen so far. */
  method CheckRoutes(text: Text, routes: seq<Route>, targets: set<string>, slugs: set<string>) returns (ok: bool)
    ensures ok <==> RoutesOk(text, routes, targets, slugs)
  {
    hide RouteOk;
    var routed := {};
    for k := 0 to |routes|
      invariant RoutesOk(text, routes[..k], targets, slugs)
      invariant forall s :: s in routed <==> exists i :: 0 <= i < k && routes[i].target == s
    {
      var route := routes[k];
      assert routes[..k + 1] == routes[..k] + [route];
      if !RouteOk(text, route, targets, slugs) {
        return false;
      }
      if route.target in routed {
        return false;
      }
      routed := routed + {route.target};
    }
    assert routes[..|routes|] == routes;
    ok := true;
  }

  /** A review is accepted exactly when it is certified, and then passed on unchanged but for absent routes. */
  method ValidateReview(text: Text, draft: RawReview, batch: Batch, wiki: Wiki) returns (review: Option<Review>)
    ensures review.Some? <==> Certified(text, draft, batch, wiki)
    ensures review.Some? ==> review.value == Review(draft.expectedRevision, draft.reviewedThrough, draft.reason, draft.pages, draft.routes.GetOr([]))
  {
    if draft.expectedRevision != wiki.revision || draft.reviewedThrough != batch.throughId {
      return None;
    }
    if text.blank(draft.reason) || text.bytes(draft.reason) > 4_096 || |draft.pages| > MAX_PAGES {
      return None;
    }
    var ok, slugs := CheckPages(text, draft.pages, Available(batch, wiki));
    if !ok {
      return None;
    }
    if draft.routes.Some? {
      if |draft.routes.value| > MAX_ROUTES {
        return None;
      }
      ok := CheckRoutes(text, draft.routes.value, Targets(batch), WikiSlugs(wiki) + slugs);
      if !ok {
        return None;
      }
    }
    return Some(Review(draft.expectedRevision, draft.reviewedThrough, draft.reason, draft.pages, draft.routes.GetOr([])));
  }

  /** A certified review never meets the journal's PRIMARY KEY(job_id, target) on a job without routes. */
  lemma CertifiedRoutesFit(text: Text, draft: RawReview, batch: Batch, wiki: Wiki, rows: Routes, id: JobId)
    requires Certified(text, draft, batch, wiki) && forall key :: key in rows ==> key.0 != id
    ensures RoutesFit(rows, id, draft.routes.GetOr([]))
  {
  }
}
