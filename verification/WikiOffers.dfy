/**
  What an offer of the page cache contains (wiki_context.py, `prepare`), slug by slug: a bootstrap of a page
  the cache does not hold, a delta of one it holds in an older revision, or a removal of one that is gone.
 */
module WikiOffers {
  import opened Common
  import opened WikiDeltas
  import opened WikiPages

  /** The snapshot's page: of several under one slug the last. */
  ghost predicate Shown(snapshot: Snapshot, slug: Slug, page: Page) {
    exists i :: 0 <= i < |snapshot.pages| && snapshot.pages[i] == (slug, page) && forall j :: i < j < |snapshot.pages| ==> snapshot.pages[j].0 != slug
  }

  ghost predicate Absent(snapshot: Snapshot, slug: Slug) {
    forall i :: 0 <= i < |snapshot.pages| ==> snapshot.pages[i].0 != slug
  }

  /** The cached page. */
  ghost predicate Cached(c: Context, slug: Slug, page: Page) {
    exists i :: 0 <= i < |c.injected| && c.injected[i] == Entry(slug, page) && forall j :: 0 <= j < i ==> c.injected[j].slug != slug
  }

  ghost predicate Uncached(c: Context, slug: Slug) {
    forall i :: 0 <= i < |c.injected| ==> c.injected[i].slug != slug
  }

  /** The section says what this opcode changes, line for line. */
  predicate SectionFits(s: Section, op: Opcode, before: seq<string>, after: seq<string>) {
    && op.oldStart <= op.oldEnd <= |before| && op.newStart <= op.newEnd <= |after|
    && s.operation == op.tag && s.startLine == op.oldStart && s.endLine == op.oldEnd
    && s.removed == Join(before[op.oldStart..op.oldEnd]) && s.inserted == Join(after[op.newStart..op.newEnd])
  }

  /** One section for each opcode that changes something, and none for an equal one. */
  ghost predicate SectionsFit(sections: seq<Section>, ops: seq<Opcode>, before: seq<string>, after: seq<string>) {
    && (forall s :: s in sections ==> exists op :: op in ops && !op.tag.Equal? && SectionFits(s, op, before, after))
    && (forall op :: op in ops && !op.tag.Equal? ==> exists s :: s in sections && SectionFits(s, op, before, after))
  }

  ghost predicate BootstrapRight(c: Context, snapshot: Snapshot, change: Change)
    requires change.Bootstrap?
  {
    Uncached(c, change.slug) && Shown(snapshot, change.slug, Page(change.title, change.revision, change.sources, change.body))
    && change.hash == Digest(Page(change.title, change.revision, change.sources, change.body))
  }

  /** From the cached page to a newer one: the base it meets, and sections that rebuild the new body from the old. */
  ghost predicate DeltaRight(c: Context, snapshot: Snapshot, diff: Differ, change: Change, base: Page, page: Page)
    requires change.Delta?
  {
    && Cached(c, change.slug, base) && Shown(snapshot, change.slug, page) && base.revision < page.revision
    && change.title == page.title && change.revision == page.revision && change.sources == page.sources && change.hash == Digest(page)
    && change.baseRevision == base.revision && change.baseHash == Digest(base)
    && SectionsFit(change.sections, diff(SplitLines(base.body), SplitLines(page.body)), SplitLines(base.body), SplitLines(page.body))
    && Patch(base.body, change.sections) == page.body
  }

  ghost predicate RemovalRight(c: Context, snapshot: Snapshot, change: Change, base: Page)
    requires change.Removed?
  {
    && Cached(c, change.slug, base) && Absent(snapshot, change.slug) && change.slug in snapshot.missing
    && base.revision < snapshot.revision && change.revision == snapshot.revision
    && change.baseRevision == base.revision && change.baseHash == Digest(base)
  }

  ghost predicate ChangeRight(c: Context, snapshot: Snapshot, diff: Differ, change: Change) {
    match change
    case Bootstrap(_, _, _, _, _, _) => BootstrapRight(c, snapshot, change)
    case Delta(_, _, _, _, _, _, _, _) => exists base, page :: DeltaRight(c, snapshot, diff, change, base, page)
    case Removed(_, _, _, _) => exists base :: RemovalRight(c, snapshot, change, base)
  }

  /** The slug needs a change: new, newer than the cached page, or gone while cached. */
  ghost predicate Needs(c: Context, snapshot: Snapshot, slug: Slug) {
    || (Uncached(c, slug) && !Absent(snapshot, slug))
    || (!Uncached(c, slug) && Absent(snapshot, slug))
    || (exists base, page :: Cached(c, slug, base) && Shown(snapshot, slug, page) && base.revision < page.revision)
  }

  /** The offer is addressed to this context, and holds the right change for exactly the slugs that need one, each once. */
  ghost predicate OfferRight(c: Context, snapshot: Snapshot, slugs: seq<Slug>, diff: Differ, packet: Packet) {
    && packet.room == c.room == snapshot.room && packet.contextId == c.contextId && packet.generation == c.generation
    && packet.snapshotRevision == snapshot.revision
    && ChangesRight(c, snapshot, diff, slugs, packet.changes)
  }

  // ---- Lookups ----

  lemma {:induction false} IndexedMeans(pages: seq<(Slug, Page)>, slug: Slug)
    ensures slug in Indexed(pages) <==> exists i :: 0 <= i < |pages| && pages[i].0 == slug
    ensures slug in Indexed(pages) ==>
              exists i :: 0 <= i < |pages| && pages[i] == (slug, Indexed(pages)[slug]) && forall j :: i < j < |pages| ==> pages[j].0 != slug
  {
    if pages != [] {
      var n := |pages| - 1;
      IndexedMeans(pages[..n], slug);
      if pages[n].0 == slug {
        assert pages[n] == (slug, Indexed(pages)[slug]);
      } else if slug in Indexed(pages[..n]) {
        var i :| 0 <= i < n && pages[..n][i] == (slug, Indexed(pages)[slug]) && forall j :: i < j < n ==> pages[..n][j].0 != slug;
        assert pages[i] == (slug, Indexed(pages)[slug]);
        assert forall j :: i < j < n ==> pages[j] == pages[..n][j];
      }
    }
  }

  lemma {:induction false} FindMeans(injected: seq<Entry>, slug: Slug)
    ensures Find(injected, slug).None? <==> forall i :: 0 <= i < |injected| ==> injected[i].slug != slug
    ensures Find(injected, slug).Some? ==>
              exists i :: 0 <= i < |injected| && injected[i] == Entry(slug, Find(injected, slug).value) && forall j :: 0 <= j < i ==> injected[j].slug != slug
  {
    if injected != [] {
      FindMeans(injected[1..], slug);
      if injected[0].slug == slug {
        assert injected[0] == Entry(slug, Find(injected, slug).value);
      } else if Find(injected[1..], slug).Some? {
        var i :| 0 <= i < |injected| - 1 && injected[1..][i] == Entry(slug, Find(injected, slug).value) && forall j :: 0 <= j < i ==> injected[1..][j].slug != slug;
        assert injected[i + 1] == injected[1..][i];
        assert forall j :: 1 <= j < i + 1 ==> injected[j] == injected[1..][j - 1];
      }
    }
  }

  lemma {:induction false} UniqueMeans(slugs: seq<Slug>)
    ensures forall s :: s in Unique(slugs) <==> s in slugs
    ensures forall i, j :: 0 <= i < j < |Unique(slugs)| ==> Unique(slugs)[i] != Unique(slugs)[j]
  {
    if slugs != [] {
      UniqueMeans(slugs[..|slugs| - 1]);
      assert slugs == slugs[..|slugs| - 1] + [slugs[|slugs| - 1]];
    }
  }

  lemma {:induction false} SectionsMean(ops: seq<Opcode>, before: seq<string>, after: seq<string>)
    requires InRange(ops, before, after)
    ensures SectionsFit(Sections(ops, before, after), ops, before, after)
  {
    if ops != [] {
      SectionsMean(ops[1..], before, after);
      hide Join;
      var rest := Sections(ops[1..], before, after);
      var all := Sections(ops, before, after);
      assert all == (if ops[0].tag.Equal? then [] else [SectionOf(ops[0], before, after)]) + rest;
      forall op | op in ops && !op.tag.Equal? ensures exists s :: s in all && SectionFits(s, op, before, after) {
        if op == ops[0] {
          assert SectionFits(SectionOf(op, before, after), op, before, after);
          assert all[0] == SectionOf(op, before, after);
        } else {
          var s :| s in rest && SectionFits(s, op, before, after);
        }
      }
      forall s | s in all ensures exists op :: op in ops && !op.tag.Equal? && SectionFits(s, op, before, after) {
        if s !in rest {
          assert SectionFits(s, ops[0], before, after);
        }
      }
    }
  }

  // ---- Offers ----

  /** What the snapshot says of this slug cannot be offered: a stale, changed or invalid revision. */
  ghost predicate Conflicts(c: Context, snapshot: Snapshot, slug: Slug) {
    || (exists base :: Cached(c, slug, base) && Absent(snapshot, slug) && snapshot.revision <= base.revision)
    || (exists page :: Shown(snapshot, slug, page) && page.revision < 0)
    || (exists base, page :: Cached(c, slug, base) && Shown(snapshot, slug, page)
          && (page.revision < base.revision || (page.revision == base.revision && page != base)))
  }

  lemma LookupsMean(c: Context, snapshot: Snapshot, slug: Slug)
    ensures var indexed, found := Indexed(snapshot.pages), Find(c.injected, slug);
            && (slug in indexed <==> !Absent(snapshot, slug)) && (found.None? <==> Uncached(c, slug))
            && (forall page :: Shown(snapshot, slug, page) <==> slug in indexed && indexed[slug] == page)
            && (forall base :: Cached(c, slug, base) <==> found == Some(base))
  {
    IndexedMeans(snapshot.pages, slug);
    FindMeans(c.injected, slug);
    hide Indexed, Find;
  }

  lemma DeltaIsRight(c: Context, snapshot: Snapshot, diff: Differ, slug: Slug, base: Page, page: Page)
    requires Trusted(diff) && Cached(c, slug, base) && Shown(snapshot, slug, page) && base.revision < page.revision
    ensures DeltaRight(c, snapshot, diff, DeltaOf(slug, page, base, OpsOf(diff, base, page)), base, page)
  {
    var ops := OpsOf(diff, base, page);
    SectionsMean(ops, SplitLines(base.body), SplitLines(page.body));
    DeltaRoundTrip(base.body, page.body, ops);
    hide SectionsFit, Sections, Patch, Cached, Shown, Tiles, InRange;
  }

  /** One requested slug: refused exactly for a conflict; else the right change exactly when it needs one. */
  lemma ChangeForMeans(c: Context, snapshot: Snapshot, diff: Differ, slug: Slug)
    requires Trusted(diff) && (Absent(snapshot, slug) ==> slug in snapshot.missing)
    ensures var r := ChangeFor(c, snapshot, diff, slug);
            && (r.Err? <==> Conflicts(c, snapshot, slug))
            && (r.Ok? ==> (r.value.Some? <==> Needs(c, snapshot, slug)))
            && (r.Ok? && r.value.Some? ==> r.value.value.slug == slug && ChangeRight(c, snapshot, diff, r.value.value))
  {
    LookupsMean(c, snapshot, slug);
    var r, indexed, found := ChangeFor(c, snapshot, diff, slug), Indexed(snapshot.pages), Find(c.injected, slug);
    hide Cached, Shown, Absent, Uncached, Indexed, Find, OpsOf, Trusted, DeltaOf, DeltaRight;
    if r.Ok? && r.value.Some? {
      if slug !in indexed {
        assert RemovalRight(c, snapshot, r.value.value, found.value);
      } else if found.Some? {
        DeltaIsRight(c, snapshot, diff, slug, found.value, indexed[slug]);
        assert DeltaRight(c, snapshot, diff, r.value.value, found.value, indexed[slug]);
      }
    }
  }

  /** All of a request: one change each for the slugs that need one, or a refusal if one of them conflicts. */
  lemma {:induction false} ChangesForMean(c: Context, snapshot: Snapshot, diff: Differ, requested: seq<Slug>)
    requires Trusted(diff) && forall s :: s in requested && Absent(snapshot, s) ==> s in snapshot.missing
    requires forall i, j :: 0 <= i < j < |requested| ==> requested[i] != requested[j]
    ensures var r := ChangesFor(c, snapshot, diff, requested);
            && (r.Err? <==> exists s :: s in requested && Conflicts(c, snapshot, s))
            && (r.Ok? ==> ChangesRight(c, snapshot, diff, requested, r.value))
  {
    if requested == [] {
      assert ChangesRight(c, snapshot, diff, [], []);
    } else {
      var n := |requested| - 1;
      assert requested == requested[..n] + [requested[n]];
      ChangesForMean(c, snapshot, diff, requested[..n]);
      ChangeForMeans(c, snapshot, diff, requested[n]);
      hide ChangeFor, ChangesRight, ChangeRight, Needs, Conflicts, Absent, Trusted;
      var before, one := ChangesFor(c, snapshot, diff, requested[..n]), ChangeFor(c, snapshot, diff, requested[n]);
      if before.Ok? && one.Ok? {
        OneMoreRight(c, snapshot, diff, requested[..n], before.value, requested[n], one.value);
      }
    }
  }

  lemma OneMoreRight(c: Context, snapshot: Snapshot, diff: Differ, requested: seq<Slug>, changes: seq<Change>, slug: Slug, one: Option<Change>)
    requires ChangesRight(c, snapshot, diff, requested, changes) && slug !in requested
    requires one.Some? <==> Needs(c, snapshot, slug)
    requires one.Some? ==> one.value.slug == slug && ChangeRight(c, snapshot, diff, one.value)
    ensures ChangesRight(c, snapshot, diff, requested + [slug], changes + (if one.Some? then [one.value] else []))
  {
    hide ChangeRight, Needs;
    var more := changes + (if one.Some? then [one.value] else []);
    assert one.Some? ==> more[|changes|] == one.value;
    forall s | s in requested + [slug] && Needs(c, snapshot, s) ensures exists k :: 0 <= k < |more| && more[k].slug == s {
      if s != slug {
        var k :| 0 <= k < |changes| && changes[k].slug == s;
        assert more[k].slug == s;
      }
    }
  }

  ghost predicate ChangesRight(c: Context, snapshot: Snapshot, diff: Differ, requested: seq<Slug>, changes: seq<Change>) {
    && (forall k :: 0 <= k < |changes| ==> changes[k].slug in requested && Needs(c, snapshot, changes[k].slug) && ChangeRight(c, snapshot, diff, changes[k]))
    && (forall j, k :: 0 <= j < k < |changes| ==> changes[j].slug != changes[k].slug)
    && (forall s :: s in requested && Needs(c, snapshot, s) ==> exists k :: 0 <= k < |changes| && changes[k].slug == s)
  }

  lemma NotRefused(c: Context, snapshot: Snapshot, slugs: seq<Slug>, maxChars: int, diff: Differ, size: Packet -> nat)
    requires Trusted(diff) && !Prepared(c, snapshot, slugs, maxChars, diff, size).1.Refused?
    ensures var r, outcome := ChangesFor(c, snapshot, diff, Unique(slugs)), Prepared(c, snapshot, slugs, maxChars, diff, size).1;
            && snapshot.room == c.room && (forall s :: s in Unique(slugs) && s !in Indexed(snapshot.pages) ==> s in snapshot.missing)
            && r.Ok? && (outcome.Current? ==> r.value == [])
            && (outcome.Offered? ==>
                  && outcome.packet == Packet(c.room, c.contextId, c.generation, snapshot.revision, r.value)
                  && r.value != [] && size(outcome.packet) <= maxChars)
  {
    hide Unique, Indexed, ChangesFor, Trusted, Record, SlugsOf, OfferedBy;
  }

  /** An offer is right; `Current` means that no slug needs a change; and neither is said of a conflict. */
  lemma PreparedMeans(c: Context, snapshot: Snapshot, slugs: seq<Slug>, maxChars: int, diff: Differ, size: Packet -> nat)
    requires Trusted(diff)
    ensures var outcome := Prepared(c, snapshot, slugs, maxChars, diff, size).1;
            && (outcome.Offered? ==> OfferRight(c, snapshot, slugs, diff, outcome.packet) && outcome.packet.changes != [] && size(outcome.packet) <= maxChars)
            && (outcome.Current? ==> forall s :: s in slugs ==> !Needs(c, snapshot, s))
            && (!outcome.Refused? ==> forall s :: s in slugs ==> !Conflicts(c, snapshot, s) && (Absent(snapshot, s) ==> s in snapshot.missing))
  {
    if !Prepared(c, snapshot, slugs, maxChars, diff, size).1.Refused? {
      NotRefused(c, snapshot, slugs, maxChars, diff, size);
      UniqueMeans(slugs);
      forall s ensures s in Indexed(snapshot.pages) <==> !Absent(snapshot, s) {
        LookupsMean(c, snapshot, s);
      }
      ChangesForMean(c, snapshot, diff, Unique(slugs));
      hide Absent, Needs, ChangeRight, Conflicts, Unique, Indexed, ChangesFor, Trusted, Prepared;
    }
  }
}
