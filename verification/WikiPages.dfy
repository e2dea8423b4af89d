/**
  The per-page context cache (wiki_context.py) as a value: what an offer contains, what an
  acknowledgement and a reset do, and what the model holds after applying acknowledged packets.
 */
module WikiPages {
  import opened Common
  import opened WikiDeltas

  type Slug = string

  datatype Page = Page(title: string, revision: int, sources: seq<string>, body: string)

  /** SHA-256 of a canonical encoding, taken as injective. */
  datatype Digest<T> = Digest(of: T)

  datatype Change =
    | Bootstrap(slug: Slug, title: string, revision: int, sources: seq<string>, hash: Digest<Page>, body: string)
    | Delta(slug: Slug, title: string, revision: int, sources: seq<string>, hash: Digest<Page>,
            baseRevision: int, baseHash: Digest<Page>, sections: seq<Section>)
    | Removed(slug: Slug, revision: int, baseRevision: int, baseHash: Digest<Page>)

  datatype Packet = Packet(room: string, contextId: string, generation: nat, snapshotRevision: int, changes: seq<Change>)

  type PacketId = Digest<Packet>

  datatype Snapshot = Snapshot(room: string, revision: int, pages: seq<(Slug, Page)>, missing: seq<Slug>)

  datatype Entry = Entry(slug: Slug, page: Page)

  /** `injected` is insertion-ordered; the offer under a packet id is what its changes lead to. */
  datatype Context = Context(
    room: string, contextId: string, maxPages: nat, generation: nat,
    injected: seq<Entry>, pending: map<PacketId, seq<(Slug, Option<Page>)>>, latest: map<Slug, PacketId>)

  datatype Refusal =
    | OtherRoom | InvalidBudget | TooManyPages | AbsentPage | StaleRemoval | InvalidRevision | StalePage
    | ChangedWithoutRevision | PacketTooLarge | CacheFull

  datatype Outcome = Refused(why: Refusal) | Current | Offered(packet: Packet)

  type Differ = (seq<string>, seq<string>) -> seq<Opcode>

  ghost predicate Trusted(diff: Differ) {
    forall a, b :: Tiles(diff(a, b), a, b)
  }

  // ---- Lookups ----

  /** The pages of a snapshot by slug; a later duplicate wins. */
  function Indexed(pages: seq<(Slug, Page)>): map<Slug, Page> {
    if pages == [] then map[]
    else
      var last := pages[|pages| - 1];
      Indexed(pages[..|pages| - 1])[last.0 := last.1]
  }

  /** The requested slugs, each once, in order of first request. */
  function Unique(slugs: seq<Slug>): seq<Slug> {
    if slugs == [] then []
    else
      var before, last := Unique(slugs[..|slugs| - 1]), slugs[|slugs| - 1];
      if last in before then before else before + [last]
  }

  function Find(injected: seq<Entry>, slug: Slug): Option<Page> {
    if injected == [] then None
    else if injected[0].slug == slug then Some(injected[0].page)
    else Find(injected[1..], slug)
  }

  // ---- Offers ----

  datatype Result<T> = Ok(value: T) | Err(why: Refusal)

  function BootstrapOf(slug: Slug, page: Page): Change {
    Bootstrap(slug, page.title, page.revision, page.sources, Digest(page), page.body)
  }

  function DeltaOf(slug: Slug, page: Page, base: Page, ops: seq<Opcode>): Change
    requires InRange(ops, SplitLines(base.body), SplitLines(page.body))
  {
    Delta(slug, page.title, page.revision, page.sources, Digest(page), base.revision, Digest(base),
          Sections(ops, SplitLines(base.body), SplitLines(page.body)))
  }

  ghost function OpsOf(diff: Differ, base: Page, page: Page): (ops: seq<Opcode>)
    requires Trusted(diff)
    ensures InRange(ops, SplitLines(base.body), SplitLines(page.body))
  {
    var ops := diff(SplitLines(base.body), SplitLines(page.body));
    TilesInRange(ops, SplitLines(base.body), SplitLines(page.body), 0, 0);
    ops
  }

  /** The change one requested slug needs: none, one, or a refusal. */
  ghost function ChangeFor(c: Context, snapshot: Snapshot, diff: Differ, slug: Slug): Result<Option<Change>>
    requires Trusted(diff)
  {
    var indexed, previous := Indexed(snapshot.pages), Find(c.injected, slug);
    if slug !in indexed then
      if previous.None? then Ok(None)
      else if snapshot.revision <= previous.value.revision then Err(StaleRemoval)
      else Ok(Some(Removed(slug, snapshot.revision, previous.value.revision, Digest(previous.value))))
    else
      var page := indexed[slug];
      if page.revision < 0 then Err(InvalidRevision)
      else if previous.None? then Ok(Some(BootstrapOf(slug, page)))
      else if page.revision < previous.value.revision then Err(StalePage)
      else if page.revision == previous.value.revision then
        if page != previous.value then Err(ChangedWithoutRevision) else Ok(None)
      else Ok(Some(DeltaOf(slug, page, previous.value, OpsOf(diff, previous.value, page))))
  }

  /** All changes, in request order; the first refusal wins. */
  ghost function ChangesFor(c: Context, snapshot: Snapshot, diff: Differ, requested: seq<Slug>): Result<seq<Change>>
    requires Trusted(diff)
  {
    if requested == [] then Ok([])
    else
      var before := ChangesFor(c, snapshot, diff, requested[..|requested| - 1]);
      if before.Err? then before
      else match ChangeFor(c, snapshot, diff, requested[|requested| - 1])
        case Err(why) => Err(why)
        case Ok(None) => before
        case Ok(Some(change)) => Ok(before.value + [change])
  }

  /** The page version a change leads to; none for a removal. */
  function Target(change: Change): Option<Page> {
    if change.Removed? then None else Some(change.hash.of)
  }

  function OfferedBy(changes: seq<Change>): seq<(Slug, Option<Page>)> {
    seq(|changes|, k requires 0 <= k < |changes| => (changes[k].slug, Target(changes[k])))
  }

  function SlugsOf(offer: seq<(Slug, Option<Page>)>): set<Slug> {
    set k | 0 <= k < |offer| :: offer[k].0
  }

  function LatestWith(latest: map<Slug, PacketId>, slugs: set<Slug>, id: PacketId): map<Slug, PacketId> {
    map s | s in latest.Keys + slugs :: if s in slugs then id else latest[s]
  }

  /** Offers that no slug's latest offer names any more are dropped. */
  function Surviving(pending: map<PacketId, seq<(Slug, Option<Page>)>>, latest: map<Slug, PacketId>): map<PacketId, seq<(Slug, Option<Page>)>> {
    map id | id in pending && id in latest.Values :: pending[id]
  }

  function Record(c: Context, packet: Packet): Context {
    var id, offer := Digest(packet), OfferedBy(packet.changes);
    var latest := LatestWith(c.latest, SlugsOf(offer), id);
    c.(pending := Surviving(c.pending[id := offer], latest), latest := latest)
  }

  ghost function Prepared(c: Context, snapshot: Snapshot, slugs: seq<Slug>, maxChars: int, diff: Differ, size: Packet -> nat): (Context, Outcome)
    requires Trusted(diff)
  {
    var requested := Unique(slugs);
    if snapshot.room != c.room then (c, Refused(OtherRoom))
    else if !(1 <= maxChars <= 128_000) then (c, Refused(InvalidBudget))
    else if |requested| > c.maxPages then (c, Refused(TooManyPages))
    else if exists s :: s in requested && s !in Indexed(snapshot.pages) && s !in snapshot.missing then (c, Refused(AbsentPage))
    else match ChangesFor(c, snapshot, diff, requested)
      case Err(why) => (c, Refused(why))
      case Ok(changes) =>
        var packet := Packet(c.room, c.contextId, c.generation, snapshot.revision, changes);
        if changes == [] then (c, Current)
        else if size(packet) > maxChars then (c, Refused(PacketTooLarge))
        else if |c.latest.Keys + SlugsOf(OfferedBy(changes))| > c.maxPages then (c, Refused(CacheFull))
        else (Record(c, packet), Offered(packet))
  }

  // ---- Acknowledgement and reset ----

  function Without(injected: seq<Entry>, slug: Slug): seq<Entry> {
    if injected == [] then []
    else if injected[0].slug == slug then Without(injected[1..], slug)
    else [injected[0]] + Without(injected[1..], slug)
  }

  /** Pop and re-insert at the end, or only pop for a removal. */
  function Place(injected: seq<Entry>, slug: Slug, page: Option<Page>): seq<Entry> {
    Without(injected, slug) + if page.Some? then [Entry(slug, page.value)] else []
  }

  function PlaceAll(injected: seq<Entry>, offer: seq<(Slug, Option<Page>)>): seq<Entry> {
    if offer == [] then injected
    else
      var last := offer[|offer| - 1];
      Place(PlaceAll(injected, offer[..|offer| - 1]), last.0, last.1)
  }

  /** The oldest entries beyond the limit are evicted. */
  function Evict(injected: seq<Entry>, limit: nat): seq<Entry> {
    if |injected| <= limit then injected else injected[|injected| - limit..]
  }

  /** Only an offer that is the latest for each of its slugs can be acknowledged. */
  predicate Ackable(c: Context, id: PacketId) {
    id in c.pending && forall s :: s in SlugsOf(c.pending[id]) ==> s in c.latest && c.latest[s] == id
  }

  function Acknowledged(c: Context, id: PacketId, room: string, contextId: string): (Context, bool) {
    if room != c.room || contextId != c.contextId || !Ackable(c, id) then (c, false)
    else
      var offer := c.pending[id];
      (c.(injected := Evict(PlaceAll(c.injected, offer), c.maxPages),
          pending := c.pending - {id}, latest := c.latest - SlugsOf(offer)), true)
  }

  function ResetTo(c: Context, contextId: string): Context {
    c.(contextId := contextId, generation := c.generation + 1, injected := [], pending := map[], latest := map[])
  }

  // ---- What the model holds ----

  type Model = map<Slug, Page>

  /** A delta is usable only on exactly the base it was computed from. */
  predicate MeetsBase(model: Model, change: Change) {
    change.Bootstrap? || (change.slug in model && Digest(model[change.slug]) == change.baseHash)
  }

  /** What the model holds after reading one change of an accepted packet. */
  function Read(model: Model, change: Change): Model {
    match change
    case Bootstrap(slug, title, revision, sources, _, body) => model[slug := Page(title, revision, sources, body)]
    case Delta(slug, title, revision, sources, _, _, _, sections) =>
      if slug in model then model[slug := Page(title, revision, sources, Patch(model[slug].body, sections))] else model
    case Removed(slug, _, _, _) => model - {slug}
  }

  function ReadAll(model: Model, changes: seq<Change>): Model {
    if changes == [] then model else Read(ReadAll(model, changes[..|changes| - 1]), changes[|changes| - 1])
  }
}
