/** The plain fetch: what it writes of a row, what the hub holds after it, and that it ends the asking. */
module UpgradeFetch {
  import opened Wrappers
  import opened Entities
  import opened HubModel
  import opened HubMerge
  import opened HubBodies
  import U = UpgradeModel

  /** The row as the fetch names it, its key given where it had none, before its body is set. */
  function Named(tier: Tier, st: U.Progress, item: FetchedItem): Placement
    requires item.handle in st.rows
  {
    var p := U.Afresh(st.rows[item.handle], item);
    match U.GivenTo(tier, st, item)
    case FreshKey(key) => U.Keyed(p, key, item)
    case _ => p
  }

  /** A full fetch of a row in no conflict, which lands no create. */
  predicate Plain(st: U.Progress, item: FetchedItem) {
    && item.handle in st.rows && !st.rows[item.handle].status.Conflict?
    && !U.GivenTo(FullTier, st, item).LandsCreate?
  }

  /** The upsert a step ends with, as the row `n` and the fetched body call for. */
  predicate Hydrates(q: Placement, n: Placement, item: FetchedItem, hash: Hash) {
    && q.handle == n.handle && q.link == n.link && q.flags == n.flags && q.level.Full? && q.sortKey == item.sortKey
    && q.summary == (if item.summary.Some? then WithoutBody(n.summary, item.summary, false) else n.summary)
    && (!n.StagedEdit() ==>
        && q.body == Some(hash) && q.status == n.status && q.conflictRevision == n.conflictRevision
        && (n.base.Some? ==> q.base == Some(Base(n.base.value.flags, item.revision, Some(hash)))))
    && (n.StagedEdit() ==> q.body == n.body) && (n.base.None? ==> q.base.None?)
    && (n.StagedEdit() && (item.revision.None? || item.revision == n.BaseRevision()) ==>
        && q.status == n.status
        && (n.base.Some? ==> q.base == Some(Base(n.base.value.flags, item.revision, Some(hash)))))
    && (n.StagedEdit() && item.revision.Some? && item.revision != n.BaseRevision() ==>
        && q.status.Conflict? && q.conflictRevision == item.revision && q.conflictBody == Some(hash)
        && q.base == n.base)
  }

  /** The writes of a plain fetch: the body stored, and the row hydrated over it. */
  lemma FetchStepHydrates(c: Collection, opts: U.Options, st: U.Progress, item: FetchedItem)
    requires Plain(st, item) && item.body.Some?
    ensures var ops, hash := U.FetchStep(c, FullTier, opts, st, item).ops, item.body.value.blob.hash;
      && |ops| == |st.ops| + 2 && st.ops <= ops
      && ops[|st.ops|] == StoreObject(item.body.value.blob, item.body.value.bytes)
      && ops[|st.ops| + 1].Upsert? && Hydrates(ops[|st.ops| + 1].placement, Named(FullTier, st, item), item, hash)
  {
    hide U.GivenTo, U.Afresh, U.Keyed;
    var n := Named(FullTier, st, item);
    HydratedHydrates(n, item, item.body.value.blob.hash);
    FinishWrites(st, n, item);
    FinishWrites(st.(claimed := U.FetchStep(c, FullTier, opts, st, item).claimed), n, item);
    hide U.FinishStep, U.Hydrated, U.Described, Hydrates;
  }

  lemma FinishWrites(st: U.Progress, n: Placement, item: FetchedItem)
    requires item.body.Some?
    ensures U.FinishStep(st, FullTier, n, item).ops == st.ops +
      [U.StoreOf(item.body.value), Upsert(U.Hydrated(U.Described(n, item), item, item.body.value.blob.hash))]
  {
  }

  lemma HydratedHydrates(n: Placement, item: FetchedItem, hash: Hash)
    requires item.body.Some?
    ensures Hydrates(U.Hydrated(U.Described(n, item), item, hash), n, item, hash)
  {
  }

  /** A fetch that brings no body refreshes the row and no more: its body, base and status are as they were. */
  lemma FetchStepRefreshes(c: Collection, tier: Tier, opts: U.Options, st: U.Progress, item: FetchedItem)
    requires item.handle in st.rows && !U.GivenTo(tier, st, item).LandsCreate?
    requires if tier.FullTier? then item.body.None? && !st.rows[item.handle].status.Conflict? else true
    ensures var ops, n := U.FetchStep(c, tier, opts, st, item).ops, Named(tier, st, item);
      && |ops| == |st.ops| + 1 && st.ops <= ops && ops[|st.ops|].Upsert?
      && var q := ops[|st.ops|].placement;
         && q.handle == n.handle && q.link == n.link && q.body == n.body && q.base == n.base && q.status == n.status
         && q.flags == n.flags && q.sortKey == item.sortKey && (q.level.Full? <==> n.body.Some?)
         && q.summary == WithoutBody(n.summary, item.summary, item.body.None? && n.body.Some?)
  {
    hide U.GivenTo, U.Afresh, U.Keyed;
  }

  /** What naming does to a row: nothing to a linked one, unless it states a new identity and starts afresh. */
  lemma NamingKeeps(tier: Tier, st: U.Progress, item: FetchedItem)
    requires item.handle in st.rows
    ensures var p, n := st.rows[item.handle], Named(tier, st, item);
      && n.handle == p.handle && n.flags == p.flags
      && (p.link.Some? && !U.Restates(p, item) ==> n == p)
      && (U.Restates(p, item) ==> n.body.None? && n.status.Clean? && n.conflictRevision.None?)
      && (p.link.None? ==> n.body == p.body && n.status == p.status && (p.base.Some? ==> n.base == p.base))
      && (U.GivenTo(tier, st, item).FreshKey? ==>
          n.link == Some(U.GivenTo(tier, st, item).key) && n.base.Some? &&
          (p.base.None? || U.Restates(p, item) ==> n.base == Some(Base(p.flags, item.revision, None))))
  {
    hide U.PendingCreates;
  }

  // ---------- Through the hub ----------

  /** A live item in no conflict, bound by `s` in none, and the row `s` loads of it. */
  predicate Bound(h: HubState, c: Collection, s: Source, link: LinkId, row: Placement) {
    && Idle(h) && link in h.items && s in h.items[link].sources
    && !h.items[link].deleted && !h.items[link].conflicted
    && !h.items[link].sources[s].conflicted && h.items[link].sources[s].conflictRevision.None?
    && Seen(c, s, link, h.items[link]) == Some(row)
  }

  /**
    The upsert of a fetched body over a row with no staged edit: the item ends holding it
    exactly when it already did, or its base did not name it yet and the hub had not moved to
    another body its policy keeps.
  */
  lemma FetchedIsHeldIff(h: HubState, c: Collection, s: Source, link: LinkId, row: Placement, q: Placement, hash: Hash)
    requires Bound(h, c, s, link, row) && q.link == Some(link) && !q.status.Tombstone? && !q.status.Conflict?
    requires q.body == Some(hash)
    ensures var item, h' := h.items[link], AbsorbUpsert(h, s, q);
      && link in h'.items
      && (h'.items[link].body == Some(hash) <==>
          || item.body == Some(hash)
          || (SyncedBody(item, s) != Some(hash) && (Mutable(item, q) ==> !Contested(item, s, hash, h.policy))))
  {
    hide AbsorbUpsert, Mutable, Seen, Contested;
    assert MetBy(h, s, q) == h.items[link];
    TakenIff(h, s, q, hash);
  }

  /** Absorbed, a plain fetch of a row that held no edit leaves its body with the item, as above. */
  lemma PlainFetchFills(
      h: HubState, c: Collection, s: Source, link: LinkId, opts: U.Options, st: U.Progress, item: FetchedItem)
    requires Plain(st, item) && item.body.Some?
    requires Bound(h, c, s, link, st.rows[item.handle]) && !U.Restates(st.rows[item.handle], item)
    requires !st.rows[item.handle].StagedEdit()
    ensures var ops, hash, was :=
      U.FetchStep(c, FullTier, opts, st, item).ops, item.body.value.blob.hash, h.items[link];
      && st.ops <= ops
      && var h' := Absorb(h, s, ops[|st.ops|..]);
         && link in h'.items && s in h'.items[link].sources
         && (was.body.None? && SyncedBody(was, s).None? ==> h'.items[link].body == Some(hash))
         && (was.body.Some? && !HubMoved(was, s) ==> h'.items[link].body == Some(hash))
         && (was.body.None? && SyncedBody(was, s) == Some(hash) ==> h'.items[link].body.None?)
         && (was.sources[s].base.Some? && item.revision.Some? ==>
             h'.items[link].sources[s].base == Some(Base(was.sources[s].base.value.flags, item.revision, Some(hash))))
  {
    hide U.FetchStep, U.GivenTo, AbsorbUpsert, AbsorbOps, Seen, Mutable, Hydrates, U.Restates;
    var row, hash := st.rows[item.handle], item.body.value.blob.hash;
    BoundRow(h, c, s, link, row);
    PlainNamed(st, item, link);
    FetchStepHydrates(c, opts, st, item);
    var ops := U.FetchStep(c, FullTier, opts, st, item).ops;
    var store, q := ops[|st.ops|], ops[|st.ops| + 1].placement;
    assert ops[|st.ops|..] == [store, Upsert(q)];
    HydratedRow(q, row, item, hash);
    AbsorbTwo(h, s, store, Upsert(q));
    FetchedIsHeldIff(h, c, s, link, row, q, hash);
    BindingOfUpsert(h, s, q);
    if h.items[link].body.None? && SyncedBody(h.items[link], s) == Some(hash) {
      BodylessStays(h, s, q);
    }
  }

  lemma BoundRow(h: HubState, c: Collection, s: Source, link: LinkId, row: Placement)
    requires Bound(h, c, s, link, row)
    ensures row.link == Some(link) && row.body == h.items[link].body && row.base == h.items[link].sources[s].base
    ensures !row.status.Tombstone? && !row.status.Conflict? && row.conflictRevision.None?
  {
  }

  lemma PlainNamed(st: U.Progress, item: FetchedItem, link: LinkId)
    requires Plain(st, item) && st.rows[item.handle].link == Some(link) && !U.Restates(st.rows[item.handle], item)
    ensures Named(FullTier, st, item) == st.rows[item.handle]
  {
    NamingKeeps(FullTier, st, item);
  }

  lemma HydratedRow(q: Placement, n: Placement, item: FetchedItem, hash: Hash)
    requires Hydrates(q, n, item, hash) && !n.StagedEdit()
    ensures q.link == n.link && q.body == Some(hash) && q.status == n.status && q.conflictRevision == n.conflictRevision
    ensures n.base.Some? ==> q.base == Some(Base(n.base.value.flags, item.revision, Some(hash)))
  {
  }

  lemma BindingOfUpsert(h: HubState, s: Source, q: Placement)
    requires q.link.Some? && !q.status.Tombstone?
    ensures var h', link := AbsorbUpsert(h, s, q), q.link.value;
      && link in h'.items && s in h'.items[link].sources && h'.items[link].sources[s].handle == q.handle
      && (Revised(q.base) ==> h'.items[link].sources[s].base == q.base)
  {
    hide Settled, Met, KeptEntries, LostEntry;
  }

  /** The row a source writes of the item of that run: `body` over a base naming it at `revision`. */
  function Synced(c: Collection, link: LinkId, body: Option<Hash>, revision: Revision): Placement {
    Placement(c, "1", Some(link), body, if body.Some? then Full else Meta, None, "", NO_FLAGS, Clean, None, None,
              Some(Base(NO_FLAGS, Some(revision), body)), None)
  }

  /** Two sources hold a body; then one pulls the item past it, unread. */
  function Emptied(
      c: Collection, link: LinkId, s: Source, t: Source, hash: Hash, r: Revision, later: Revision): HubState {
    var h0 := HubState(map[], Manual, [], [], [], map[], {}, {});
    var h1 := Absorb(h0, s, [Upsert(Synced(c, link, Some(hash), r))]);
    var h2 := Absorb(h1, t, [Upsert(Synced(c, link, Some(hash), r))]);
    Absorb(h2, t, [Upsert(Synced(c, link, None, later))])
  }

  function Binds(p: Placement): Binding {
    Binding(p.handle, p.base, false, None, None, p.body)
  }

  /** A synced row of a new item, or one that restates its body, binds its source and leaves the rest. */
  lemma JoinsItem(h: HubState, s: Source, p: Placement)
    requires Idle(h) && p.link.Some? && p.status.Clean? && p.conflictRevision.None? && Revised(p.base) && p.body.Some?
    requires p.link.value in h.items ==>
      var item := h.items[p.link.value];
      s !in item.sources && item.body == p.body && !item.conflicted && !item.deleted
    ensures var h', link := Absorb(h, s, [Upsert(p)]), p.link.value;
      var was := if link in h.items then h.items[link].sources else map[];
      && Idle(h') && h'.policy == h.policy && link in h'.items
      && h'.items[link].body == p.body && !h'.items[link].conflicted && !h'.items[link].deleted
      && h'.items[link].sources == was[s := Binds(p)]
  {
    hide Described, KeptEntries, Restated, Mutable;
    OneUpsert(h, s, p);
    var met := MetBy(h, s, p);
    RestatingKeepsFacts(met, s, p);
    assert Reconcile(Restated(met, p), s, p, h.policy) == (Restated(met, p), NOTHING);
    DescribedKeeps(Restated(met, p), met, p, false);
  }

  lemma DescribedKeeps(item: Item, held: Item, p: Placement, keptShared: bool)
    ensures var d := Described(item, held, p, keptShared);
      && d.body == item.body && d.sources == item.sources && d.deleted == item.deleted
      && d.conflicted == item.conflicted
  {
  }

  lemma EmptiesItem(h: HubState, t: Source, p: Placement, hash: Hash)
    requires Idle(h) && p.link.Some? && p.link.value in h.items && p.status.Clean? && p.conflictRevision.None?
    requires p.body.None? && Revised(p.base)
    requires var item := h.items[p.link.value];
      && item.body == Some(hash) && !item.conflicted && !item.deleted && t in item.sources
      && item.sources[t].sharedBody == Some(hash) && item.sources[t].base.Some?
      && item.sources[t].base.value.body == Some(hash)
    ensures var h', link := Absorb(h, t, [Upsert(p)]), p.link.value;
      && Idle(h') && h'.policy == h.policy && link in h'.items
      && h'.items[link].body.None? && !h'.items[link].conflicted && !h'.items[link].deleted
      && SameOthers(h.items[link], h'.items[link], t)
  {
    hide Described, KeptEntries, Restated, Mutable;
    OneUpsert(h, t, p);
    var met := h.items[p.link.value];
    RestatingKeepsFacts(met, t, p);
    var (decided, verdict) := Reconcile(Restated(met, p), t, p, h.policy);
    assert decided == Adopt(Restated(met, p), None);
    DescribedKeeps(decided, met, p, verdict.keptShared);
  }

  /** The source that did not pull still names the body it synced. */
  lemma EmptiedIs(c: Collection, link: LinkId, s: Source, t: Source, hash: Hash, r: Revision, later: Revision)
    requires s != t
    ensures var h := Emptied(c, link, s, t, hash, r, later);
      && Idle(h) && link in h.items && h.items[link].body.None? && !h.items[link].conflicted && !h.items[link].deleted
      && s in h.items[link].sources && h.items[link].sources[s] == Binds(Synced(c, link, Some(hash), r))
  {
    hide Absorb;
    var h0 := HubState(map[], Manual, [], [], [], map[], {}, {});
    var p := Synced(c, link, Some(hash), r);
    JoinsItem(h0, s, p);
    var h1 := Absorb(h0, s, [Upsert(p)]);
    JoinsItem(h1, t, p);
    EmptiesItem(Absorb(h1, t, [Upsert(p)]), t, Synced(c, link, None, later), hash);
  }

  /**
    The one body a fetch never hands over: of an item another source's pull emptied, the very
    body this source's base still names. The row asks for it, and asks again once it is fetched.
  */
  lemma EmptiedIsNeverRefilled(
      c: Collection, link: LinkId, s: Source, t: Source, hash: Hash, r: Revision, later: Revision)
    returns (row: Placement, q: Placement)
    requires s != t
    ensures var h := Emptied(c, link, s, t, hash, r, later);
      && Bound(h, c, s, link, row) && row.body.None? && U.NeedsWork(row, FullTier, {})
      && q == U.Hydrated(row, FetchedItem(row.handle, link, None, "", None, Some(r)), hash)
      && var h' := AbsorbUpsert(h, s, q);
         && link in h'.items && h'.items[link].body.None? && Seen(c, s, link, h'.items[link]).Some?
         && U.NeedsWork(Seen(c, s, link, h'.items[link]).value, FullTier, {})
  {
    hide AbsorbUpsert, Absorb, Emptied;
    EmptiedIs(c, link, s, t, hash, r, later);
    var h := Emptied(c, link, s, t, hash, r, later);
    assert s in h.items[link].sources;
    row := Seen(c, s, link, h.items[link]).value;
    q := U.Hydrated(row, FetchedItem(row.handle, link, None, "", None, Some(r)), hash);
    BodylessStays(h, s, q);
    assert s in AbsorbUpsert(h, s, q).items[link].sources;
  }

  lemma BodylessStays(h: HubState, s: Source, q: Placement)
    requires Idle(h) && q.link.Some? && q.link.value in h.items && s in h.items[q.link.value].sources
    requires !q.status.Tombstone? && !q.status.Conflict? && q.conflictRevision.None? && q.body.Some?
    requires var item := h.items[q.link.value];
      && item.body.None? && !item.conflicted && !item.sources[s].conflicted && SyncedBody(item, s) == q.body
    ensures var h', link := AbsorbUpsert(h, s, q), q.link.value;
      && link in h'.items && h'.items[link].body.None? && !h'.items[link].conflicted && !h'.items[link].deleted
      && s in h'.items[link].sources && !h'.items[link].sources[s].conflicted
      && h'.items[link].sources[s].conflictRevision.None?
  {
    hide Restated, Mutable, KeptEntries;
    RestatingKeepsFacts(h.items[q.link.value], s, q);
    assert MetBy(h, s, q) == h.items[q.link.value];
  }

  // ---------- Which rows are fetched ----------

  /** A full upgrade asks for a row exactly when a body it should hold, or its base should name, is not there. */
  lemma NeedsBodyIff(p: Placement, missing: set<Hash>)
    ensures U.NeedsWork(p, FullTier, missing) <==>
      if p.status.Conflict? && p.conflictRevision.None? then p.BaseRevision().Some? && p.BaseBody().None?
      else if p.status.Conflict? then p.conflictBody.None?
      else
        || p.body.None? || p.level.Meta? || p.body.value in missing
        || (p.BaseRevision().Some? && p.BaseBody().None?)
  {
  }

  /** And once it hydrated a row it asks no more, unless the base it moved is missing. */
  lemma HydratedAsksNoMore(q: Placement, n: Placement, item: FetchedItem, hash: Hash, missing: set<Hash>)
    requires Hydrates(q, n, item, hash) && !n.status.Conflict? && hash !in missing
    requires n.StagedEdit() ==> n.body.value !in missing
    ensures !U.NeedsWork(q, FullTier, missing)
  {
  }

  /** A fetch by headers likewise: a row that got a summary asks for none. */
  lemma SummarizedAsksNoMore(p: Placement, missing: set<Hash>)
    ensures U.NeedsWork(p, MetaTier, missing) <==> p.summary.None?
  {
  }

  /** What is asked for is what was requested, loaded and in need, in the order requested. */
  lemma PendingIff(handles: seq<Handle>, rows: U.Rows, tier: Tier, missing: set<Hash>, handle: Handle)
    ensures handle in U.PendingHandles(handles, rows, tier, missing) <==>
      handle in handles && handle in rows && U.NeedsWork(rows[handle], tier, missing)
  {
  }
}
