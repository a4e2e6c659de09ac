/** What landing a pending create through the hub keeps, and the run in which an edit is lost. */
module UpgradeLanding {
  import opened Wrappers
  import opened Entities
  import opened Text
  import opened Keys
  import opened HubModel
  import opened HubMerge
  import opened UpgradeSettle
  import U = UpgradeModel
  import Mutation = MutateModel

  /** `create` is what `s` loads of a live item it never reconciled, `local` its body. */
  predicate PendingCreate(h: HubState, c: Collection, s: Source, link: LinkId, create: Placement, local: Hash) {
    && Idle(h) && link in h.items && h.items[link].body == Some(local)
    && Seen(c, s, link, h.items[link]) == Some(create.(origin := None))
    && create.status.Created? && create.conflictRevision.None? && create.conflictBody.None?
  }

  /** The landing's drop only sets the binding aside: what follows meets the item as it was. */
  lemma LandMeets(h: HubState, c: Collection, s: Source, link: LinkId, create: Placement, local: Hash, p: Placement)
    requires PendingCreate(h, c, s, link, create, local) && p.link == Some(link)
    ensures var h1 := AbsorbDrop(h, s, create.handle, Superseded);
      && link in h1.items && MetBy(h1, s, p) == h.items[link]
      && h1 == h.(items := h1.items, rebinding := h1.rebinding)
  {
    var item, h1 := h.items[link], AbsorbDrop(h, s, create.handle, Superseded);
    if s in item.sources {
      assert BoundAt(item, s, create.handle);
      assert link in Released(h.items, s, create.handle);
      assert (item.sources - {s})[s := item.sources[s]] == item.sources;
    }
  }

  /** What a pending create says of its item: nothing synced, no conflict on the binding. */
  lemma NeverReconciled(h: HubState, c: Collection, s: Source, link: LinkId, create: Placement, local: Hash)
    requires PendingCreate(h, c, s, link, create, local)
    ensures create.link == Some(link) && create.body == Some(local)
    ensures BaseOf(h.items[link], s).None? && !h.items[link].deleted
    ensures s in h.items[link].sources ==> !h.items[link].sources[s].conflicted && !h.items[link].conflicted
  {
  }

  /** An arrival under the create's identity, and the row it was fetched for. */
  datatype Arrival = Arrival(tier: Tier, opts: U.Options, named: Placement, item: FetchedItem) {
    function Read(): Option<Hash> {
      U.LandedBody(tier, item)
    }

    predicate Diverges(create: Placement) {
      U.LandDiverges(tier, create, item)
    }

    function Landed(create: Placement): Placement {
      U.Landed(tier, create, named, item)
    }

    function Upserts(c: Collection, create: Placement): seq<WriteOp> {
      if !Diverges(create) then [Upsert(Landed(create))]
      else if Read().Some? then U.SettleOps(c, opts, Landed(create), Read().value, item.revision)
      else [Upsert(Landed(create).(status := Conflict, conflictRevision := item.revision))]
    }
  }

  function Landing(h: HubState, c: Collection, s: Source, create: Placement, a: Arrival): HubState {
    Absorb(h, s, U.LandOps(c, a.tier, a.opts, create, a.named, a.item))
  }

  /** The hub with the provisional handle dropped. */
  function Vacated(h: HubState, s: Source, create: Placement): HubState {
    AbsorbDrop(h, s, create.handle, Superseded)
  }

  /** A landing is its upserts over the item as it was. */
  lemma LandingIs(h: HubState, c: Collection, s: Source, link: LinkId, create: Placement, local: Hash, a: Arrival)
    requires PendingCreate(h, c, s, link, create, local)
    ensures Landing(h, c, s, create, a) == Ended(AbsorbOps(Vacated(h, s, create), s, a.Upserts(c, create)))
    ensures var landed := a.Landed(create);
      && landed.link == Some(link) && landed.body == Some(local) && landed.handle == a.item.handle
      && landed.conflictRevision.None? && landed.conflictBody.None? && !landed.status.Tombstone?
      && !landed.status.Conflict?
      && MetBy(Vacated(h, s, create), s, landed) == h.items[link]
      && Restates(Vacated(h, s, create), s, link, landed, local)
  {
    NeverReconciled(h, c, s, link, create, local);
    LandMeets(h, c, s, link, create, local, a.Landed(create));
    LandingSplits(h, c, s, create, a);
    hide AbsorbOps, AbsorbDrop, Seen, Met;
  }

  lemma LandingSplits(h: HubState, c: Collection, s: Source, create: Placement, a: Arrival)
    ensures Landing(h, c, s, create, a) == Ended(AbsorbOps(Vacated(h, s, create), s, a.Upserts(c, create)))
  {
    hide U.SettleOps, U.Landed, U.LandDiverges, AbsorbDrop, AbsorbOps;
    var drop, stores, ups := Drop(c, create.handle, Superseded), Stores(a), a.Upserts(c, create);
    assert U.LandOps(c, a.tier, a.opts, create, a.named, a.item) == [drop] + stores + ups;
    AbsorbOpsConcat(h, s, [drop] + stores, ups);
    AbsorbOpsConcat(h, s, [drop], stores);
    AbsorbOne(h, s, drop);
    StoresPassBy(Vacated(h, s, create), s, a);
  }

  function Stores(a: Arrival): seq<WriteOp> {
    if a.Read().Some? then [U.StoreOf(a.item.body.value)] else []
  }

  lemma StoresPassBy(h: HubState, s: Source, a: Arrival)
    ensures AbsorbOps(h, s, Stores(a)) == h
  {
    if a.Read().Some? {
      AbsorbOne(h, s, U.StoreOf(a.item.body.value));
    }
  }

  // ---------- The branches of a landing ----------

  /** Unread: the binding conflicts at the arrival's revision, its base naming that revision and no body. */
  lemma UnreadLanding(h: HubState, c: Collection, s: Source, link: LinkId, create: Placement, local: Hash, a: Arrival)
    requires PendingCreate(h, c, s, link, create, local) && a.Diverges(create) && a.Read().None?
    ensures var h', was := Landing(h, c, s, create, a), h.items[link];
      && BindingConflict(h', s, link, local) && h'.overruled == h.overruled
      && h'.items[link].conflicted == was.conflicted && h'.items[link].conflictBody == was.conflictBody
      && h'.items[link].sources[s].base == Some(Base(a.named.flags, a.item.revision, None))
      && h'.items[link].sources[s].conflictBody.None? && h'.items[link].sources[s].conflictRevision == a.item.revision
      && h'.items[link].sources[s].handle == a.item.handle
      && (!was.conflicted ==> h'.items[link].sources[s].sharedBody == Some(local))
  {
    LandingIs(h, c, s, link, create, local, a);
    hide AbsorbOps, AbsorbUpsert, AbsorbDrop, Seen, Met;
    var h1, p := Vacated(h, s, create), a.Landed(create).(status := Conflict, conflictRevision := a.item.revision);
    AbsorbOne(h1, s, Upsert(p));
    RestatingUpsert(h1, s, link, p);
    assert h1.overruled + [] == h1.overruled;
  }

  /** Read and preferred: the pull takes the arrival's body and sets the local one aside, or records it. */
  lemma PulledLanding(h: HubState, s: Source, link: LinkId, p: Placement, local: Hash, fetched: Hash)
    requires link in h.items && p.link == Some(link) && !p.status.Tombstone? && !p.status.Conflict?
    requires h.overruling == {} && h.settling == {} && fetched != local
    requires p.body == Some(fetched) && Revised(p.base) && p.base.value.body == Some(fetched)
    requires var met := MetBy(h, s, p);
      && met.body == Some(local) && BaseOf(met, s).None? && (s in met.sources ==> !met.sources[s].conflicted)
    ensures var h' := AbsorbUpsert(h, s, p);
      && LocalKept(h, h', link, local) && link in h'.items && SyncedBody(h'.items[link], s) == Some(fetched)
      && (forall recorded :: Records(MetBy(h, s, p), recorded) && recorded != local && recorded != fetched ==>
            !Keeps(h, h', link, recorded))
  {
    hide AbsorbUpsert, Met, Restated;
    var met := MetBy(h, s, p);
    RestatingKeepsFacts(met, s, p);
    EndsAsWeighed(h, s, p);
    KeptAsideIff(h, s, p, local);
    UpsertRebases(h, s, p);
    forall recorded | Records(met, recorded) && recorded != local && recorded != fetched
      ensures !Keeps(h, AbsorbUpsert(h, s, p), link, recorded)
    {
      RecordedBodyKeptIff(h, s, p, recorded);
    }
  }

  /**
    A landing keeps the create's body and, when it reads the arrival's, that one too, under
    every policy of the source and of the hub. A divergence the item had recorded is kept
    exactly unless the landing reads another body and prefers the remote.
  */
  lemma LandKeepsBodies(h: HubState, c: Collection, s: Source, link: LinkId, create: Placement, local: Hash, a: Arrival)
    requires PendingCreate(h, c, s, link, create, local)
    ensures var h' := Landing(h, c, s, create, a);
      && LocalKept(h, h', link, local)
      && (a.Diverges(create) && a.Read().Some? ==> FetchedKept(h, h', s, link, a.Read().value))
      && (forall recorded :: Records(h.items[link], recorded) && recorded != local && Some(recorded) != a.Read() ==>
            (Keeps(h, h', link, recorded) <==>
             !(a.Diverges(create) && a.Read().Some? && U.PolicyOf(a.opts).PreferRemote?)))
  {
    LandingIs(h, c, s, link, create, local, a);
    NeverReconciled(h, c, s, link, create, local);
    hide AbsorbOps, AbsorbUpsert, AbsorbDrop, Seen, Met, U.Landed;
    var h1, landed := Vacated(h, s, create), a.Landed(create);
    if !a.Diverges(create) {
      AbsorbOne(h1, s, Upsert(landed));
      RestatingUpsert(h1, s, link, landed);
    } else if a.Read().None? {
      UnreadLanding(h, c, s, link, create, local, a);
    } else {
      ReadLanding(h1, c, s, link, landed, local, a.Read().value, a.item.revision.value, a.opts);
      LandingSince(h, h1, AbsorbOps(h1, s, a.Upserts(c, create)), s, link, local, a.Read().value);
    }
  }

  lemma LandingSince(h: HubState, h1: HubState, h2: HubState, s: Source, link: LinkId, local: Hash, fetched: Hash)
    requires h1.overruled == h.overruled
    ensures LocalKept(h1, h2, link, local) ==> LocalKept(h, Ended(h2), link, local)
    ensures FetchedKept(h1, h2, s, link, fetched) ==> FetchedKept(h, Ended(h2), s, link, fetched)
    ensures forall body: Hash :: Keeps(h, Ended(h2), link, body) == Keeps(h1, h2, link, body)
  {
    assert Ended(h2).overruled == h2.overruled;
  }

  lemma ReadLanding(
      h: HubState, c: Collection, s: Source, link: LinkId, landed: Placement, local: Hash, fetched: Hash,
      revision: Revision, opts: U.Options)
    requires Restates(h, s, link, landed, local) && fetched != local
    requires landed.conflictRevision.None? && !landed.status.Tombstone? && !landed.status.Conflict?
    requires var met := MetBy(h, s, landed); BaseOf(met, s).None? && (s in met.sources ==> !met.sources[s].conflicted)
    ensures var h' := AbsorbOps(h, s, U.SettleOps(c, opts, landed, fetched, Some(revision)));
      && LocalKept(h, h', link, local) && FetchedKept(h, h', s, link, fetched)
      && (forall recorded :: Records(MetBy(h, s, landed), recorded) && recorded != local && recorded != fetched ==>
            (Keeps(h, h', link, recorded) <==> !U.PolicyOf(opts).PreferRemote?))
  {
    hide AbsorbOps, AbsorbUpsert, Met, KeptAside;
    match U.PolicyOf(opts) {
      case Manual =>
        AbsorbOne(h, s, Upsert(U.Diverged(landed, fetched, Some(revision))));
        DivergedUpsert(h, s, link, landed, local, fetched, revision);
      case PreferLocal =>
        LocalKeepsAll(h, c, s, link, landed, local, fetched, revision);
      case PreferRemote =>
        var q := U.SettledOver(landed, Some(fetched), Full, fetched, Some(revision));
        assert U.SettleOps(c, opts, landed, fetched, Some(revision)) == [Upsert(q)];
        AbsorbOne(h, s, Upsert(q));
        SameItemMet(h, s, landed, q);
        PulledLanding(h, s, link, q, local, fetched);
    }
  }

  lemma SameItemMet(h: HubState, s: Source, p: Placement, q: Placement)
    requires p.link.Some? && q.link == p.link && p.link.value in h.items
    ensures MetBy(h, s, q) == MetBy(h, s, p)
  {
  }

  // ---------- The fetch that lands a create ----------

  /** The rows loaded: the unlinked one the arrival was fetched for, and the create of its hint. */
  predicate Awaits(st: U.Progress, create: Placement, a: Arrival, link: LinkId) {
    && a.item.link == link && a.item.handle != create.handle
    && st.rows == map[a.item.handle := a.named, create.handle := create]
    && a.named.link.None? && !(a.tier.FullTier? && U.IsConflicted(a.named))
  }

  lemma OneCreate(st: U.Progress, create: Placement, a: Arrival, link: LinkId)
    requires Awaits(st, create, a, link) && create.link == Some(link) && create.status.Created? && create.base.None?
    ensures var creates := U.PendingCreates(st.rows, a.item.link, a.item.handle);
      creates != [] && creates[0] == create.handle
  {
    var creates := U.PendingCreates(st.rows, a.item.link, a.item.handle);
    assert create.handle in Ascending(st.rows.Keys) && create.handle in creates;
    assert creates[0] in creates;
  }

  /** The fetch step over them chooses the landing, and adds its ops. */
  lemma FetchStepLands(c: Collection, st: U.Progress, link: LinkId, create: Placement, a: Arrival)
    requires Awaits(st, create, a, link) && create.link == Some(link) && create.status.Created? && create.base.None?
    ensures var ops := U.FetchStep(c, a.tier, a.opts, st, a.item).ops;
      st.ops <= ops && ops[|st.ops|..] == U.LandOps(c, a.tier, a.opts, create, a.named, a.item)
  {
    OneCreate(st, create, a, link);
    hide U.PendingCreates, U.LandOps, U.ConflictStep, U.FinishStep;
    assert U.Afresh(a.named, a.item) == a.named;
  }

  /** An upgrade of these rows that fetched one item, its whole batch absorbed. */
  function Upgraded(
      h: HubState, c: Collection, s: Source, tier: Tier, opts: U.Options, rows: U.Rows, item: FetchedItem): HubState {
    Absorb(h, s, U.WriteFetched(c, tier, opts, rows, [], [item]).ops)
  }

  function Loaded(rows: U.Rows): U.Progress {
    U.Progress(rows, U.LinksIn(rows), [], 0, 0)
  }

  lemma OneFetched(c: Collection, tier: Tier, opts: U.Options, rows: U.Rows, item: FetchedItem)
    ensures U.WriteFetched(c, tier, opts, rows, [], [item]) == U.FetchStep(c, tier, opts, Loaded(rows), item)
  {
    hide U.FetchStep;
    assert [item][1..] == [] && [item][..0] == [];
    assert SortBy(U.FetchedHandle, [item]) == [item];
    assert U.FetchAll(c, tier, opts, Loaded(rows), [item][..0]) == Loaded(rows);
  }

  // ---------- The run that loses an edit ----------

  /** The hub once `s` staged a new item into an empty one. */
  function Added(policy: Policy, c: Collection, s: Source, m: Mutation.Mutation): HubState
    requires m.Add?
  {
    Absorb(HubState(map[], policy, [], [], [], map[], {}, {}), s, Mutation.AddOps(c, m))
  }

  lemma AddedIsPending(policy: Policy, c: Collection, s: Source, m: Mutation.Mutation)
    requires m.Add?
    ensures var h := Added(policy, c, s, m);
      && m.link in h.items && Seen(c, s, m.link, h.items[m.link]).Some? && !h.items[m.link].conflicted
      && PendingCreate(h, c, s, m.link, Seen(c, s, m.link, h.items[m.link]).value, m.blob.hash)
      && Seen(c, s, m.link, h.items[m.link]).value.handle == Provisional(m.link)
  {
    var h0 := HubState(map[], policy, [], [], [], map[], {}, {});
    var ops := Mutation.AddOps(c, m);
    AbsorbTwo(h0, s, ops[0], ops[1]);
  }

  /** An upgrade by headers of the item's arrival, which states its hint and a revision. */
  predicate ArrivesUnread(m: Mutation.Mutation, a: Arrival)
    requires m.Add?
  {
    && a.tier.MetaTier? && a.item.link == m.link && a.item.revision.Some?
    && a.item.handle != Provisional(m.link) && a.named.link.None?
  }

  /** The hub once that upgrade, of the row fetched for and the create loaded beside it, is absorbed. */
  function LandedByHeaders(
      policy: Policy, c: Collection, s: Source, m: Mutation.Mutation, create: Placement, a: Arrival)
    : HubState
    requires m.Add?
  {
    Upgraded(Added(policy, c, s, m), c, s, a.tier, a.opts, map[a.item.handle := a.named, create.handle := create],
      a.item)
  }

  /** It is the landing, and leaves a binding conflict at the arrival's revision. */
  lemma AddedLands(
      policy: Policy, c: Collection, s: Source, m: Mutation.Mutation, a: Arrival) returns (create: Placement)
    requires m.Add? && ArrivesUnread(m, a)
    ensures var h := Added(policy, c, s, m);
      m.link in h.items && Seen(c, s, m.link, h.items[m.link]) == Some(create)
    ensures var h1 := LandedByHeaders(policy, c, s, m, create, a);
      && BindingConflict(h1, s, m.link, m.blob.hash) && !h1.items[m.link].conflicted
      && h1.items[m.link].sources[s].base == Some(Base(a.named.flags, a.item.revision, None))
      && h1.items[m.link].sources[s].conflictRevision == a.item.revision
      && h1.items[m.link].sources[s].handle == a.item.handle
      && h1.items[m.link].sources[s].sharedBody == Some(m.blob.hash)
  {
    hide Absorb, Seen, U.FetchStep, U.LandOps, U.WriteFetched, PendingCreate;
    AddedIsPending(policy, c, s, m);
    var h := Added(policy, c, s, m);
    create := Seen(c, s, m.link, h.items[m.link]).value;
    var rows := map[a.item.handle := a.named, create.handle := create];
    CreateRow(h, c, s, m.link, create, m.blob.hash);
    OneFetched(c, a.tier, a.opts, rows, a.item);
    FetchStepLands(c, Loaded(rows), m.link, create, a);
    UnreadLanding(h, c, s, m.link, create, m.blob.hash, a);
  }

  lemma CreateRow(h: HubState, c: Collection, s: Source, link: LinkId, create: Placement, local: Hash)
    requires PendingCreate(h, c, s, link, create, local)
    ensures create.link == Some(link) && create.status.Created? && create.base.None? && create.body == Some(local)
    ensures create.conflictRevision.None? && create.conflictBody.None?
  {
  }

  /**
    The edit a pull does not tell apart is lost, in a run anyone can make: an item is added
    offline, an upgrade of headers alone lands it on its arrival, and a full upgrade that
    prefers the remote fetches the body at that very revision. The added body is gone.
  */
  lemma LandedThenPulledLosesEdit(
      policy: Policy, c: Collection, s: Source, m: Mutation.Mutation, a: Arrival, opts: U.Options, item: FetchedItem)
    returns (create: Placement)
    requires m.Add? && ArrivesUnread(m, a) && U.PolicyOf(opts).PreferRemote?
    requires item.handle == a.item.handle && item.body.Some? && item.body.value.blob.hash != m.blob.hash
    requires item.revision.None? || item.revision == a.item.revision
    ensures var h := Added(policy, c, s, m);
      m.link in h.items && Seen(c, s, m.link, h.items[m.link]) == Some(create)
    ensures var h1 := LandedByHeaders(policy, c, s, m, create, a);
      && m.link in h1.items && h1.items[m.link].body == Some(m.blob.hash) && s in h1.items[m.link].sources
      && var h2 := Upgraded(h1, c, s, FullTier, opts, map[item.handle := Row(h1, c, s, m.link)], item);
         !LocalKept(h1, h2, m.link, m.blob.hash)
  {
    hide Absorb, Seen, U.FetchStep, U.WriteFetched, LandedByHeaders, Settling, ArrivesUnread;
    create := AddedLands(policy, c, s, m, a);
    var h1 := LandedByHeaders(policy, c, s, m, create, a);
    var rows := map[item.handle := Row(h1, c, s, m.link)];
    OneFetched(c, FullTier, opts, rows, item);
    FetchStepSettles(h1, c, s, m.link, opts, Loaded(rows), item, m.blob.hash);
    SettleKeepsBodies(h1, c, s, m.link, opts, m.blob.hash, item.body.value.blob.hash, a.item.revision.value);
  }
}
