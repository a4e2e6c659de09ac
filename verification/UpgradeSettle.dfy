/** What settling a divergence through the hub keeps, body by body. */
module UpgradeSettle {
  import opened Wrappers
  import opened Entities
  import opened HubModel
  import opened HubMerge
  import U = UpgradeModel

  /** A live item whose binding of `s` conflicts over a staged edit, `local` its body. */
  predicate BindingConflict(h: HubState, s: Source, link: LinkId, local: Hash) {
    && Idle(h) && link in h.items && s in h.items[link].sources
    && var item, binding := h.items[link], h.items[link].sources[s];
       && !item.deleted && item.body == Some(local)
       && binding.conflicted && binding.conflictRevision.Some?
       && SyncedBody(item, s) != Some(local)
  }

  /** The row the upgrade loaded, and the body it fetched of it. */
  function Row(h: HubState, c: Collection, s: Source, link: LinkId): Placement
    requires link in h.items && s in h.items[link].sources
  {
    BoundPlacement(c, link, h.items[link], h.items[link].sources[s], Conflict)
  }

  lemma RowIsProjected(h: HubState, c: Collection, s: Source, link: LinkId, local: Hash)
    requires BindingConflict(h, s, link, local)
    ensures Seen(c, s, link, h.items[link]) == Some(Row(h, c, s, link))
  {
    assert h.items[link].sources != map[];
  }

  function Settling(
      h: HubState, c: Collection, s: Source, link: LinkId, opts: U.Options, fetched: Hash, revision: Revision): HubState
    requires link in h.items && s in h.items[link].sources
  {
    Absorb(h, s, U.SettleOps(c, opts, Row(h, c, s, link), fetched, Some(revision)))
  }

  /** The fetched body ends as the item's, the binding's divergence, its base's, or set aside. */
  ghost predicate FetchedKept(h: HubState, h': HubState, s: Source, link: LinkId, fetched: Hash) {
    || (link in h'.items && h'.items[link].body == Some(fetched))
    || (link in h'.items && s in h'.items[link].sources && h'.items[link].sources[s].conflicted &&
        h'.items[link].sources[s].conflictBody == Some(fetched))
    || (link in h'.items && SyncedBody(h'.items[link], s) == Some(fetched))
    || KeptAside(h, h', link, fetched)
  }

  ghost predicate LocalKept(h: HubState, h': HubState, link: LinkId, local: Hash) {
    (link in h'.items && h'.items[link].body == Some(local)) || KeptAside(h, h', link, local)
  }

  // ---------- An upsert that restates the body ----------

  /** The upsert restates the body of the item it meets: its binding is refreshed, its content kept. */
  lemma RestatingUpsert(h: HubState, s: Source, link: LinkId, p: Placement)
    requires p.link == Some(link) && !p.status.Tombstone? && p.body.Some? && p.handle !in h.settling
    requires MetBy(h, s, p).body == p.body
    ensures var h', item := AbsorbUpsert(h, s, p), MetBy(h, s, p);
      && link in h'.items && s in h'.items[link].sources
      && var after := h'.items[link];
         && after.body == item.body && !after.deleted
         && after.sources[s] == LiveBinding(after.(sources := item.sources), s, p)
         && (after.conflicted ==> item.conflicted)
         && (p.handle !in h.overruling ==>
             after.conflicted == item.conflicted && after.conflictBody == item.conflictBody)
         && h'.rebinding == h.rebinding - {link} && h'.policy == h.policy
         && h'.settling == h.settling - {p.handle} && h'.overruling == h.overruling - {p.handle}
         && h'.overruled == Consumed(h, s, link, p).overruled
  {
    hide Met, Restated, KeptEntries, Mutable;
    var item := MetBy(h, s, p);
    RestatingKeepsFacts(item, s, p);
    assert Reconcile(Restated(item, p), s, p, h.policy) == (Restated(item, p), NOTHING);
  }

  lemma BoundIsMet(h: HubState, s: Source, p: Placement)
    requires p.link.Some? && p.link.value in h.items && s in h.items[p.link.value].sources
    ensures MetBy(h, s, p) == h.items[p.link.value]
  {
  }

  // ---------- The three policies ----------

  /** The row states the body of the item it meets, in a hub with no overrule or settle under way. */
  predicate Restates(h: HubState, s: Source, link: LinkId, row: Placement, local: Hash) {
    && link in h.items && row.link == Some(link) && row.body == Some(local) && MetBy(h, s, row).body == Some(local)
    && h.overruling == {} && h.settling == {}
  }

  /** The divergence is recorded on the binding, and nothing else changes. */
  lemma DivergedUpsert(
      h: HubState, s: Source, link: LinkId, row: Placement, local: Hash, fetched: Hash, revision: Revision)
    requires Restates(h, s, link, row, local)
    ensures var h', met := AbsorbUpsert(h, s, U.Diverged(row, fetched, Some(revision))), MetBy(h, s, row);
      && link in h'.items && s in h'.items[link].sources && h'.overruled == h.overruled
      && h'.overruling == {} && h'.settling == {}
      && var after := h'.items[link];
         && after.body == Some(local) && after.conflicted == met.conflicted && after.conflictBody == met.conflictBody
         && after.sources[s].conflicted && after.sources[s].conflictBody == Some(fetched)
  {
    hide AbsorbUpsert;
    RestatingUpsert(h, s, link, U.Diverged(row, fetched, Some(revision)));
  }

  /** The overruling upsert restates the local body over the fetched one's base, and keeps what it does not adopt. */
  lemma OverruledUpsert(h: HubState, s: Source, link: LinkId, q: Placement, local: Hash, fetched: Hash)
    requires link in h.items && s in h.items[link].sources && h.items[link].body == Some(local)
    requires h.items[link].sources[s].conflicted && h.items[link].sources[s].conflictBody == Some(fetched)
    requires q.link == Some(link) && q.body == Some(local) && !q.status.Tombstone? && fetched != local
    requires q.handle in h.overruling && h.settling == {}
    requires Revised(q.base) && q.base.value.body == Some(fetched)
    ensures var h' := AbsorbUpsert(h, s, q);
      && link in h'.items && h'.items[link].body == Some(local) && SyncedBody(h'.items[link], s) == Some(fetched)
      && KeptAside(h, h', link, fetched)
      && (forall recorded :: Records(h.items[link], recorded) && recorded != local ==> KeptAside(h, h', link, recorded))
  {
    hide AbsorbUpsert, KeptAside;
    BoundIsMet(h, s, q);
    RestatingUpsert(h, s, link, q);
    assert KeptBodies(h.items[link], s, q)[0] == fetched;
    KeptAsideIff(h, s, q, fetched);
    forall recorded | Records(h.items[link], recorded) && recorded != local
      ensures KeptAside(h, AbsorbUpsert(h, s, q), link, recorded)
    {
      OverruleKeepsRecorded(h, s, q, recorded);
      KeptAsideIff(h, s, q, recorded);
    }
  }

  /** The item's conflict is recorded over the body. */
  predicate Records(item: Item, recorded: Hash) {
    item.conflicted && item.conflictBody == Some(recorded)
  }

  lemma KeptSince(h: HubState, h1: HubState, h': HubState, link: LinkId, body: Hash)
    requires h1.overruled == h.overruled
    ensures KeptAside(h1, h', link, body) == KeptAside(h, h', link, body)
    ensures Keeps(h1, h', link, body) == Keeps(h, h', link, body)
  {
  }

  function LocalOps(c: Collection, row: Placement, fetched: Hash, revision: Revision): seq<WriteOp> {
    [Upsert(U.Diverged(row, fetched, Some(revision))), Overrule(c, row.handle),
     Upsert(U.SettledOver(row, row.body, row.level, fetched, Some(revision)))]
  }

  /** Preferring the local body: it stays, and the fetched and the recorded ones are set aside. */
  lemma LocalKeepsAll(
      h: HubState, c: Collection, s: Source, link: LinkId, row: Placement, local: Hash, fetched: Hash,
      revision: Revision)
    requires Restates(h, s, link, row, local) && fetched != local
    ensures var h' := AbsorbOps(h, s, LocalOps(c, row, fetched, revision));
      && link in h'.items && h'.items[link].body == Some(local)
      && SyncedBody(h'.items[link], s) == Some(fetched) && KeptAside(h, h', link, fetched)
      && (forall recorded :: Records(MetBy(h, s, row), recorded) && recorded != local ==>
          KeptAside(h, h', link, recorded))
  {
    hide AbsorbUpsert, AbsorbOps, KeptAside, Met;
    var p, q := U.Diverged(row, fetched, Some(revision)),
      U.SettledOver(row, row.body, row.level, fetched, Some(revision));
    assert LocalOps(c, row, fetched, revision) == [Upsert(p), Overrule(c, row.handle)] + [Upsert(q)];
    AbsorbOpsConcat(h, s, [Upsert(p), Overrule(c, row.handle)], [Upsert(q)]);
    AbsorbTwo(h, s, Upsert(p), Overrule(c, row.handle));
    DivergedUpsert(h, s, link, row, local, fetched, revision);
    var h1 := AbsorbUpsert(h, s, p);
    var h2 := h1.(overruling := h1.overruling + {row.handle});
    AbsorbOne(h2, s, Upsert(q));
    OverruledUpsert(h2, s, link, q, local, fetched);
    forall body: Hash
      ensures KeptAside(h2, AbsorbUpsert(h2, s, q), link, body) == KeptAside(h, AbsorbUpsert(h2, s, q), link, body)
    {
      KeptSince(h, h2, AbsorbUpsert(h2, s, q), link, body);
    }
  }

  /** The conflict's row states its item, in an idle hub. */
  lemma RowRestates(h: HubState, c: Collection, s: Source, link: LinkId, local: Hash)
    requires BindingConflict(h, s, link, local)
    ensures Restates(h, s, link, Row(h, c, s, link), local) && MetBy(h, s, Row(h, c, s, link)) == h.items[link]
  {
  }

  lemma ManualSettles(
      h: HubState, c: Collection, s: Source, link: LinkId, opts: U.Options, local: Hash, fetched: Hash,
      revision: Revision)
    requires BindingConflict(h, s, link, local) && U.PolicyOf(opts).Manual?
    ensures var h' := Settling(h, c, s, link, opts, fetched, revision);
      && link in h'.items && h'.items[link].body == Some(local)
      && s in h'.items[link].sources && h'.items[link].sources[s].conflicted
      && h'.items[link].sources[s].conflictBody == Some(fetched)
      && (forall recorded :: Records(h.items[link], recorded) ==> Keeps(h, h', link, recorded))
  {
    hide AbsorbUpsert, AbsorbOps, Met;
    RowRestates(h, c, s, link, local);
    AbsorbOne(h, s, Upsert(U.Diverged(Row(h, c, s, link), fetched, Some(revision))));
    DivergedUpsert(h, s, link, Row(h, c, s, link), local, fetched, revision);
  }

  lemma LocalSettles(
      h: HubState, c: Collection, s: Source, link: LinkId, opts: U.Options, local: Hash, fetched: Hash,
      revision: Revision)
    requires BindingConflict(h, s, link, local) && U.PolicyOf(opts).PreferLocal? && fetched != local
    ensures var h' := Settling(h, c, s, link, opts, fetched, revision);
      && link in h'.items && h'.items[link].body == Some(local)
      && SyncedBody(h'.items[link], s) == Some(fetched) && KeptAside(h, h', link, fetched)
      && (forall recorded :: Records(h.items[link], recorded) ==> Keeps(h, h', link, recorded))
  {
    hide AbsorbOps, Met, KeptAside;
    RowRestates(h, c, s, link, local);
    LocalKeepsAll(h, c, s, link, Row(h, c, s, link), local, fetched, revision);
    EndingKeeps(h, AbsorbOps(h, s, LocalOps(c, Row(h, c, s, link), fetched, revision)), link);
  }

  /** The end of a batch forgets only what the batch alone needed. */
  lemma EndingKeeps(h: HubState, h': HubState, link: LinkId)
    ensures Ended(h').items == h'.items
    ensures forall body: Hash :: KeptAside(h, h', link, body) ==> KeptAside(h, Ended(h'), link, body)
  {
  }

  /** A base that pins a body under no revision, which a binding's upsert rewrites to the item's. */
  predicate Unversioned(base: Option<Base>) {
    base.Some? && base.value.revision.None? && base.value.body.Some?
  }

  /**
    When adopting the fetched body keeps the local one: the base names another revision than
    the fetched one, or already the fetched body, and pins no body under no revision; or the
    item is in a conflict of its own the binding has not agreed on, which the merge records.
  */
  predicate PullKeepsLocal(item: Item, s: Source, local: Hash, fetched: Hash, revision: Revision)
    requires s in item.sources
  {
    var base, shared := item.sources[s].base, item.sources[s].sharedBody;
    || (!Unversioned(base) && (RevisionOf(base) != Some(Some(revision)) || SyncedBody(item, s) == Some(fetched)))
    || (item.conflicted && if shared.Some? then shared != Some(local) else !Unversioned(base))
  }

  /** The cleared row is folded in: the binding has left its conflict, the body untouched. */
  lemma ClearedFirst(h: HubState, c: Collection, s: Source, link: LinkId, local: Hash)
    requires BindingConflict(h, s, link, local)
    ensures var h1, item := AbsorbUpsert(h, s, U.Cleared(Row(h, c, s, link))), h.items[link];
      && h1.overruling == {} && h1.settling == {} && h1.policy == h.policy && h1.overruled == h.overruled
      && link in h1.items && s in h1.items[link].sources
      && var after := h1.items[link];
         && after.body == Some(local) && !after.deleted && !after.sources[s].conflicted
         && after.conflicted == item.conflicted && after.conflictBody == item.conflictBody
         && SyncedBody(after, s) == (if Unversioned(item.sources[s].base) then Some(local) else SyncedBody(item, s))
         && RevisionOf(BaseOf(after, s)) == RevisionOf(BaseOf(item, s))
         && after.sources[s].sharedBody == (if item.conflicted then item.sources[s].sharedBody else Some(local))
  {
    var p := U.Cleared(Row(h, c, s, link));
    RestatingUpsert(h, s, link, p);
    hide AbsorbUpsert;
    assert h.overruled + [] == h.overruled;
  }

  /** A pull is the merge and no more: the item ends on its body, and its loser is set aside. */
  lemma PullIsMerged(h: HubState, s: Source, link: LinkId, p: Placement)
    requires link in h.items && s in h.items[link].sources && p.link == Some(link) && !p.status.Tombstone?
    requires Revised(p.base) && h.overruling == {} && h.settling == {}
    ensures var h' := AbsorbUpsert(h, s, p);
      var (decided, verdict) := Reconcile(Restated(h.items[link], p), s, p, h.policy);
      && link in h'.items && h'.items[link].body == decided.body && BaseOf(h'.items[link], s) == p.base
      && |h'.overruled| == |h.overruled| + (if verdict.lost.Some? then 1 else 0)
      && (verdict.lost.Some? ==>
          h'.overruled[|h.overruled|].body == verdict.lost.value.body && h'.overruled[|h.overruled|].link == link)
  {
    hide Reconcile, Restated, KeptEntries;
    assert Met(h.items, h.rebinding, s, link, p) == h.items[link];
  }

  /** The pull over it: the local body goes aside exactly when the merge has a reason to keep it. */
  lemma ThenPulled(h: HubState, s: Source, link: LinkId, p: Placement, local: Hash, fetched: Hash)
    requires link in h.items && s in h.items[link].sources && p.link == Some(link) && !p.status.Tombstone?
      && !p.status.Conflict?
    requires h.items[link].body == Some(local) && !h.items[link].sources[s].conflicted
    requires p.body == Some(fetched) && fetched != local && Revised(p.base) && p.base.value.body == Some(fetched)
    requires h.overruling == {} && h.settling == {}
    ensures var h', item := AbsorbUpsert(h, s, p), h.items[link];
      && link in h'.items && SyncedBody(h'.items[link], s) == Some(fetched)
      && (LocalKept(h, h', link, local) <==>
          || SyncedBody(item, s) == Some(fetched) || HubMoved(item, s)
          || (RevisionOf(p.base) != RevisionOf(BaseOf(item, s)) && SyncedBody(item, s) != Some(local)))
  {
    hide AbsorbUpsert, Restated;
    RestatingKeepsFacts(h.items[link], s, p);
    PullIsMerged(h, s, link, p);
  }

  /** The fetched body is the one the base already names: the pull takes nothing. */
  predicate PullTakesNothing(item: Item, s: Source, fetched: Hash)
    requires s in item.sources
  {
    !Unversioned(item.sources[s].base) && SyncedBody(item, s) == Some(fetched)
  }

  lemma PullRecorded(h: HubState, s: Source, link: LinkId, p: Placement, fetched: Hash, recorded: Hash)
    requires link in h.items && s in h.items[link].sources && p.link == Some(link) && !p.status.Tombstone?
    requires h.items[link].body.Some? && !h.items[link].sources[s].conflicted && Records(h.items[link], recorded)
    requires p.body == Some(fetched) && h.overruling == {} && h.settling == {}
    requires Some(recorded) != p.body && Some(recorded) != h.items[link].body && p.body != h.items[link].body
    ensures Keeps(h, AbsorbUpsert(h, s, p), link, recorded) <==> SyncedBody(h.items[link], s) == Some(fetched)
  {
    hide AbsorbUpsert, Mutable;
    BoundIsMet(h, s, p);
    RecordedBodyKeptIff(h, s, p, recorded);
  }

  lemma RemoteSettles(
      h: HubState, c: Collection, s: Source, link: LinkId, opts: U.Options, local: Hash, fetched: Hash,
      revision: Revision)
    requires BindingConflict(h, s, link, local) && U.PolicyOf(opts).PreferRemote? && fetched != local
    ensures var h' := Settling(h, c, s, link, opts, fetched, revision);
      && link in h'.items && SyncedBody(h'.items[link], s) == Some(fetched)
      && (LocalKept(h, h', link, local) <==> PullKeepsLocal(h.items[link], s, local, fetched, revision))
      && (forall recorded :: Records(h.items[link], recorded) && recorded != local && recorded != fetched ==>
            (Keeps(h, h', link, recorded) <==> PullTakesNothing(h.items[link], s, fetched)))
  {
    hide AbsorbUpsert, AbsorbOps, Keeps;
    var row := Row(h, c, s, link);
    var p, q := U.Cleared(row), U.SettledOver(row, Some(fetched), Full, fetched, Some(revision));
    assert U.SettleOps(c, opts, row, fetched, Some(revision)) == [Upsert(p), Upsert(q)];
    AbsorbTwo(h, s, Upsert(p), Upsert(q));
    ClearedFirst(h, c, s, link, local);
    var h1 := AbsorbUpsert(h, s, p);
    var h2 := AbsorbUpsert(h1, s, q);
    ThenPulled(h1, s, link, q, local, fetched);
    forall recorded | Records(h.items[link], recorded) && recorded != local && recorded != fetched
      ensures Keeps(h, Ended(h2), link, recorded) <==> PullTakesNothing(h.items[link], s, fetched)
    {
      PullRecorded(h1, s, link, q, fetched, recorded);
      KeptSince(h, h1, h2, link, recorded);
      EndingKeepsBody(h, h2, link, recorded);
    }
  }

  lemma EndingKeepsBody(h: HubState, h': HubState, link: LinkId, body: Hash)
    ensures Keeps(h, Ended(h'), link, body) == Keeps(h, h', link, body)
  {
    assert Ended(h').overruled == h'.overruled;
  }

  /**
    Settling by policy, body by body. The one the server holds is kept whatever the policy;
    the local edit exactly when the policy is not to pull over it, or the pull tells it
    apart; and a divergence the item had recorded exactly when no pull takes its place.
  */
  lemma SettleKeepsBodies(
      h: HubState, c: Collection, s: Source, link: LinkId, opts: U.Options, local: Hash, fetched: Hash,
      revision: Revision)
    requires BindingConflict(h, s, link, local) && fetched != local
    ensures var h' := Settling(h, c, s, link, opts, fetched, revision);
      && FetchedKept(h, h', s, link, fetched)
      && (LocalKept(h, h', link, local) <==>
          (U.PolicyOf(opts).PreferRemote? ==> PullKeepsLocal(h.items[link], s, local, fetched, revision)))
      && (forall recorded :: Records(h.items[link], recorded) && recorded != local && recorded != fetched ==>
            (Keeps(h, h', link, recorded) <==>
             (U.PolicyOf(opts).PreferRemote? ==> PullTakesNothing(h.items[link], s, fetched))))
  {
    hide Settling, PullKeepsLocal, PullTakesNothing, Keeps;
    match U.PolicyOf(opts) {
      case Manual => ManualSettles(h, c, s, link, opts, local, fetched, revision);
      case PreferLocal => LocalSettles(h, c, s, link, opts, local, fetched, revision);
      case PreferRemote => RemoteSettles(h, c, s, link, opts, local, fetched, revision);
    }
  }

  /** The case a sync leaves: a base at another revision than the fetched one loses neither. */
  lemma SettleLosesNeither(
      h: HubState, c: Collection, s: Source, link: LinkId, opts: U.Options, local: Hash, fetched: Hash,
      revision: Revision)
    requires BindingConflict(h, s, link, local) && fetched != local
    requires Revised(h.items[link].sources[s].base) && h.items[link].sources[s].base.value.revision != Some(revision)
    ensures var h' := Settling(h, c, s, link, opts, fetched, revision);
      FetchedKept(h, h', s, link, fetched) && LocalKept(h, h', link, local)
  {
    SettleKeepsBodies(h, c, s, link, opts, local, fetched, revision);
    hide Settling;
  }

  /** Storing a body says nothing to the hub, so the fetch's whole step is the settle. */
  lemma FetchStepSettles(
      h: HubState, c: Collection, s: Source, link: LinkId, opts: U.Options, st: U.Progress, item: FetchedItem,
      local: Hash)
    requires BindingConflict(h, s, link, local)
    requires item.handle in st.rows && st.rows[item.handle] == Row(h, c, s, link)
    requires item.body.Some? && item.body.value.blob.hash != local
    ensures var ops := U.FetchStep(c, FullTier, opts, st, item).ops;
      && st.ops <= ops
      && Absorb(h, s, ops[|st.ops|..]) ==
         Settling(h, c, s, link, opts, item.body.value.blob.hash,
           Or(item.revision, h.items[link].sources[s].conflictRevision).value)
  {
    var row, hash := Row(h, c, s, link), item.body.value.blob.hash;
    var revision := Or(item.revision, row.conflictRevision);
    var store, settle := U.StoreOf(item.body.value), U.SettleOps(c, opts, row, hash, revision);
    assert U.FetchStep(c, FullTier, opts, st, item).ops[|st.ops|..] == [store] + settle;
    AbsorbOpsConcat(h, s, [store], settle);
    AbsorbOne(h, s, store);
  }

  /**
    The push whose record was lost: a conflict whose fetched body is the local one was none.
    Absorbed, the binding is out of it, its base naming the body, and no body moves.
  */
  lemma FetchStepAgrees(
      h: HubState, c: Collection, s: Source, link: LinkId, opts: U.Options, st: U.Progress, item: FetchedItem,
        local: Hash)
    requires BindingConflict(h, s, link, local)
    requires item.handle in st.rows && st.rows[item.handle] == Row(h, c, s, link)
    requires item.body.Some? && item.body.value.blob.hash == local
    ensures var ops := U.FetchStep(c, FullTier, opts, st, item).ops;
      && st.ops <= ops
      && var h', was := Absorb(h, s, ops[|st.ops|..]), h.items[link];
         && link in h'.items && h'.items[link].body == Some(local) && h'.overruled == h.overruled
         && h'.items[link].conflicted == was.conflicted && h'.items[link].conflictBody == was.conflictBody
         && s in h'.items[link].sources && !h'.items[link].sources[s].conflicted
         && h'.items[link].sources[s].base ==
            Some(Base(if was.sources[s].base.Some? then was.sources[s].base.value.flags else was.flags,
                      item.revision, Some(local)))
  {
    var row := Row(h, c, s, link);
    var store, q := U.StoreOf(item.body.value), U.LandedAfterAll(row, item, local);
    assert U.FetchStep(c, FullTier, opts, st, item).ops[|st.ops|..] == [store, Upsert(q)];
    hide AbsorbUpsert, AbsorbOps, Met;
    RowRestates(h, c, s, link, local);
    AbsorbTwo(h, s, store, Upsert(q));
    BoundIsMet(h, s, q);
    RestatingUpsert(h, s, link, q);
    assert h.overruled + [] == h.overruled;
  }
}
