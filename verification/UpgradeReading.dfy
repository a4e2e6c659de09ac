/** What reading the unread side of an item's conflict keeps, through the hub. */
module UpgradeReading {
  import opened Wrappers
  import opened Entities
  import opened HubModel
  import opened HubMerge
  import U = UpgradeModel

  /** A live item in conflict whose binding of `s` is in none, its base naming a revision and no body. */
  predicate UnreadSide(h: HubState, s: Source, link: LinkId) {
    && Idle(h) && link in h.items && s in h.items[link].sources
    && var item, binding := h.items[link], h.items[link].sources[s];
       && !item.deleted && item.conflicted
       && !binding.conflicted && binding.conflictRevision.None?
       && Revised(binding.base) && binding.base.value.body.None?
  }

  /** The row the upgrade loads of it. */
  function Row(h: HubState, c: Collection, s: Source, link: LinkId): Placement
    requires link in h.items && s in h.items[link].sources
  {
    BoundPlacement(c, link, h.items[link], h.items[link].sources[s], Conflict)
  }

  lemma RowIsProjected(h: HubState, c: Collection, s: Source, link: LinkId)
    requires UnreadSide(h, s, link)
    ensures Seen(c, s, link, h.items[link]) == Some(Row(h, c, s, link)) && U.IsItemConflict(Row(h, c, s, link))
  {
    assert h.items[link].sources != map[];
  }

  function ReadRow(h: HubState, c: Collection, s: Source, link: LinkId, item: FetchedItem, fetched: Hash): Placement
    requires link in h.items && s in h.items[link].sources
  {
    U.ReadAtLast(Row(h, c, s, link), item, fetched)
  }

  /** The hub once the upgrade has read `fetched`. */
  function Reading(h: HubState, c: Collection, s: Source, link: LinkId, item: FetchedItem, fetched: Hash): HubState
    requires link in h.items && s in h.items[link].sources
  {
    Absorb(h, s, [Upsert(ReadRow(h, c, s, link, item, fetched))])
  }

  /** What the fetch of the row adds to the batch is, to the hub, that upsert. */
  lemma FetchStepReads(
      h: HubState, c: Collection, s: Source, link: LinkId, opts: U.Options, st: U.Progress, item: FetchedItem)
    requires UnreadSide(h, s, link) && item.body.Some?
    requires item.handle in st.rows && st.rows[item.handle] == Row(h, c, s, link)
    ensures var ops := U.FetchStep(c, FullTier, opts, st, item).ops;
      st.ops <= ops && Absorb(h, s, ops[|st.ops|..]) == Reading(h, c, s, link, item, item.body.value.blob.hash)
  {
    var hash := item.body.value.blob.hash;
    var store, read := U.StoreOf(item.body.value), Upsert(ReadRow(h, c, s, link, item, hash));
    assert U.FetchStep(c, FullTier, opts, st, item).ops[|st.ops|..] == [store, read];
    hide AbsorbUpsert, AbsorbOps;
    AbsorbTwo(h, s, store, read);
    AbsorbOne(h, s, read);
  }

  lemma ReadIsOneUpsert(
      h: HubState, c: Collection, s: Source, link: LinkId, item: FetchedItem, fetched: Hash, body: Hash)
    requires UnreadSide(h, s, link)
    ensures var p := ReadRow(h, c, s, link, item, fetched);
      && p.link == Some(link) && p.body == Some(fetched) && MetBy(h, s, p) == h.items[link] && !p.status.Tombstone?
      && Keeps(h, Reading(h, c, s, link, item, fetched), link, body) == Keeps(h, AbsorbUpsert(h, s, p), link, body)
  {
    hide AbsorbUpsert;
    OneUpsert(h, s, ReadRow(h, c, s, link, item, fetched));
  }

  /**
    Reading the unread side, body by body. The body read is kept; the shared one exactly when
    the hub had moved under the binding or the fetch is of another revision; a recorded
    divergence exactly when the item held no other body for the read one to replace.
  */
  lemma ReadKeepsBodies(h: HubState, c: Collection, s: Source, link: LinkId, item: FetchedItem, fetched: Hash)
    requires UnreadSide(h, s, link)
    ensures var h', was := Reading(h, c, s, link, item, fetched), h.items[link];
      && Keeps(h, h', link, fetched)
      && (item.revision.Some? ==>
          BaseOf(h'.items[link], s) == Some(Base(was.sources[s].base.value.flags, item.revision, Some(fetched))))
      && (forall shared :: was.body == Some(shared) && shared != fetched ==>
            (Keeps(h, h', link, shared) <==>
             HubMoved(was, s) || item.revision != was.sources[s].base.value.revision))
      && (forall recorded :: was.conflictBody == Some(recorded) && recorded != fetched && was.body != Some(recorded) ==>
            (Keeps(h, h', link, recorded) <==> was.body.None? || was.body == Some(fetched)))
  {
    hide AbsorbUpsert, Met, Reading, Absorb, Keeps;
    var was, p := h.items[link], ReadRow(h, c, s, link, item, fetched);
    forall body: Hash
      ensures Keeps(h, Reading(h, c, s, link, item, fetched), link, body) == Keeps(h, AbsorbUpsert(h, s, p), link, body)
    {
      ReadIsOneUpsert(h, c, s, link, item, fetched, body);
    }
    ReadIsOneUpsert(h, c, s, link, item, fetched, fetched);
    ReadRebases(h, c, s, link, item, fetched);
    assert Mutable(was, p);
    if was.body != Some(fetched) {
      IncomingBodyKeptIff(h, s, p, fetched);
      if was.body.Some? {
        SharedBodyKeptIff(h, s, p, was.body.value);
      }
    } else {
      RestatedKeeps(h, s, p, fetched);
    }
    if was.conflictBody.Some? && was.conflictBody != Some(fetched) && was.conflictBody != was.body {
      RecordedBodyKeptIff(h, s, p, was.conflictBody.value);
    }
  }

  lemma ReadRebases(h: HubState, c: Collection, s: Source, link: LinkId, item: FetchedItem, fetched: Hash)
    requires UnreadSide(h, s, link)
    ensures var h' := Reading(h, c, s, link, item, fetched);
      && link in h'.items
      && (item.revision.Some? ==>
          BaseOf(h'.items[link], s) ==
            Some(Base(h.items[link].sources[s].base.value.flags, item.revision, Some(fetched))))
  {
    hide AbsorbUpsert;
    var p := ReadRow(h, c, s, link, item, fetched);
    OneUpsert(h, s, p);
    EndsAsWeighed(h, s, p);
    if item.revision.Some? {
      UpsertRebases(h, s, p);
    }
  }

  lemma RestatedKeeps(h: HubState, s: Source, p: Placement, body: Hash)
    requires p.link.Some? && !p.status.Tombstone? && p.body == Some(body) && MetBy(h, s, p).body == p.body
    ensures Keeps(h, AbsorbUpsert(h, s, p), p.link.value, body)
  {
    hide AbsorbUpsert, Met, Restated, Mutable;
    EndsAsWeighed(h, s, p);
    RestatingKeepsFacts(MetBy(h, s, p), s, p);
  }

  // ---------- A run that loses both ----------

  /** The upsert of that run: `handle` under the item's link, its base naming `revision`. */
  function Upserted(
      c: Collection, link: LinkId, handle: Handle, body: Option<Hash>, status: Status, base: Base): Placement {
    Placement(c, handle, Some(link), body, Full, None, "", NO_FLAGS, status, None, None, Some(base), None)
  }

  /** `s` pulls the item unread and edits it. */
  function Filled(c: Collection, link: LinkId, s: Source, edit: Hash, r: Revision): HubState {
    var unread := Base(NO_FLAGS, Some(r), None);
    var h0 := HubState(map[], Manual, [], [], [], map[], {}, {});
    var h1 := Absorb(h0, s, [Upsert(Upserted(c, link, "1", None, Clean, unread))]);
    Absorb(h1, s, [Upsert(Upserted(c, link, "1", Some(edit), Dirty, unread))])
  }

  /** Then `t` edits it too, which is recorded. */
  function Divided(c: Collection, link: LinkId, s: Source, t: Source, edit: Hash, other: Hash, r: Revision): HubState {
    var unread := Base(NO_FLAGS, Some(r), None);
    Absorb(Filled(c, link, s, edit, r), t, [Upsert(Upserted(c, link, "1", Some(other), Dirty, unread))])
  }

  lemma FilledIs(c: Collection, link: LinkId, s: Source, edit: Hash, r: Revision)
    ensures var h := Filled(c, link, s, edit, r);
      && Idle(h) && h.policy.Manual? && link in h.items && h.items[link].body == Some(edit) && !h.items[link].conflicted
      && h.items[link].sources ==
         map[s := Binding("1", Some(Base(NO_FLAGS, Some(r), None)), false, None, None, Some(edit))]
  {
    var unread := Base(NO_FLAGS, Some(r), None);
    var h0 := HubState(map[], Manual, [], [], [], map[], {}, {});
    var p := Upserted(c, link, "1", None, Clean, unread);
    OneUpsert(h0, s, p);
    var h1 := Absorb(h0, s, [Upsert(p)]);
    PulledUnread(h0, s, p);
    FilledItem(h1, s, Upserted(c, link, "1", Some(edit), Dirty, unread), edit);
  }

  lemma PulledUnread(h: HubState, s: Source, p: Placement)
    requires h.items == map[] && Idle(h) && p.link.Some? && p.body.None? && p.status.Clean? && p.conflictRevision.None?
    requires Revised(p.base) && p.base.value.body.None?
    ensures var h', link := Ended(AbsorbUpsert(h, s, p)), p.link.value;
      && Idle(h') && h'.policy == h.policy && link in h'.items && h'.items[link].body.None?
      && !h'.items[link].conflicted
      && h'.items[link].sources == map[s := Binding(p.handle, p.base, false, None, None, None)]
  {
    hide Described, KeptEntries;
    var met := MetBy(h, s, p);
    RestatingKeepsFacts(met, s, p);
    assert Reconcile(Restated(met, p), s, p, h.policy) == (Restated(met, p), NOTHING);
    DescribedKeeps(Restated(met, p), met, p, false);
  }

  lemma DescribedKeeps(item: Item, held: Item, p: Placement, keptShared: bool)
    ensures var d := Described(item, held, p, keptShared);
      && d.body == item.body && d.sources == item.sources && d.deleted == item.deleted
      && d.conflicted == item.conflicted && d.conflictBody == item.conflictBody
  {
  }

  lemma FilledItem(h: HubState, s: Source, p: Placement, edit: Hash)
    requires Idle(h) && p.link.Some? && p.link.value in h.items && h.items[p.link.value].body.None?
    requires !h.items[p.link.value].conflicted
    requires h.items[p.link.value].sources == map[s := Binding(p.handle, p.base, false, None, None, None)]
    requires p.body == Some(edit) && p.status.Dirty? && p.conflictRevision.None?
    requires Revised(p.base) && p.base.value.body.None?
    ensures var h', link := Absorb(h, s, [Upsert(p)]), p.link.value;
      && Idle(h') && h'.policy == h.policy && link in h'.items && h'.items[link].body == Some(edit)
      && !h'.items[link].conflicted
      && h'.items[link].sources == map[s := Binding(p.handle, p.base, false, None, None, Some(edit))]
  {
    hide Described, KeptEntries, Restated;
    OneUpsert(h, s, p);
    var met := MetBy(h, s, p);
    RestatingKeepsFacts(met, s, p);
    var filled := Restated(met, p).(body := Some(edit));
    assert Reconcile(Restated(met, p), s, p, h.policy) == (filled, NOTHING);
    DescribedKeeps(filled, met, p, false);
  }

  lemma DividedIs(c: Collection, link: LinkId, s: Source, t: Source, edit: Hash, other: Hash, r: Revision)
    requires s != t && edit != other
    ensures var h := Divided(c, link, s, t, edit, other, r);
      && UnreadSide(h, s, link) && h.items[link].body == Some(edit) && h.items[link].conflictBody == Some(other)
      && !HubMoved(h.items[link], s) && h.items[link].sources[s].base == Some(Base(NO_FLAGS, Some(r), None))
  {
    hide Filled, Described, Restated, KeptEntries, Reconcile;
    FilledIs(c, link, s, edit, r);
    var h, p := Filled(c, link, s, edit, r), Upserted(c, link, "1", Some(other), Dirty, Base(NO_FLAGS, Some(r), None));
    OneUpsert(h, t, p);
    var item := h.items[link];
    DivergeIsSettled(item, t, p, h.policy);
    RestatingKeepsFacts(item, t, p);
    var (decided, verdict) := Diverge(Restated(item, p), p.body, h.policy);
    DescribedKeeps(decided, item, p, verdict.keptShared);
  }

  /**
    Both are lost in one read: under the manual policy, the edit and the divergence recorded
    over it are kept nowhere once the full upgrade reads a third body at the base's revision.
  */
  lemma ReadLosesBoth(
      c: Collection, link: LinkId, s: Source, t: Source, edit: Hash, other: Hash, item: FetchedItem, fetched: Hash)
    requires s != t && edit != other && fetched != edit && fetched != other && item.revision.Some?
    ensures var h := Divided(c, link, s, t, edit, other, item.revision.value);
      && UnreadSide(h, s, link) && h.items[link].body == Some(edit) && h.items[link].conflictBody == Some(other)
      && !Keeps(h, Reading(h, c, s, link, item, fetched), link, edit)
      && !Keeps(h, Reading(h, c, s, link, item, fetched), link, other)
  {
    hide Divided, Reading, Keeps;
    DividedIs(c, link, s, t, edit, other, item.revision.value);
    ReadKeepsBodies(Divided(c, link, s, t, edit, other, item.revision.value), c, s, link, item, fetched);
  }
}
