/** A person's resolution, from the load it was decided over to the hub it settles. */
module Resolution {
  import opened Wrappers
  import opened Entities
  import opened Coroutine
  import opened Runs
  import opened MutateModel
  import C = MutateClass
  import Hub = HubModel
  import Merge = HubMerge

  // ---------- What an edit is refused for ----------

  /** An edit is staged exactly when its row is there, named and unreplaced, and it may settle what it meets. */
  lemma EditWritesIff(st: C.State, loaded: Loaded)
    requires st.phase.Loading? && st.mutation.Edit?
    ensures var m, found := st.mutation, FindRow(loaded.placements, st.mutation.handle);
      Writes(C.Resumed(st, Some(Load(loaded))).1) <==>
      && found.Some? && found.value.link.Some?
      && (m.ifMatch.Some? ==> found.value.body == m.ifMatch)
      && (m.overrule || MaySettle(ConflictsMet(found.value, ItemMet(loaded, found.value)), m.resolves))
  {
    hide WritesFor, ItemMet, FindRow;
  }

  /** A conflict nobody has read is settled by no resolution. */
  lemma UnreadIsUnsettled(p: Placement, item: Option<Option<Hash>>, resolves: Option<seq<Hash>>)
    requires item == Some(None) || (p.conflictRevision.Some? && p.conflictBody.None?)
    ensures !MaySettle(ConflictsMet(p, item), resolves)
  {
    var met := ConflictsMet(p, item);
    if item.Some? {
      assert met[0] == item.value;
    }
    if p.conflictRevision.Some? {
      assert met[|met| - 1] == p.conflictBody;
    }
  }

  // ---------- The load a hub answers ----------

  ghost predicate HandlesApart(rows: seq<Placement>) {
    forall i, j :: 0 <= i < j < |rows| ==> rows[i].handle != rows[j].handle
  }

  function LoadFrom(h: Hub.HubState, c: Collection, s: Source, origin: Hub.Resolver): Loaded {
    Loaded(Hub.Project(h, c, s, origin), Hub.ConflictedRows(h, Hub.Project(h, c, s, origin)))
  }

  lemma {:induction false} FindsRow(rows: seq<Placement>, p: Placement)
    requires HandlesApart(rows) && p in rows
    ensures FindRow(rows, p.handle) == Some(p)
  {
    var i :| 0 <= i < |rows| && rows[i] == p;
    if i > 0 {
      assert rows[1..][i - 1] == p;
      FindsRow(rows[1..], p);
    }
  }

  predicate RowConflicted(h: Hub.HubState, p: Placement) {
    p.link.Some? && p.link.value in h.items && h.items[p.link.value].conflicted
  }

  lemma {:induction false} NoConflictElsewhere(h: Hub.HubState, rows: seq<Placement>, handle: Handle)
    requires forall i :: 0 <= i < |rows| ==> rows[i].handle != handle
    ensures ConflictOf(Hub.ConflictedRows(h, rows), handle) == None
  {
    if rows != [] {
      NoConflictElsewhere(h, rows[1..], handle);
      var first, rest := Hub.ConflictedRows(h, rows), Hub.ConflictedRows(h, rows[1..]);
      if RowConflicted(h, rows[0]) {
        assert first == [(rows[0].handle, h.items[rows[0].link.value].conflictBody)] + rest;
        assert first[1..] == rest;
      } else {
        assert first == rest;
      }
    }
  }

  /** The load states a row's item conflict, with its diverging body, and no other's. */
  lemma {:induction false} LoadStatesConflict(h: Hub.HubState, rows: seq<Placement>, p: Placement)
    requires HandlesApart(rows) && p in rows
    ensures ConflictOf(Hub.ConflictedRows(h, rows), p.handle) ==
      if RowConflicted(h, p) then Some(h.items[p.link.value].conflictBody) else None
  {
    var i :| 0 <= i < |rows| && rows[i] == p;
    var all, rest := Hub.ConflictedRows(h, rows), Hub.ConflictedRows(h, rows[1..]);
    if RowConflicted(h, rows[0]) {
      assert all == [(rows[0].handle, h.items[rows[0].link.value].conflictBody)] + rest;
      assert all[1..] == rest;
    } else {
      assert all == rest;
    }
    if i > 0 {
      assert rows[1..][i - 1] == p;
      LoadStatesConflict(h, rows[1..], p);
    } else if !RowConflicted(h, p) {
      NoConflictElsewhere(h, rows[1..], p.handle);
    }
  }

  /** The hub, the source mutating and its mutation of a row, `p` the row it names. */
  datatype Case = Case(h: Hub.HubState, c: Collection, s: Source, origin: Hub.Resolver, m: Mutation, p: Placement)
  {
    ghost predicate Valid() {
      && Hub.Idle(h) && !m.Add? && m.handle == p.handle
      && p in Hub.Project(h, c, s, origin) && HandlesApart(Hub.Project(h, c, s, origin))
    }

    ghost predicate Edits() {
      Valid() && m.Edit?
    }

    function Turn(syncsTarget: bool): C.Outcome {
      C.Resumed(C.Initial(c, m, syncsTarget).(phase := C.Loading), Some(Load(LoadFrom(h, c, s, origin)))).1
    }
  }

  lemma CaseRow(k: Case)
    requires k.Valid()
    ensures k.p.link.Some? && k.p.link.value in k.h.items
    ensures Hub.Seen(k.c, k.s, k.p.link.value, k.h.items[k.p.link.value]) == Some(k.p.(origin := None))
    ensures FindRow(LoadFrom(k.h, k.c, k.s, k.origin).placements, k.p.handle) == Some(k.p)
    ensures ConflictOf(LoadFrom(k.h, k.c, k.s, k.origin).conflicted, k.p.handle) ==
      if RowConflicted(k.h, k.p) then Some(k.h.items[k.p.link.value].conflictBody) else None
  {
    Hub.ProjectMembers(k.h, k.c, k.s, k.origin, k.p);
    FindsRow(Hub.Project(k.h, k.c, k.s, k.origin), k.p);
    LoadStatesConflict(k.h, Hub.Project(k.h, k.c, k.s, k.origin), k.p);
  }

  /** The body is one a person was shown and named. */
  predicate Names(m: Mutation, body: Option<Hash>)
    requires m.Edit?
  {
    m.resolves.Some? && body.Some? && body.value in m.resolves.value
  }

  lemma CaseMet(k: Case)
    requires k.Valid() && RowConflicted(k.h, k.p)
    ensures ItemMet(LoadFrom(k.h, k.c, k.s, k.origin), k.p) == Some(k.h.items[k.p.link.value].conflictBody)
  {
    CaseRow(k);
  }

  /**
    No edit slips past a conflict: one that overrules nothing and does not name the item's
    diverging body, or its binding's, stages no write at all.
  */
  lemma UnnamedConflictWritesNothing(k: Case, syncsTarget: bool)
    requires k.Edits() && !k.m.overrule
    requires var item := k.h.items;
      || (RowConflicted(k.h, k.p) && !Names(k.m, item[k.p.link.value].conflictBody))
      || (k.p.conflictRevision.Some? && !Names(k.m, k.p.conflictBody))
    ensures !Writes(k.Turn(syncsTarget))
  {
    CaseRow(k);
    var loaded := LoadFrom(k.h, k.c, k.s, k.origin);
    EditWritesIff(C.Initial(k.c, k.m, syncsTarget).(phase := C.Loading), loaded);
    var met := ConflictsMet(k.p, ItemMet(loaded, k.p));
    hide LoadFrom, C.Resumed;
    if RowConflicted(k.h, k.p) && !Names(k.m, k.h.items[k.p.link.value].conflictBody) {
      CaseMet(k);
      assert met[0] == k.h.items[k.p.link.value].conflictBody;
    } else {
      assert met[|met| - 1] == k.p.conflictBody;
    }
  }

  // ---------- What a resolution settles ----------

  /** A resolution of a conflicted item states its settle before its upsert. */
  lemma ResolutionOps(k: Case, syncsTarget: bool)
    requires k.Edits() && !k.m.overrule && RowConflicted(k.h, k.p) && Writes(k.Turn(syncsTarget))
    ensures k.Turn(syncsTarget).want.ops ==
      [StoreObject(k.m.blob, Some(k.m.bytes)), Settle(k.p.collection, k.p.handle), Upsert(EditedRow(k.p, k.m))]
  {
    hide LoadFrom, EditedRow, ItemMet, ConflictsMet, MaySettle, FindRow, ConflictOf, Hub.Seen;
    CaseRow(k);
    CaseMet(k);
  }

  /** The row an edit writes: its body, its own handle and link, no divergence left on it. */
  lemma EditedRowFacts(p: Placement, m: Mutation)
    requires m.Edit?
    ensures var q := EditedRow(p, m);
      && q.body == Some(m.blob.hash) && q.handle == p.handle && q.link == p.link
      && q.conflictRevision.None? && (q.status.Tombstone? ==> p.status.Tombstone?)
      && (p.conflictRevision.Some? ==>
          q.base.Some? && q.base.value.revision == p.conflictRevision && q.base.value.body == p.conflictBody)
      && (p.conflictRevision.None? ==> q.base == p.base)
      && (p.conflictRevision.Some? ==> q.status.Dirty? || q.status.Created?)
  {
  }

  /** The upsert a settle announced is adopted outright, and nothing is kept beside it. */
  lemma SettledUpsert(h: Hub.HubState, s: Source, link: LinkId, p: Placement)
    requires Hub.Idle(h.(settling := {})) && p.handle in h.settling
    requires link in h.items && h.items[link].conflicted && p.link == Some(link)
    requires p.body.Some? && !p.status.Tombstone? && p.conflictRevision.None?
    ensures var h' := Hub.AbsorbUpsert(h, s, p);
      && link in h'.items && h'.overruled == h.overruled && h'.diverged == h.diverged
      && var after := h'.items[link];
         && after.body == p.body && !after.conflicted && after.conflictBody.None? && !after.deleted
         && s in after.sources && !after.sources[s].conflicted && after.sources[s].sharedBody == p.body
         && after.sources[s].handle == p.handle
  {
    var met := Hub.Met(h.items, h.rebinding, s, link, p);
    assert met == h.items[link];
    var r := Hub.Restated(met, p);
    assert Hub.Decide(r, s, p, h.policy, true) == (Hub.Adopt(r, p.body), Hub.NOTHING);
    hide Hub.Reconcile, Hub.KeptEntries;
    assert h.overruled + [] == h.overruled && h.diverged + [] == h.diverged;
  }

  /** Store, settle, upsert: the hub reads the upsert with its settle announced. */
  lemma SettleBatch(h: Hub.HubState, s: Source, store: WriteOp, c: Collection, p: Placement)
    requires store.StoreObject?
    ensures Hub.AbsorbOps(h, s, [store, Settle(c, p.handle), Upsert(p)]) ==
      Hub.AbsorbUpsert(h.(settling := h.settling + {p.handle}), s, p)
  {
    Hub.AbsorbOpsConcat(h, s, [store, Settle(c, p.handle)], [Upsert(p)]);
    Hub.AbsorbTwo(h, s, store, Settle(c, p.handle));
    Hub.AbsorbOne(h.(settling := h.settling + {p.handle}), s, Upsert(p));
    hide Hub.AbsorbUpsert, Hub.AbsorbOps;
    assert [store, Settle(c, p.handle)] + [Upsert(p)] == [store, Settle(c, p.handle), Upsert(p)];
  }

  lemma UnconflictedIsShownSo(c: Collection, s: Source, link: LinkId, item: Hub.Item)
    requires s in item.sources && !item.sources[s].conflicted && !item.conflicted
    ensures Hub.Seen(c, s, link, item).Some? && !Hub.Seen(c, s, link, item).value.status.Conflict?
  {
    assert item.sources != map[];
  }

  lemma LiveRowIsNoTombstone(c: Collection, s: Source, link: LinkId, item: Hub.Item)
    requires Hub.Seen(c, s, link, item).Some? && !item.deleted
    ensures !Hub.Seen(c, s, link, item).value.status.Tombstone?
  {
  }

  /**
    A resolution settles what it names: the live item ends holding the edit's body with its
    conflict and its binding's both gone, nothing is kept beside it, and the source is shown
    no conflict any more.
  */
  lemma ResolutionSettles(k: Case, syncsTarget: bool)
    requires k.Edits() && !k.m.overrule && Writes(k.Turn(syncsTarget))
    requires RowConflicted(k.h, k.p) && !k.h.items[k.p.link.value].deleted
    ensures var h', link := Hub.Absorb(k.h, k.s, k.Turn(syncsTarget).want.ops), k.p.link.value;
      && link in h'.items && h'.overruled == k.h.overruled && h'.diverged == k.h.diverged
      && h'.items[link].body == Some(k.m.blob.hash) && !h'.items[link].conflicted && h'.items[link].conflictBody.None?
      && k.s in h'.items[link].sources && !h'.items[link].sources[k.s].conflicted
      && Hub.Seen(k.c, k.s, link, h'.items[link]).Some?
      && !Hub.Seen(k.c, k.s, link, h'.items[link]).value.status.Conflict?
  {
    ResolutionOps(k, syncsTarget);
    CaseRow(k);
    EditedRowFacts(k.p, k.m);
    var link, q := k.p.link.value, EditedRow(k.p, k.m);
    LiveRowIsNoTombstone(k.c, k.s, link, k.h.items[link]);
    SettleBatch(k.h, k.s, StoreObject(k.m.blob, Some(k.m.bytes)), k.p.collection, q);
    hide Hub.AbsorbUpsert, Hub.AbsorbOps, EditedRow, C.Resumed, LoadFrom, Hub.Seen, Hub.Project;
    var h1 := k.h.(settling := k.h.settling + {k.p.handle});
    SettledUpsert(h1, k.s, link, q);
    UnconflictedIsShownSo(k.c, k.s, link, Hub.AbsorbUpsert(h1, k.s, q).items[link]);
  }

  // ---------- A conflict of the binding alone ----------

  /** A resolution of a binding's own conflict settles nothing on the item: the merge weighs it. */
  lemma BindingResolutionOps(k: Case, syncsTarget: bool)
    requires k.Edits() && !k.m.overrule && !RowConflicted(k.h, k.p) && k.p.conflictRevision.Some?
    requires Writes(k.Turn(syncsTarget))
    ensures k.Turn(syncsTarget).want.ops == [StoreObject(k.m.blob, Some(k.m.bytes)), Upsert(EditedRow(k.p, k.m))]
  {
    hide LoadFrom, EditedRow, ConflictsMet, MaySettle, FindRow, ConflictOf, Hub.Seen;
    CaseRow(k);
  }

  /** The hub moved under the binding in conflict, to a body that is not the edit's. */
  predicate Clashes(item: Hub.Item, s: Source, edited: Hash) {
    && Hub.HubMoved(item, s) && item.body != Some(edited)
    && !(item.body.None? && Hub.SyncedBody(item, s).None?)
  }

  /** The resolving upsert, weighed: adopted unless it clashes, and then as the hub's policy says. */
  lemma ResolvingUpsert(h: Hub.HubState, s: Source, link: LinkId, q: Placement, edited: Hash)
    requires Hub.Idle(h) && link in h.items && s in h.items[link].sources
    requires h.items[link].sources[s].conflicted && !h.items[link].conflicted
    requires q.link == Some(link) && q.body == Some(edited) && !q.status.Tombstone? && !q.status.Conflict?
    requires Hub.Revised(q.base)
    ensures var h', item := Hub.AbsorbUpsert(h, s, q), h.items[link];
      && link in h'.items
      && var after, clash := h'.items[link], Clashes(item, s, edited);
         && (after.conflicted <==> clash && (h.policy.Manual? || item.body.None?))
         && (after.conflicted ==> after.conflictBody == Some(edited))
         && (!clash ==> h'.overruled == h.overruled)
         && after.body == (if clash && !(h.policy.PreferIncoming? && item.body.Some?) then item.body else Some(edited))
  {
    hide Hub.AbsorbUpsert, Hub.Restated;
    Merge.EndsAsWeighed(h, s, q);
    assert Merge.MetBy(h, s, q) == h.items[link];
    Merge.RestatingKeepsFacts(h.items[link], s, q);
    Merge.NoLoserNoEntry(h, s, q);
  }

  /** An upsert with no divergence on its row leaves none on its binding. */
  lemma UpsertUnconflictsBinding(h: Hub.HubState, s: Source, link: LinkId, q: Placement)
    requires q.link == Some(link) && !q.status.Tombstone? && q.conflictRevision.None?
    ensures var h' := Hub.AbsorbUpsert(h, s, q);
      link in h'.items && s in h'.items[link].sources && !h'.items[link].sources[s].conflicted
  {
    hide Hub.Settled, Hub.Met, Hub.KeptEntries, Hub.LostEntry;
  }

  /**
    A resolution of a conflict on the binding alone clears it, and ends settled exactly when
    it does not clash with a body the hub moved to in the meantime, or the hub's policy
    settles the clash: else the item is in conflict, with the edit's body recorded.
  */
  lemma BindingResolutionSettlesIff(k: Case, syncsTarget: bool)
    requires k.Edits() && !k.m.overrule && Writes(k.Turn(syncsTarget))
    requires !RowConflicted(k.h, k.p) && k.p.conflictRevision.Some?
    requires k.p.link.Some? && k.p.link.value in k.h.items && k.s in k.h.items[k.p.link.value].sources
    requires k.h.items[k.p.link.value].sources[k.s].conflicted
    ensures var h', link := Hub.Absorb(k.h, k.s, k.Turn(syncsTarget).want.ops), k.p.link.value;
      && link in h'.items && k.s in h'.items[link].sources && !h'.items[link].sources[k.s].conflicted
      && var item, after, clash := k.h.items[link], h'.items[link], Clashes(k.h.items[link], k.s, k.m.blob.hash);
         && (after.conflicted <==> clash && (k.h.policy.Manual? || item.body.None?))
         && (after.conflicted ==> after.conflictBody == Some(k.m.blob.hash))
         && (!clash ==> h'.overruled == k.h.overruled)
         && after.body ==
            (if clash && !(k.h.policy.PreferIncoming? && item.body.Some?) then item.body else Some(k.m.blob.hash))
         && (!after.conflicted ==>
             && Hub.Seen(k.c, k.s, link, after).Some?
             && !Hub.Seen(k.c, k.s, link, after).value.status.Conflict?)
  {
    hide Hub.AbsorbUpsert, Hub.AbsorbOps, EditedRow, C.Resumed, LoadFrom, Hub.Seen, Hub.Project, Clashes;
    BindingResolutionOps(k, syncsTarget);
    CaseRow(k);
    EditedRowFacts(k.p, k.m);
    var link, q := k.p.link.value, EditedRow(k.p, k.m);
    var store := StoreObject(k.m.blob, Some(k.m.bytes));
    Hub.AbsorbTwo(k.h, k.s, store, Upsert(q));
    ResolvingUpsert(k.h, k.s, link, q, k.m.blob.hash);
    UpsertUnconflictsBinding(k.h, k.s, link, q);
    var after := Hub.AbsorbUpsert(k.h, k.s, q).items[link];
    if !after.conflicted {
      UnconflictedIsShownSo(k.c, k.s, link, after);
    }
  }
}
