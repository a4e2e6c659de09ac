/** The mutations other than an edit, from the load they are made over to the hub that absorbs them. */
module MutateHub {
  import opened Wrappers
  import opened Entities
  import opened Keys
  import opened Coroutine
  import opened Runs
  import opened MutateModel
  import opened Resolution
  import C = MutateClass
  import Hub = HubModel
  import Merge = HubMerge
  import Says = HubDescription
  import Shown = HubProjection
  import Bodies = HubBodies

  /** Everything but the item is as it was. */
  ghost predicate OnlyItem(h: Hub.HubState, h': Hub.HubState, link: LinkId) {
    && h'.items.Keys == h.items.Keys && link in h.items
    && forall l :: l in h.items && l != link ==> h'.items[l] == h.items[l]
  }

  /** The load answers the row itself. */
  lemma CaseFound(k: Case, syncsTarget: bool)
    requires k.Valid()
    ensures var loaded := LoadFrom(k.h, k.c, k.s, k.origin);
      FindRow(loaded.placements, k.m.handle) == Some(k.p) && k.p.link.Some? && k.p.link.value in k.h.items
  {
    CaseRow(k);
  }

  // ---------- Flags ----------

  lemma SetFlagsOps(k: Case, syncsTarget: bool)
    requires k.Valid() && k.m.SetFlags?
    ensures Writes(k.Turn(syncsTarget))
    ensures k.Turn(syncsTarget).want.ops ==
      [Upsert(k.p.(flags := k.m.flags, status := if k.p.status.Clean? then Dirty else k.p.status))]
  {
    hide LoadFrom, FindRow, ItemMet;
    CaseFound(k, syncsTarget);
  }

  /** An upsert that states its item's body: everything it leaves of the item but what its flags and binding say. */
  lemma RestatingUpsert(h: Hub.HubState, s: Source, link: LinkId, q: Placement)
    requires Hub.Idle(h) && link in h.items && q.link == Some(link) && q.body == h.items[link].body
    requires q.status.Tombstone? ==> h.items[link].deleted
    ensures var h', was := Hub.AbsorbUpsert(h, s, q), h.items[link];
      && OnlyItem(h, h', link) && h'.overruled == h.overruled && h'.diverged == h.diverged && Hub.Idle(h')
      && var after := h'.items[link];
         && after.body == was.body && after.flags == (if q.flags.Unknown? then was.flags else q.flags)
         && (after.deleted <==> q.status.Tombstone?)
         && (!q.status.Tombstone? ==> after.conflicted == was.conflicted && after.conflictBody == was.conflictBody)
         && Hub.SameOthers(was, after, s) && s in after.sources
         && after.sources[s].handle == q.handle && after.sources[s].conflicted == q.conflictRevision.Some?
         && after.sources[s].base.Some? == q.base.Some?
         && (q.base.Some? ==> after.sources[s].base.value.flags == q.base.value.flags)
  {
    hide Hub.Restated, Hub.Mutable, Hub.KeptEntries;
    var was := h.items[link];
    assert Merge.MetBy(h, s, q) == was;
    if !q.status.Tombstone? {
      Merge.RestatingKeepsFacts(was, s, q);
      Says.RestatingSays(was, s, q, h.policy);
      assert Hub.Reconcile(Hub.Restated(was, q), s, q, h.policy) == (Hub.Restated(was, q), Hub.NOTHING);
    }
    assert h.overruled + [] == h.overruled && h.diverged + [] == h.diverged;
  }

  /**
    A flag change absorbed is the item's flags and nothing else of it, nor of any other item;
    and its source is shown the row dirty wherever its base holds other flags.
  */
  lemma SetFlagsSets(k: Case, syncsTarget: bool)
    requires k.Valid() && k.m.SetFlags?
    ensures Writes(k.Turn(syncsTarget))
    ensures k.p.link.Some?
    ensures var h', link := Hub.Absorb(k.h, k.s, k.Turn(syncsTarget).want.ops), k.p.link.value;
      && OnlyItem(k.h, h', link)
      && var was, after := k.h.items[link], h'.items[link];
         && after.flags == (if k.m.flags.Unknown? then was.flags else k.m.flags)
         && after.body == was.body && after.deleted == was.deleted && Hub.SameOthers(was, after, k.s)
         && (!was.deleted ==> after.conflicted == was.conflicted && after.conflictBody == was.conflictBody)
         && (!was.deleted && !was.conflicted && k.p.conflictRevision.None? && k.p.base.Some? && k.m.flags.Known? &&
             k.p.base.value.flags != k.m.flags ==>
             && Hub.Seen(k.c, k.s, link, after).Some? && Hub.Seen(k.c, k.s, link, after).value.status.Dirty?
             && Hub.Seen(k.c, k.s, link, after).value.flags == k.m.flags)
  {
    hide Hub.AbsorbUpsert, Hub.Seen, LoadFrom, C.Resumed, Hub.Project;
    SetFlagsOps(k, syncsTarget);
    CaseFound(k, syncsTarget);
    RowStates(k);
    var link := k.p.link.value;
    var q := k.p.(flags := k.m.flags, status := if k.p.status.Clean? then Dirty else k.p.status);
    Merge.OneUpsert(k.h, k.s, q);
    RestatingUpsert(k.h, k.s, link, q);
    var after := Hub.AbsorbUpsert(k.h, k.s, q).items[link];
    ShownAs(k.c, k.s, link, after);
  }

  /** What the row says of its item. */
  lemma RowStates(k: Case)
    requires k.Valid()
    ensures k.p.link.Some? && k.p.link.value in k.h.items && k.p.body == k.h.items[k.p.link.value].body
    ensures k.p.status.Tombstone? <==> k.h.items[k.p.link.value].deleted
    ensures k.p.flags == k.h.items[k.p.link.value].flags && k.p.collection == k.c
    ensures k.s in k.h.items[k.p.link.value].sources ==>
      k.p.handle == k.h.items[k.p.link.value].sources[k.s].handle
        && k.p.base == k.h.items[k.p.link.value].sources[k.s].base
  {
    CaseRow(k);
  }

  lemma ShownAs(c: Collection, s: Source, link: LinkId, item: Hub.Item)
    requires s in item.sources
    ensures Hub.Seen(c, s, link, item).Some? && Hub.Seen(c, s, link, item).value.flags == item.flags
    ensures
      (&& !item.deleted && !item.conflicted && !item.sources[s].conflicted
       && item.sources[s].base.Some? && item.sources[s].base.value.flags != item.flags) ==>
      Hub.Seen(c, s, link, item).value.status.Dirty?
    ensures item.deleted ==> Hub.Seen(c, s, link, item).value.status.Tombstone?
  {
    assert item.sources != map[];
    Shown.StatusIff(c, s, link, item);
  }

  // ---------- Remove ----------

  lemma RemoveTurn(k: Case, syncsTarget: bool)
    requires k.Valid() && k.m.Remove?
    ensures Writes(k.Turn(syncsTarget)) && k.Turn(syncsTarget).want.ops == RemoveOps(k.p)
  {
    hide LoadFrom, FindRow, ItemMet, RemoveOps;
    CaseFound(k, syncsTarget);
  }

  /** The tombstone upsert deletes its item, settles its conflict and keeps its body and the others' bindings. */
  lemma BuriedUpsert(h: Hub.HubState, s: Source, link: LinkId, q: Placement)
    requires Hub.Idle(h) && link in h.items && q.link == Some(link) && q.status.Tombstone?
    ensures var h', was := Hub.AbsorbUpsert(h, s, q), h.items[link];
      && OnlyItem(h, h', link) && Hub.Idle(h') && h'.overruled == h.overruled
      && var after := h'.items[link];
         && after.deleted && !after.conflicted && after.body == was.body && Hub.SameOthers(was, after, s)
         && s in after.sources && after.sources[s].handle == q.handle && after.sources[s].base == q.base
  {
    assert h.overruled + [] == h.overruled;
  }

  /** The row bound by no other item of the source, so that its drop meets no other. */
  lemma HandleIsAlone(k: Case, l: LinkId)
    requires k.Valid() && l in k.h.items && Hub.BoundAt(k.h.items[l], k.s, k.p.handle)
    ensures k.p.link == Some(l)
  {
    var rows := Hub.Project(k.h, k.c, k.s, k.origin);
    assert k.h.items[l].sources != map[];
    var q := Hub.Resolved(k.origin, Hub.Seen(k.c, k.s, l, k.h.items[l]).value);
    Hub.ProjectMembers(k.h, k.c, k.s, k.origin, q);
    assert q.handle == k.p.handle && q.link == Some(l);
    var i :| 0 <= i < |rows| && rows[i] == k.p;
    var j :| 0 <= j < |rows| && rows[j] == q;
  }

  /** The base a remove gates its delete on: the row's own, or the one its conflict recorded. */
  function GatedOn(p: Placement): Option<Base> {
    if p.conflictRevision.Some?
    then Some(Base(if p.base.Some? then p.base.value.flags else p.flags, p.conflictRevision, p.conflictBody))
    else p.base
  }

  lemma RemoveIs(p: Placement)
    ensures RemoveOps(p) ==
      [Upsert(p.(status := Tombstone, base := GatedOn(p), conflictRevision := None,
                 conflictBody := if p.conflictRevision.Some? then None else p.conflictBody))] +
      (if GatedOn(p).Some? then [] else [Drop(p.collection, p.handle, Deleted)])
  {
  }

  /**
    A remove absorbed deletes the item, its body kept, and touches no other. A source that had
    reconciled it still binds it, shown as a tombstone to push over the base its conflict or
    its last sync left; one that had not is unbound, the create withdrawn.
  */
  lemma RemoveDeletes(k: Case, syncsTarget: bool)
    requires k.Valid() && k.m.Remove?
    ensures Writes(k.Turn(syncsTarget))
    ensures k.p.link.Some?
    ensures var h', link := Hub.Absorb(k.h, k.s, k.Turn(syncsTarget).want.ops), k.p.link.value;
      && OnlyItem(k.h, h', link)
      && var was, after := k.h.items[link], h'.items[link];
         && after.deleted && !after.conflicted && after.body == was.body && Hub.SameOthers(was, after, k.s)
         && (k.s in after.sources <==> GatedOn(k.p).Some?)
         && (GatedOn(k.p).Some? ==>
             && after.sources[k.s].base == GatedOn(k.p)
             && Hub.Seen(k.c, k.s, link, after).Some? && Hub.Seen(k.c, k.s, link, after).value.status.Tombstone?)
  {
    hide Hub.AbsorbUpsert, Hub.AbsorbOps, Hub.Seen, LoadFrom, C.Resumed, Hub.Project, RemoveOps;
    RemoveTurn(k, syncsTarget);
    RemoveIs(k.p);
    CaseFound(k, syncsTarget);
    var link, q := k.p.link.value, k.p.(status := Tombstone, base := GatedOn(k.p), conflictRevision := None,
                     conflictBody := if k.p.conflictRevision.Some? then None else k.p.conflictBody);
    BuriedUpsert(k.h, k.s, link, q);
    var h1 := Hub.AbsorbUpsert(k.h, k.s, q);
    if GatedOn(k.p).Some? {
      assert RemoveOps(k.p) == [Upsert(q)];
      Merge.OneUpsert(k.h, k.s, q);
      ShownAs(k.c, k.s, link, h1.items[link]);
    } else {
      forall l | l in k.h.items && Hub.BoundAt(k.h.items[l], k.s, k.p.handle)
        ensures l == link
      {
        HandleIsAlone(k, l);
      }
      assert RemoveOps(k.p) == [Upsert(q), Drop(k.p.collection, k.p.handle, Deleted)];
      WithdrawBatch(k.h, k.s, link, q);
    }
  }

  lemma DropWithdraws(h: Hub.HubState, s: Source, link: LinkId, handle: Handle)
    requires link in h.items && Hub.BoundAt(h.items[link], s, handle)
    requires forall l :: l in h.items && Hub.BoundAt(h.items[l], s, handle) ==> l == link
    ensures var h' := Hub.AbsorbDrop(h, s, handle, Deleted);
      && OnlyItem(h, h', link)
      && h'.items[link] == h.items[link].(deleted := true, sources := h.items[link].sources - {s})
  {
  }

  /** Buried and dropped in one batch: deleted, and bound by its source no more. */
  lemma WithdrawBatch(h: Hub.HubState, s: Source, link: LinkId, q: Placement)
    requires Hub.Idle(h) && link in h.items && q.link == Some(link) && q.status.Tombstone?
    requires forall l :: l in h.items && Hub.BoundAt(h.items[l], s, q.handle) ==> l == link
    ensures var h', was := Hub.Absorb(h, s, [Upsert(q), Drop(q.collection, q.handle, Deleted)]), h.items[link];
      && OnlyItem(h, h', link)
      && var after := h'.items[link];
         && after.deleted && !after.conflicted && after.body == was.body && Hub.SameOthers(was, after, s)
         && s !in after.sources
  {
    hide Hub.AbsorbUpsert, Hub.AbsorbOps, Hub.AbsorbDrop;
    BuriedUpsert(h, s, link, q);
    var h1 := Hub.AbsorbUpsert(h, s, q);
    Hub.AbsorbTwo(h, s, Upsert(q), Drop(q.collection, q.handle, Deleted));
    assert forall l :: l in h1.items && Hub.BoundAt(h1.items[l], s, q.handle) ==> l == link;
    DropWithdraws(h1, s, link, q.handle);
  }

  // ---------- Copy and move ----------

  /** The machine while a create's target is read. */
  function Reading(k: Case, syncsTarget: bool): C.State
    requires k.Valid() && Creates(k.m)
  {
    C.Initial(k.c, k.m, syncsTarget).(phase := C.LoadingTarget, source := Some(k.p))
  }

  /** A copy or a move of a row it can deliver first asks what its target holds of the identity. */
  lemma CreateAsksTarget(k: Case, syncsTarget: bool)
    requires k.Valid() && Creates(k.m)
    ensures k.p.link.Some?
    ensures var st, loaded := C.Initial(k.c, k.m, syncsTarget).(phase := C.Loading), LoadFrom(k.h, k.c, k.s, k.origin);
      var hint, deliverable := k.p.link.value, k.p.body.Some? || (k.p.base.Some? && syncsTarget);
      C.Resumed(st, Some(Load(loaded))) ==
      if deliverable then
        (Reading(k, syncsTarget), Yielded(WantsLoad(k.m.target, Links([hint, Minted(hint, Provisional(hint))]))))
      else (st, Complete(Err(Undeliverable(k.m.handle))))
  {
    hide LoadFrom, FindRow, ItemMet;
    CaseFound(k, syncsTarget);
  }

  /** The create staged in the target: the row's content under a key of its own there, and where it came from. */
  predicate Delivers(create: Placement, p: Placement, target: Collection, live: set<LinkId>) {
    && create.collection == target && create.status.Created? && create.base.None? && create.conflictRevision.None?
    && create.body == p.body && create.flags == p.flags && create.summary == p.summary
    && create.sortKey == p.sortKey && create.level == p.level
    && create.origin == Some(Origin(p.collection, p.handle))
    && create.link.Some? && create.link.value !in live && create.handle == Provisional(create.link.value)
    && (p.link.Some? && p.link.value !in live ==> create.link == p.link)
  }

  /** A copy writes the create and nothing else: the row it was made from is left alone. */
  lemma CopyStagesCreate(k: Case, syncsTarget: bool, target: Loaded)
    requires k.Valid() && k.m.Copy?
    ensures k.p.link.Some?
    ensures var turn := C.Resumed(Reading(k, syncsTarget), Some(Load(target))).1;
      && Writes(turn) && |turn.want.ops| == 1 && turn.want.ops[0].Upsert?
      && Delivers(turn.want.ops[0].placement, k.p, k.m.target, LiveLinks(target.placements))
  {
    hide Claim, LiveLinks, LoadFrom, Hub.Project, Hub.Seen;
    CaseFound(k, syncsTarget);
  }

  /** A move writes that create, and the tombstone whose origin says where its item went. */
  lemma MoveStagesBoth(k: Case, syncsTarget: bool, target: Loaded)
    requires k.Valid() && k.m.Move?
    ensures k.p.link.Some?
    ensures var turn := C.Resumed(Reading(k, syncsTarget), Some(Load(target))).1;
      && Writes(turn) && |turn.want.ops| == 2 && turn.want.ops[0].Upsert?
      && var create := turn.want.ops[0].placement;
         && Delivers(create, k.p, k.m.target, LiveLinks(target.placements))
         && turn.want.ops[1] == Upsert(k.p.(status := Tombstone, origin := Some(Origin(k.m.target, create.handle))))
  {
    hide Claim, LiveLinks, LoadFrom, Hub.Project, Hub.Seen;
    CaseFound(k, syncsTarget);
  }

  /** Absorbed by the hub moved from, the tombstone deletes the item and touches no other. */
  lemma MoveDeletes(k: Case, create: Placement)
    requires k.Valid() && k.m.Move?
    ensures k.p.link.Some?
    ensures var q := k.p.(status := Tombstone, origin := Some(Origin(k.m.target, create.handle)));
      var h', link := Hub.Absorb(k.h, k.s, [Upsert(q)]), k.p.link.value;
      && OnlyItem(k.h, h', link) && h'.items[link].deleted && h'.items[link].body == k.h.items[link].body
      && Hub.Seen(k.c, k.s, link, h'.items[link]).Some?
      && Hub.Seen(k.c, k.s, link, h'.items[link]).value.status.Tombstone?
  {
    hide Hub.AbsorbUpsert, Hub.Seen, Hub.Project;
    CaseFound(k, false);
    var q := k.p.(status := Tombstone, origin := Some(Origin(k.m.target, create.handle)));
    Merge.OneUpsert(k.h, k.s, q);
    BuriedUpsert(k.h, k.s, k.p.link.value, q);
    ShownAs(k.c, k.s, k.p.link.value, Hub.AbsorbUpsert(k.h, k.s, q).items[k.p.link.value]);
  }

  /** Absorbed by the hub of its target, a create of a new key is there, live, bearing what it delivers. */
  lemma CreateArrives(
      h: Hub.HubState, s: Source, create: Placement, p: Placement, target: Collection, live: set<LinkId>)
    requires Hub.Idle(h) && Delivers(create, p, target, live) && create.link.value !in h.items && p.body.Some?
    ensures var h', link := Hub.Absorb(h, s, [Upsert(create)]), create.link.value;
      && link in h'.items && h'.items.Keys == h.items.Keys + {link}
      && (forall l :: l in h.items ==> h'.items[l] == h.items[l])
      && h'.items[link].body == p.body && h'.items[link].flags == p.flags && !h'.items[link].deleted
      && !h'.items[link].conflicted
      && Hub.Seen(target, s, link, h'.items[link]).Some?
      && var row := Hub.Seen(target, s, link, h'.items[link]).value;
         row.status.Created? && row.handle == create.handle && row.body == p.body && row.flags == p.flags
  {
    hide Hub.Restated, Hub.Mutable, Hub.KeptEntries;
    Merge.OneUpsert(h, s, create);
    var met := Merge.MetBy(h, s, create);
    Merge.RestatingKeepsFacts(met, s, create);
    Says.RestatingSays(met, s, create, h.policy);
    assert Hub.Reconcile(Hub.Restated(met, create), s, create, h.policy) == (Hub.Restated(met, create), Hub.NOTHING);
    assert s in Hub.AbsorbUpsert(h, s, create).items[create.link.value].sources;
  }

  // ---------- Add ----------

  /** An add is refused exactly when a live row holds its identity, and else stages its body and its create. */
  lemma AddStages(c: Collection, m: Mutation, syncsTarget: bool, loaded: Loaded)
    requires m.Add?
    ensures var turn := C.Resumed(C.Initial(c, m, syncsTarget).(phase := C.Loading), Some(Load(loaded))).1;
      && (Writes(turn) <==> m.link !in LiveLinks(loaded.placements))
      && (!Writes(turn) ==> turn == Complete(Err(LinkExists(m.link))))
      && (Writes(turn) ==>
          && |turn.want.ops| == 2 && turn.want.ops[0] == StoreObject(m.blob, Some(m.bytes)) && turn.want.ops[1].Upsert?
          && var p := turn.want.ops[1].placement;
             && p.collection == c && p.link == Some(m.link) && p.handle == Provisional(m.link)
             && p.body == Some(m.blob.hash) && p.flags == m.addFlags && p.summary == m.summary
             && p.sortKey == m.addSortKey && p.level.Full? && p.status.Created? && p.base.None? && p.origin.None?)
  {
  }

  /** The live links of a load, its tombstones left out. */
  lemma LiveIff(rows: seq<Placement>, link: LinkId)
    ensures link in LiveLinks(rows) <==> exists p :: p in rows && p.link == Some(link) && !p.status.Tombstone?
  {
  }

  // ---------- Edits in no conflict, and overruling ones ----------

  /** The row an edit writes, field by field: its body and description, its decision on a divergence, what it owes. */
  lemma EditedIs(p: Placement, m: Mutation)
    requires m.Edit?
    ensures var q, resolving := EditedRow(p, m), p.conflictRevision.Some?;
      var agreed := if p.base.Some? then p.base.value.flags else p.flags;
      var base := if resolving then Some(Base(agreed, p.conflictRevision, p.conflictBody)) else p.base;
      var owed := resolving || !(base.Some? && base.value.body == Some(m.blob.hash));
      && q == p.(body := Some(m.blob.hash), level := Full, base := base, conflictRevision := None,
                 conflictBody := if resolving then None else p.conflictBody,
                 summary := if m.summary.Some? then m.summary else p.summary,
                 sortKey := if m.sortKey.Some? then m.sortKey.value else p.sortKey,
                 origin := if owed then None else p.origin,
                 status := if !owed then p.status else if p.status.Created? then Created else Dirty)
  {
  }

  /** An edit that meets no conflict stages its body and its row, and an overruling one the overrule before it. */
  lemma EditOpsAre(k: Case, syncsTarget: bool)
    requires k.Edits() && Writes(k.Turn(syncsTarget))
    requires k.m.overrule || (!RowConflicted(k.h, k.p) && !(k.p.status.Conflict? && k.p.conflictRevision.None?))
    ensures k.Turn(syncsTarget).want.ops ==
      [StoreObject(k.m.blob, Some(k.m.bytes))] +
      (if k.m.overrule then [Overrule(k.p.collection, k.p.handle)] else []) + [Upsert(EditedRow(k.p, k.m))]
  {
    hide LoadFrom, EditedRow, ConflictsMet, MaySettle, FindRow, ConflictOf, Hub.Seen;
    CaseRow(k);
  }

  /**
    An edit of a live item in no conflict, through a source that binds it in none: absorbed,
    its body is the item's exactly when it was, or the source's base does not name it and no
    body the hub moved to contests it. So an edit back to the body last synced is not taken.
  */
  lemma EditTakenIff(k: Case, syncsTarget: bool)
    requires k.Edits() && !k.m.overrule && Writes(k.Turn(syncsTarget)) && k.p.conflictRevision.None?
    requires k.p.link.Some? && k.p.link.value in k.h.items
    requires var item := k.h.items[k.p.link.value];
      && !item.deleted && !item.conflicted && k.s in item.sources && !item.sources[k.s].conflicted
    ensures var h', link := Hub.Absorb(k.h, k.s, k.Turn(syncsTarget).want.ops), k.p.link.value;
      var was, x := k.h.items[link], k.m.blob.hash;
      var contested := Hub.Mutable(was, EditedRow(k.p, k.m)) && Bodies.Contested(was, k.s, x, k.h.policy);
      && link in h'.items
      && (h'.items[link].body == Some(x) <==>
          was.body == Some(x) || (Hub.SyncedBody(was, k.s) != Some(x) && !contested))
      && (h'.items[link].body != Some(x) ==> h'.items[link].body == was.body)
  {
    hide Hub.AbsorbUpsert, Hub.AbsorbOps, EditedRow, C.Resumed, LoadFrom, Hub.Seen, Hub.Project, Hub.Mutable,
      Bodies.Contested;
    CaseRow(k);
    RowStates(k);
    LiveRow(k);
    EditOpsAre(k, syncsTarget);
    EditedRowFacts(k.p, k.m);
    EditedIs(k.p, k.m);
    var store, q := StoreObject(k.m.blob, Some(k.m.bytes)), EditedRow(k.p, k.m);
    assert k.Turn(syncsTarget).want.ops == [store, Upsert(q)];
    Hub.AbsorbTwo(k.h, k.s, store, Upsert(q));
    assert Merge.MetBy(k.h, k.s, q) == k.h.items[k.p.link.value];
    Bodies.TakenIff(k.h, k.s, q, k.m.blob.hash);
  }

  lemma LiveRow(k: Case)
    requires k.Valid() && k.p.link.Some? && k.p.link.value in k.h.items
    ensures var item := k.h.items[k.p.link.value];
      !item.deleted && !item.conflicted && k.s in item.sources && !item.sources[k.s].conflicted ==>
        !k.p.status.Tombstone? && !k.p.status.Conflict?
  {
    CaseRow(k);
  }

  /**
    The undo that is lost: from a body last synced, an edit, not yet pushed, and an edit back.
    The item keeps the first edit, and nothing records the second.
  */
  lemma UndoIsNotTaken(h: Hub.HubState, link: LinkId, e: Merge.Edit, undo: Merge.Edit, body: Hash)
    requires Hub.Idle(h) && link in h.items && !h.items[link].deleted && !h.items[link].conflicted
    requires h.items[link].body == Some(body) && Merge.AgreesOn(h.items[link], e.s, body)
    requires Merge.EditOf(h, link, e) && e.body != body
    requires var h1 := Merge.AfterEdit(h, e);
      && link in h1.items && undo.s == e.s && e.s in h1.items[link].sources
      && Merge.EditOf(h1, link, undo) && undo.body == body
    ensures var h2 := Merge.AfterEdit(Merge.AfterEdit(h, e), undo);
      link in h2.items && h2.items[link].body == Some(e.body) && !h2.items[link].conflicted
        && h2.overruled == h.overruled
  {
    hide Hub.Absorb, Hub.AbsorbUpsert, Hub.Mutable;
    Merge.FirstEditIsAdopted(h, link, e, body);
    var h1 := Merge.AfterEdit(h, e);
    Merge.OneUpsert(h1, undo.s, undo.p);
    assert Merge.MetBy(h1, undo.s, undo.p) == h1.items[link];
    Bodies.TakenIff(h1, undo.s, undo.p, body);
    UntakenKeepsNothing(h1, undo.s, undo.p, body);
  }

  lemma UntakenKeepsNothing(h: Hub.HubState, s: Source, p: Placement, body: Hash)
    requires Hub.Idle(h) && p.link.Some? && p.link.value in h.items && !p.status.Tombstone? && p.body == Some(body)
    requires var item := h.items[p.link.value];
      && item.body.Some? && !item.conflicted && Hub.SyncedBody(item, s) == Some(body) && !Hub.Resolving(item, s, p)
    ensures Hub.Ended(Hub.AbsorbUpsert(h, s, p)).overruled == h.overruled
  {
    hide Hub.Met, Hub.Restated, Hub.Mutable, Hub.Described, Hub.LiveBinding, Hub.KeptEntries;
    assert Merge.MetBy(h, s, p).body == h.items[p.link.value].body by {
      Bodies.MetBearsAsStored(h, s, p);
    }
    MetIsStored(h, s, p);
    Merge.RestatingKeepsFacts(h.items[p.link.value], s, p);
    assert h.overruled + [] == h.overruled;
  }

  lemma MetIsStored(h: Hub.HubState, s: Source, p: Placement)
    requires Hub.Idle(h) && p.link.Some? && p.link.value in h.items
    ensures Hub.Met(h.items, h.rebinding, s, p.link.value, p) == h.items[p.link.value]
  {
  }

  // ---------- What the machine asks, and how it refuses ----------

  /** A mutation loads no more than it edits: the row named, or the identity added; its write is then reported. */
  lemma AsksFirst(c: Collection, m: Mutation, syncsTarget: bool)
    ensures C.Resumed(C.Initial(c, m, syncsTarget), None).1 ==
      Yielded(WantsLoad(c, if m.Add? then Links([m.link]) else Handles([m.handle])))
  {
  }

  lemma ReportsTheWrite(st: C.State, overruled: seq<(Handle, LinkId)>)
    requires st.phase.Writing?
    ensures C.Resumed(st, Some(Written(overruled))).1 == Complete(Ok(C.Report(overruled)))
    ensures C.Resumed(st, Some(Write)).1 == Complete(Ok(C.Report([])))
  {
  }

  /** How a mutation of a row is refused, the first reason that holds in this order. */
  lemma RefusedWith(st: C.State, loaded: Loaded)
    requires st.phase.Loading? && !st.mutation.Add?
    ensures var m, turn := st.mutation, C.Resumed(st, Some(Load(loaded))).1;
      var found := FindRow(loaded.placements, m.handle);
      if found.None? then turn == Complete(Err(UnknownHandle(m.handle)))
      else
        var p := found.value;
        var met := ConflictsMet(p, ItemMet(loaded, p));
        if p.link.None? then turn == Complete(Err(Unnamed(m.handle)))
        else if m.Edit? && m.ifMatch.Some? && p.body != m.ifMatch then
          turn == Complete(Err(Replaced(m.handle, m.ifMatch.value, p.body)))
        else if m.Edit? && !m.overrule && !MaySettle(met, m.resolves) then
          turn == Complete(Err(Unresolved(m.handle, met, m.resolves)))
        else if (m.Copy? || m.Move?) && p.body.None? && !(p.base.Some? && st.syncsTarget) then
          turn == Complete(Err(Undeliverable(m.handle)))
        else turn.Yielded?
  {
    hide FindRow, ItemMet, ConflictsMet, MaySettle, WritesFor;
  }

  /** The row a load names by its handle: the first of it, if any. */
  lemma {:induction false} FindRowIff(rows: seq<Placement>, handle: Handle)
    ensures FindRow(rows, handle).Some? <==> exists i :: 0 <= i < |rows| && rows[i].handle == handle
    ensures FindRow(rows, handle).Some? ==>
      FindRow(rows, handle).value in rows && FindRow(rows, handle).value.handle == handle
  {
    if rows != [] && rows[0].handle != handle {
      FindRowIff(rows[1..], handle);
      if i :| 0 <= i < |rows| && rows[i].handle == handle {
        assert rows[1..][i - 1].handle == handle;
      }
      if i :| 0 <= i < |rows[1..]| && rows[1..][i].handle == handle {
        assert rows[i + 1].handle == handle;
      }
    }
  }

  /** What may settle: an ordinary edit that meets nothing, or a resolution naming every body it meets, and some. */
  lemma MaySettleIff(met: seq<Option<Hash>>, resolves: Option<seq<Hash>>)
    ensures MaySettle(met, resolves) <==>
      if resolves.None? then |met| == 0
      else |met| > 0 && forall body :: body in met ==> body.Some? && body.value in resolves.value
  {
    assert forall body :: body in met <==> exists i :: 0 <= i < |met| && met[i] == body;
  }

  /** A conflict a load shows and does not state is one nobody has read: no edit but an overruling one passes it. */
  lemma UnstatedConflictWritesNothing(st: C.State, loaded: Loaded)
    requires st.phase.Loading? && st.mutation.Edit? && !st.mutation.overrule
    requires var found := FindRow(loaded.placements, st.mutation.handle);
      && found.Some? && found.value.status.Conflict? && found.value.conflictRevision.None?
      && ConflictOf(loaded.conflicted, found.value.handle).None?
    ensures !Writes(C.Resumed(st, Some(Load(loaded))).1)
  {
    hide FindRow, ConflictOf, C.Resumed;
    var p := FindRow(loaded.placements, st.mutation.handle).value;
    EditWritesIff(st, loaded);
    UnreadIsUnsettled(p, ItemMet(loaded, p), st.mutation.resolves);
  }
}
