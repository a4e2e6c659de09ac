/** A rebuild of what a source loaded, folded back into the hub it was loaded from. */
module RekeyHub {
  import opened Wrappers
  import opened Text
  import opened Entities
  import opened Keys
  import opened RekeyModel
  import opened RekeyIdentity
  import opened RekeyAccounts
  import Hub = HubModel

  // ---------- What a run of drops and a run of upserts do to the hub ----------

  lemma DropOnItem(h: Hub.HubState, s: Source, handle: Handle, reason: DropReason, link: LinkId)
    requires link in h.items
    ensures var h', item := Hub.AbsorbDrop(h, s, handle, reason), h.items[link];
      && h'.items.Keys == h.items.Keys && h'.overruling == h.overruling && h'.settling == h.settling
      && h'.items[link] == (if Hub.BoundAt(item, s, handle) then Hub.Unbound(item, s, reason) else item)
  {
  }

  /** An item none of the drops names is left alone, and one named is unbound as the drop says. */
  lemma {:induction false} DropsOnItem(h: Hub.HubState, s: Source, drops: seq<WriteOp>, link: LinkId)
    requires DropEachOnce(drops) && link in h.items
    ensures var h', item := Hub.AbsorbOps(h, s, drops), h.items[link];
      && h'.items.Keys == h.items.Keys && h'.overruling == h.overruling && h'.settling == h.settling
      && ((forall i :: 0 <= i < |drops| ==> !Hub.BoundAt(item, s, drops[i].handle)) ==> h'.items[link] == item)
      && (forall i :: 0 <= i < |drops| && Hub.BoundAt(item, s, drops[i].handle) ==>
            h'.items[link] == Hub.Unbound(item, s, drops[i].reason))
  {
    hide Hub.AbsorbDrop, Hub.Unbound;
    if drops == [] {
      Hub.AbsorbNone(h, s);
    } else {
      var init, last := drops[..|drops| - 1], drops[|drops| - 1];
      assert DropEachOnce(init) by {
        assert forall i :: 0 <= i < |init| ==> init[i] == drops[i];
      }
      DropsOnItem(h, s, init, link);
      var h1, item := Hub.AbsorbOps(h, s, init), h.items[link];
      DropOnItem(h1, s, last.handle, last.reason, link);
      if k :| 0 <= k < |init| && Hub.BoundAt(item, s, init[k].handle) {
        assert init[k] == drops[k];
        UnboundIsNotBound(item, s, init[k].reason, last.handle);
      } else {
        assert forall i :: 0 <= i < |init| ==> !Hub.BoundAt(item, s, init[i].handle);
        assert h1.items[link] == item;
      }
    }
  }

  lemma UnboundIsNotBound(item: Hub.Item, s: Source, reason: DropReason, handle: Handle)
    ensures !Hub.BoundAt(Hub.Unbound(item, s, reason), s, handle)
  {
  }

  ghost predicate SameOthers(before: map<LinkId, Hub.Item>, after: Hub.Item, link: LinkId, s: Source) {
    forall t :: t != s ==>
      && (t in after.sources <==> link in before && t in before[link].sources)
      && (t in after.sources ==> after.sources[t] == before[link].sources[t])
  }

  /** The item is bound by `s` as the upsert says, live unless the upsert is a tombstone. */
  ghost predicate BoundAs(before: map<LinkId, Hub.Item>, after: Hub.Item, link: LinkId, s: Source, p: Placement) {
    && Hub.BoundAt(after, s, p.handle)
    && (after.deleted <==> p.status.Tombstone?)
    && SameOthers(before, after, link, s)
  }

  lemma MetKeepsOthers(h: Hub.HubState, s: Source, link: LinkId, p: Placement)
    ensures SameOthers(h.items, Hub.Met(h.items, h.rebinding, s, link, p), link, s)
  {
  }

  lemma BuriedOnItem(h: Hub.HubState, s: Source, p: Placement)
    requires p.link.Some? && p.status.Tombstone?
    ensures var link, h' := p.link.value, Hub.AbsorbUpsert(h, s, p);
      && h'.items == h.items[link := h'.items[link]]
      && BoundAs(h.items, h'.items[link], link, s, p)
  {
    MetKeepsOthers(h, s, p.link.value, p);
    hide Hub.Met, Hub.KeptEntries;
  }

  lemma LiveOnItem(h: Hub.HubState, s: Source, p: Placement)
    requires p.link.Some? && !p.status.Tombstone?
    ensures var link, h' := p.link.value, Hub.AbsorbUpsert(h, s, p);
      && h'.items == h.items[link := h'.items[link]]
      && BoundAs(h.items, h'.items[link], link, s, p)
  {
    hide Hub.Settled, Hub.Met, Hub.LiveBinding, Hub.AbsorbUpsert;
    var link, met := p.link.value, Hub.Met(h.items, h.rebinding, s, p.link.value, p);
    MetKeepsOthers(h, s, link, p);
    Hub.LiveUpsert(h, s, p);
    var (after, _) := Hub.Settled(met, s, p, h.policy, p.handle in h.overruling, p.handle in h.settling);
    SettledKeepsSources(met, s, p, h.policy, p.handle in h.overruling, p.handle in h.settling);
    LiveBindingHandle(after, s, p);
  }

  lemma UpsertOnItem(h: Hub.HubState, s: Source, p: Placement)
    requires p.link.Some?
    ensures var h' := Hub.AbsorbUpsert(h, s, p);
      && h'.items.Keys == h.items.Keys + {p.link.value}
      && (forall l :: l in h.items && l != p.link.value ==> h'.items[l] == h.items[l])
      && BoundAs(h.items, h'.items[p.link.value], p.link.value, s, p)
  {
    hide Hub.AbsorbUpsert, BoundAs;
    if p.status.Tombstone? {
      BuriedOnItem(h, s, p);
    } else {
      LiveOnItem(h, s, p);
    }
  }

  lemma LiveBindingHandle(item: Hub.Item, s: Source, p: Placement)
    ensures Hub.LiveBinding(item, s, p).handle == p.handle
  {
  }

  lemma ReconcileKeepsSources(item: Hub.Item, s: Source, p: Placement, policy: Hub.Policy)
    ensures var (after, _) := Hub.Reconcile(item, s, p, policy);
      after.sources == item.sources && after.deleted == item.deleted
  {
    hide Hub.Mutable, Hub.SourceEdited, Hub.Diverges, Hub.DropsEdit;
  }

  lemma SettledKeepsSources(
      met: Hub.Item, s: Source, p: Placement, policy: Hub.Policy, overruling: bool, settling: bool)
    ensures var (after, _) := Hub.Settled(met, s, p, policy, overruling, settling);
      after.sources == met.sources && !after.deleted
  {
    hide Hub.Reconcile;
    ReconcileKeepsSources(Hub.Restated(met, p), s, p, policy);
  }

  ghost predicate NamedOnce(ups: seq<Placement>) {
    && (forall i :: 0 <= i < |ups| ==> ups[i].link.Some?)
    && (forall i, j :: 0 <= i < j < |ups| ==> ups[i].link != ups[j].link)
  }

  ghost predicate Upserts(ups: seq<Placement>, link: LinkId, handle: Handle) {
    exists i :: 0 <= i < |ups| && ups[i].link == Some(link) && ups[i].handle == handle
  }

  ghost predicate Unnamed(ups: seq<Placement>, link: LinkId) {
    forall i :: 0 <= i < |ups| ==> ups[i].link != Some(link)
  }

  ghost predicate AllBound(before: map<LinkId, Hub.Item>, after: map<LinkId, Hub.Item>, s: Source, ups: seq<Placement>)
    requires NamedOnce(ups)
  {
    forall i :: 0 <= i < |ups| ==>
      ups[i].link.value in after && BoundAs(before, after[ups[i].link.value], ups[i].link.value, s, ups[i])
  }

  ghost predicate SameAt(before: map<LinkId, Hub.Item>, after: map<LinkId, Hub.Item>, link: LinkId) {
    (link in after <==> link in before) && (link in before ==> after[link] == before[link])
  }

  /** Upserts of distinct items each bind their own and touch no other. */
  lemma {:induction false} UpsertsOnItems(h: Hub.HubState, s: Source, ups: seq<Placement>)
    requires NamedOnce(ups)
    ensures var h' := Hub.AbsorbOps(h, s, UpsertsOf(ups));
      && h.items.Keys <= h'.items.Keys
      && (forall l :: Unnamed(ups, l) ==> SameAt(h.items, h'.items, l))
      && AllBound(h.items, h'.items, s, ups)
  {
    hide Hub.AbsorbUpsert, BoundAs;
    if ups == [] {
      Hub.AbsorbNone(h, s);
    } else {
      var init, p := ups[..|ups| - 1], ups[|ups| - 1];
      assert UpsertsOf(ups)[..|ups| - 1] == UpsertsOf(init);
      UpsertsOnItems(h, s, init);
      var h1 := Hub.AbsorbOps(h, s, UpsertsOf(init));
      UpsertOnItem(h1, s, p);
      var h' := Hub.AbsorbUpsert(h1, s, p);
      assert Hub.AbsorbOps(h, s, UpsertsOf(ups)) == h';
      hide Hub.AbsorbOps;
      assert Unnamed(init, p.link.value);
      BoundOverSame(h.items, h1.items, h'.items[p.link.value], p.link.value, s, p);
      forall i | 0 <= i < |ups|
        ensures ups[i].link.value in h'.items
          && BoundAs(h.items, h'.items[ups[i].link.value], ups[i].link.value, s, ups[i])
      {
        if i < |init| {
          assert ups[i] == init[i] && ups[i].link != p.link;
        }
      }
      forall l | Unnamed(ups, l)
        ensures SameAt(h.items, h'.items, l)
      {
        assert Unnamed(init, l) && ups[|ups| - 1].link != Some(l);
      }
    }
  }

  lemma BoundOverSame(
      before: map<LinkId, Hub.Item>, between: map<LinkId, Hub.Item>, after: Hub.Item, link: LinkId, s: Source,
      p: Placement)
    requires SameAt(before, between, link) && BoundAs(between, after, link, s, p)
    ensures BoundAs(before, after, link, s, p)
  {
  }

  // ---------- A rebuild through the hub ----------

  /** Each handle `s` uses binds one item. */
  ghost predicate OneItemAHandle(h: Hub.HubState, s: Source) {
    forall l, m, x ::
      l in h.items && m in h.items && Hub.BoundAt(h.items[l], s, x) && Hub.BoundAt(h.items[m], s, x) ==> l == m
  }

  /** A create of `s` still pending: bound, never reconciled, in no conflict. */
  predicate Pending(h: Hub.HubState, s: Source, link: LinkId) {
    && link in h.items && s in h.items[link].sources && !h.items[link].deleted
    && Hub.BoundStatus(h.items[link], h.items[link].sources[s]).Created?
  }

  /** A listing's rebuild of what `s` loads from the hub. */
  datatype Run = Run(
      h: Hub.HubState, c: Collection, s: Source, origin: Hub.Resolver, listed: seq<RemoteItem>,
      readings: map<Handle, Reading>, checkpoint: Option<Checkpoint>)
  {
    function Rows(): seq<Placement> {
      Hub.Project(h, c, s, origin)
    }

    function Walk(): Walk {
      Walked(c, Rows(), listed, readings)
    }

    function Left(): Left {
      LeftOf(Rows(), Walk())
    }

    function Ups(): seq<Placement> {
      Upserted(Walk(), Left())
    }

    function After(): Hub.HubState {
      Hub.Absorb(h, s, Rebuild(c, Rows(), listed, readings, checkpoint).ops)
    }

    /** Idle hub, a handle an item, every listed member read. */
    ghost predicate Valid() {
      Hub.Idle(h) && OneItemAHandle(h, s) && forall item :: item in listed ==> item.handle in readings
    }
  }

  lemma RowsAreLoaded(run: Run)
    requires run.Valid()
    ensures Loaded(run.Rows())
  {
    var rows, spine := run.Rows(), Filter(IsSpine, run.Rows());
    Hub.ProjectKeyed(run.h, run.c, run.s, run.origin);
    assert LinksDistinct(rows);
    FilterKeepsDistinct(IsSpine, rows);
    forall i, j | 0 <= i < j < |spine|
      ensures spine[i].handle != spine[j].handle
    {
      assert spine[i] in spine && spine[j] in spine;
      RowIsBound(run, spine[i]);
      RowIsBound(run, spine[j]);
      assert spine[i].link != spine[j].link;
    }
  }

  /** A row that is no create is a binding of `s`, under its own handle. */
  lemma RowIsBound(run: Run, p: Placement)
    requires p in run.Rows()
    ensures p.link.Some? && p.link.value in run.h.items
    ensures IsSpine(p) ==>
      Hub.BoundAt(run.h.items[p.link.value], run.s, p.handle) && !Pending(run.h, run.s, p.link.value)
  {
    Hub.ProjectMembers(run.h, run.c, run.s, run.origin, p);
  }

  /** A binding of `s` is loaded, as a pending create or as a row of the spine. */
  lemma BoundIsLoaded(run: Run, link: LinkId) returns (p: Placement)
    requires link in run.h.items && run.s in run.h.items[link].sources
    ensures p in run.Rows() && p.link == Some(link) && p.handle == run.h.items[link].sources[run.s].handle
    ensures IsStaged(p) <==> Pending(run.h, run.s, link)
  {
    var item := run.h.items[link];
    assert item.sources != map[];
    p := Hub.Resolved(run.origin, Hub.Seen(run.c, run.s, link, item).value);
    Hub.ProjectMembers(run.h, run.c, run.s, run.origin, p);
  }

  lemma MembersAreListed(listed: seq<RemoteItem>)
    ensures forall m :: m in Members(listed) ==> m in listed
    ensures forall x :: HasKey(MemberHandle, Members(listed), x) <==> HasKey(MemberHandle, listed, x)
  {
    var sorted := SortBy(MemberHandle, listed);
    SortBySorts(MemberHandle, listed);
    DedupByKeys(MemberHandle, sorted);
    forall x
      ensures HasKey(MemberHandle, Members(listed), x) <==> HasKey(MemberHandle, listed, x)
    {
      DedupByCovers(MemberHandle, sorted, x);
      if HasKey(MemberHandle, sorted, x) {
        var i :| 0 <= i < |sorted| && sorted[i].handle == x;
        assert sorted[i] in listed;
        var j :| 0 <= j < |listed| && listed[j] == sorted[i];
      }
      if HasKey(MemberHandle, listed, x) {
        var i :| 0 <= i < |listed| && listed[i].handle == x;
        assert listed[i] in sorted;
        var j :| 0 <= j < |sorted| && sorted[j] == listed[i];
        assert MemberHandle(sorted[j]) == x;
      }
    }
  }

  // ---------- The theorem ----------

  /** The hub between the rebuild's drops and its upserts. */
  function Emptied(run: Run): Hub.HubState {
    Hub.AbsorbOps(run.h, run.s, Drops(run.c, run.Rows(), run.listed, run.readings))
  }

  lemma BatchSplits(
      h: Hub.HubState, s: Source, drops: seq<WriteOp>, ups: seq<WriteOp>, c: Collection,
      checkpoint: Option<Checkpoint>)
    ensures Hub.AbsorbOps(h, s, drops + ups + CheckpointOps(c, checkpoint)) ==
      Hub.AbsorbOps(Hub.AbsorbOps(h, s, drops), s, ups)
  {
    var mark := CheckpointOps(c, checkpoint);
    Hub.AbsorbOpsConcat(h, s, drops + ups, mark);
    Hub.AbsorbOpsConcat(h, s, drops, ups);
    hide Hub.AbsorbOps;
    var h' := Hub.AbsorbOps(h, s, drops + ups);
    if checkpoint.Some? {
      Hub.AbsorbOne(h', s, SetCheckpoint(c, checkpoint.value));
    } else {
      Hub.AbsorbNone(h', s);
    }
  }

  lemma RunSplits(run: Run)
    ensures run.After() == Hub.Ended(Hub.AbsorbOps(Emptied(run), run.s, UpsertsOf(run.Ups())))
  {
    hide Hub.AbsorbOps, Hub.Ended, Walked, LeftOf, Upserted, Hub.Project, InPlace, DropsOf, UpsertsOf, CheckpointOps;
    BatchSplits(run.h, run.s, Drops(run.c, run.Rows(), run.listed, run.readings), UpsertsOf(run.Ups()), run.c,
      run.checkpoint);
  }

  /** Every upsert of the run names an item, each item once. */
  lemma RunNamesOnce(run: Run)
    requires run.Valid()
    ensures NamedOnce(run.Ups())
  {
    RowsAreLoaded(run);
    var rows, w, left, ups := run.Rows(), run.Walk(), run.Left(), run.Ups();
    IdentitiesHandedOnce(run.c, rows, run.listed, run.readings);
    LeftAllKeeps(CarriedHandles(w.entries), Filter(IsSpine, rows));
    hide Walked, LeftOf, Upserted, Hub.Project;
    forall i | 0 <= i < |ups|
      ensures ups[i].link.Some?
    {
      UpsertAt(w, left, i);
      if i < |w.entries| {
        MemberIsKeyed(run, i);
      } else {
        RowIsBound(run, left.rows[i - |w.entries|]);
      }
    }
  }

  lemma MemberIsKeyed(run: Run, i: nat)
    requires run.Valid() && i < |run.Walk().entries|
    ensures run.Walk().entries[i].upsert.link.Some?
  {
    RowsAreLoaded(run);
    MembersAreListed(run.listed);
    var spine, staged := Filter(IsSpine, run.Rows()), LinksOf(Filter(IsStaged, run.Rows()));
    FilterKeepsDistinct(IsSpine, run.Rows());
    RowsByLinkFinds(spine);
    hide Hub.Project, Members;
    var from := Walk(staged, RowsByLink(spine), []);
    assert run.Walk() == WalkAll(run.c, run.readings, from, Members(run.listed));
    hide WalkAll, Keyed;
    WalkKeys(run.c, run.readings, from, Members(run.listed), i);
  }

  lemma {:induction false} WalkKeys(
      c: Collection, readings: map<Handle, Reading>, w: Walk, items: seq<RemoteItem>, i: nat)
    requires Keyed(w.byLink) && |w.entries| <= i < |WalkAll(c, readings, w, items).entries|
    requires forall m :: m in items ==> m.handle in readings
    ensures Keyed(WalkAll(c, readings, w, items).byLink)
    ensures WalkAll(c, readings, w, items).entries[i].upsert.link.Some?
    decreases |items|
  {
    if items != [] {
      var init, last := items[..|items| - 1], items[|items| - 1];
      var was := WalkAll(c, readings, w, init);
      WalkLength(c, readings, w, init);
      WalkStaysKeyed(c, readings, w, init);
      if i < |was.entries| {
        WalkKeys(c, readings, w, init, i);
      } else {
        var key := MemberKey(was, last, readings[last.handle]);
        EntryShape(c, last, Some(readings[last.handle]), key,
                   if key in was.byLink then Some(was.byLink[key]) else None);
      }
    }
  }

  lemma {:induction false} WalkStaysKeyed(
      c: Collection, readings: map<Handle, Reading>, w: Walk, items: seq<RemoteItem>)
    requires Keyed(w.byLink)
    ensures Keyed(WalkAll(c, readings, w, items).byLink)
  {
    if items != [] {
      WalkStaysKeyed(c, readings, w, items[..|items| - 1]);
    }
  }

  /** A pending create is dropped by nothing and upserted by nothing. */
  lemma PendingIsLeftAlone(run: Run, link: LinkId)
    requires run.Valid() && Pending(run.h, run.s, link)
    ensures Unnamed(run.Ups(), link)
    ensures link in Emptied(run).items && Emptied(run).items[link] == run.h.items[link]
  {
    RowsAreLoaded(run);
    RunNamesOnce(run);
    var rows, drops := run.Rows(), Drops(run.c, run.Rows(), run.listed, run.readings);
    var p := BoundIsLoaded(run, link);
    assert p in Filter(IsStaged, rows);
    IdentitiesHandedOnce(run.c, rows, run.listed, run.readings);
    DropsDistinct(run.c, run.Left(), InPlace(run.Walk().entries), Filter(IsSpine, rows));
    DropsOnItem(run.h, run.s, drops, link);
    forall i | 0 <= i < |drops|
      ensures !Hub.BoundAt(run.h.items[link], run.s, drops[i].handle)
    {
      assert drops[i] in drops;
      DropsMembers(run.c, run.Left(), InPlace(run.Walk().entries), Filter(IsSpine, rows), drops[i]);
      var q :| q in Filter(IsSpine, rows) && drops[i] == Drop(run.c, q.handle, ReasonOf(run.Left(), q.handle));
      RowIsBound(run, q);
    }
  }

  lemma EntryNames(w: Walk, left: Left, i: nat, link: Option<LinkId>)
    requires i < |w.entries| && w.entries[i].upsert.link == link && link.Some?
    ensures !Unnamed(Upserted(w, left), link.value)
  {
    assert Upserted(w, left)[i].link == link;
  }

  lemma RestagedNames(w: Walk, left: Left, p: Placement)
    requires p in left.rows && p.link.Some?
    ensures Upserts(Upserted(w, left), p.link.value, Provisional(p.link.value))
    ensures !Unnamed(Upserted(w, left), p.link.value)
  {
    var k :| 0 <= k < |left.rows| && left.rows[k] == p;
    var up := Upserted(w, left)[|w.entries| + k];
    assert up == Restaged(p);
  }

  /** A row carried or restaged is taken up by an upsert of its item. */
  lemma TakenUp(run: Run, p: Placement)
    requires p in run.Rows() && IsSpine(p) && p.link.Some? && run.Valid()
    ensures CarriedIn(run.Walk().entries, p) || p in run.Left().rows ==> !Unnamed(run.Ups(), p.link.value)
  {
    var w, left := run.Walk(), run.Left();
    RowsAreLoaded(run);
    WalkedKeeps(run.c, run.Rows(), run.listed, run.readings);
    hide Walked, LeftOf, Upserted, Hub.Project, Unnamed, Restaged;
    if i :| 0 <= i < |w.entries| && w.entries[i].row == Some(p) {
      assert EntryKeyed(LinksOf(Filter(IsStaged, run.Rows())), Filter(IsSpine, run.Rows()), w.claimed, w.entries[i]);
      EntryNames(w, left, i, p.link);
    } else if p in left.rows {
      RestagedNames(w, left, p);
    }
  }

  lemma UpsertsLength(w: Walk, left: Left)
    ensures |Upserted(w, left)| == |w.entries| + |left.rows|
  {
  }

  /** A spine row no upsert takes up is gone: unbound, its item deleted. */
  lemma UncarriedIsDeleted(run: Run, p: Placement)
    requires run.Valid() && p in run.Rows() && IsSpine(p) && p.link.Some? && Unnamed(run.Ups(), p.link.value)
    ensures var item := Emptied(run).items;
      p.link.value in item && run.s !in item[p.link.value].sources && item[p.link.value].deleted
  {
    RowsAreLoaded(run);
    TakenUp(run, p);
    RowIsBound(run, p);
    var drops := Drops(run.c, run.Rows(), run.listed, run.readings);
    DropSaysFate(run.c, run.Rows(), run.listed, run.readings, p, Deleted);
    DropsDistinct(run.c, run.Left(), InPlace(run.Walk().entries), Filter(IsSpine, run.Rows()));
    DropsOnItem(run.h, run.s, drops, p.link.value);
    hide Walked, LeftOf, Upserted, Hub.Project, Hub.AbsorbOps, Drops;
    var k :| 0 <= k < |drops| && drops[k] == Drop(run.c, p.handle, Deleted);
  }

  ghost predicate BoundTo(h: Hub.HubState, s: Source, link: LinkId, handle: Handle) {
    link in h.items && Hub.BoundAt(h.items[link], s, handle)
  }

  /**
    What the source binds afterwards: the items the rebuild upserts, each under its upsert's
    handle, and its pending creates untouched. Nothing else.
  */
  lemma RebuildBindsExactly(run: Run, link: LinkId, handle: Handle)
    requires run.Valid()
    ensures BoundTo(run.After(), run.s, link, handle) <==>
      Upserts(run.Ups(), link, handle) || (Pending(run.h, run.s, link) && BoundTo(run.h, run.s, link, handle))
  {
    RunSplits(run);
    RunNamesOnce(run);
    var ups, emptied := run.Ups(), Emptied(run);
    UpsertsOnItems(emptied, run.s, ups);
    if Unnamed(ups, link) {
      assert !Upserts(ups, link, handle);
      if Pending(run.h, run.s, link) {
        PendingIsLeftAlone(run, link);
      } else {
        UnpendingIsUnbound(run, link);
      }
    } else {
      var i :| 0 <= i < |ups| && ups[i].link == Some(link);
      if Pending(run.h, run.s, link) {
        PendingIsLeftAlone(run, link);
      }
    }
  }

  /** Past the drops, the source binds no item it neither upserts nor holds pending. */
  lemma UnpendingIsUnbound(run: Run, link: LinkId)
    requires run.Valid() && Unnamed(run.Ups(), link) && !Pending(run.h, run.s, link)
    ensures link in Emptied(run).items ==> run.s !in Emptied(run).items[link].sources
  {
    RowsAreLoaded(run);
    DropsDistinct(run.c, run.Left(), InPlace(run.Walk().entries), Filter(IsSpine, run.Rows()));
    var drops := Drops(run.c, run.Rows(), run.listed, run.readings);
    if link in run.h.items {
      if run.s in run.h.items[link].sources {
        var p := BoundIsLoaded(run, link);
        UncarriedIsDeleted(run, p);
      } else {
        DropsOnItem(run.h, run.s, drops, link);
      }
    } else {
      DropsKeepKeys(run.h, run.s, drops);
    }
  }

  lemma {:induction false} DropsKeepKeys(h: Hub.HubState, s: Source, drops: seq<WriteOp>)
    requires DropEachOnce(drops)
    ensures Hub.AbsorbOps(h, s, drops).items.Keys == h.items.Keys
  {
    if drops != [] {
      var init := drops[..|drops| - 1];
      assert DropEachOnce(init) by {
        assert forall i :: 0 <= i < |init| ==> init[i] == drops[i];
      }
      DropsKeepKeys(h, s, init);
    }
  }

  /** The upsert at `i`, told by what it came from. */
  ghost predicate MemberUpsert(run: Run, i: nat) {
    i < |run.Ups()| && i < |Members(run.listed)| && run.Ups()[i].handle == Members(run.listed)[i].handle
  }

  ghost predicate RestagedUpsert(run: Run, i: nat) {
    i < |run.Ups()| && exists p :: p in run.Left().rows && p.link.Some? && run.Ups()[i] == Restaged(p)
  }

  lemma UpsertsComeFrom(run: Run, i: nat)
    requires run.Valid() && i < |run.Ups()|
    ensures i < |Members(run.listed)| ==> MemberUpsert(run, i)
    ensures i >= |Members(run.listed)| ==> RestagedUpsert(run, i)
    ensures |Members(run.listed)| <= |run.Ups()|
  {
    RowsAreLoaded(run);
    var w, left := run.Walk(), run.Left();
    WalkedKeeps(run.c, run.Rows(), run.listed, run.readings);
    UpsertsLength(w, left);
    UpsertAt(w, left, i);
    hide Hub.Project, Members, Filter;
    if i < |w.entries| {
      CarriedUpsert(run.c, run.Rows(), run.listed, run.readings, i);
      assert EntryKeyed(LinksOf(Filter(IsStaged, run.Rows())), Filter(IsSpine, run.Rows()), w.claimed, w.entries[i]);
    } else {
      var p := left.rows[i - |w.entries|];
      LeftAllKeeps(CarriedHandles(w.entries), Filter(IsSpine, run.Rows()));
      RowIsBound(run, p);
      assert p in left.rows;
    }
  }

  /**
    The handles the source binds after a rekey: those listed, its pending creates' own, and
    the provisional handles its restaged edits moved to.
  */
  lemma RekeyedHandles(run: Run, handle: Handle)
    requires run.Valid()
    ensures (exists link :: BoundTo(run.After(), run.s, link, handle)) <==>
      || HasKey(MemberHandle, run.listed, handle)
      || (exists link :: Pending(run.h, run.s, link) && BoundTo(run.h, run.s, link, handle))
      || (exists p :: p in run.Left().rows && p.link.Some? && Provisional(p.link.value) == handle)
  {
    RunNamesOnce(run);
    MembersAreListed(run.listed);
    var ups, members, left := run.Ups(), Members(run.listed), run.Left();
    hide Walked, LeftOf, Upserted, Hub.Project, Hub.AbsorbOps, Rebuild, Members, Pending;
    if link :| BoundTo(run.After(), run.s, link, handle) {
      RebuildBindsExactly(run, link, handle);
      if Upserts(ups, link, handle) {
        var i :| 0 <= i < |ups| && ups[i].link == Some(link) && ups[i].handle == handle;
        UpsertsComeFrom(run, i);
        if i < |members| {
          assert MemberHandle(members[i]) == handle;
          assert HasKey(MemberHandle, members, handle);
        }
      }
    }
    if HasKey(MemberHandle, run.listed, handle) {
      assert HasKey(MemberHandle, members, handle);
      var i :| 0 <= i < |members| && MemberHandle(members[i]) == handle;
      AllMembersUpserted(run);
      UpsertsComeFrom(run, i);
      assert Upserts(ups, ups[i].link.value, handle);
      RebuildBindsExactly(run, ups[i].link.value, handle);
    }
    if link :| Pending(run.h, run.s, link) && BoundTo(run.h, run.s, link, handle) {
      RebuildBindsExactly(run, link, handle);
    }
    if p :| p in left.rows && p.link.Some? && Provisional(p.link.value) == handle {
      RestagedNames(run.Walk(), left, p);
      RebuildBindsExactly(run, p.link.value, handle);
    }
  }

  lemma AllMembersUpserted(run: Run)
    requires run.Valid()
    ensures |Members(run.listed)| <= |run.Ups()|
  {
    RowsAreLoaded(run);
    WalkedKeeps(run.c, run.Rows(), run.listed, run.readings);
    UpsertsLength(run.Walk(), run.Left());
  }

  lemma NamedIsTakenUp(run: Run, p: Placement)
    requires run.Valid() && p in run.Rows() && IsSpine(p) && p.link.Some? && !Unnamed(run.Ups(), p.link.value)
    ensures CarriedIn(run.Walk().entries, p) || p in run.Left().rows
  {
    RowsAreLoaded(run);
    var rows, w, left, ups := run.Rows(), run.Walk(), run.Left(), run.Ups();
    WalkedKeeps(run.c, rows, run.listed, run.readings);
    LeftAllKeeps(CarriedHandles(w.entries), Filter(IsSpine, rows));
    var i :| 0 <= i < |ups| && ups[i].link == p.link;
    UpsertAt(w, left, i);
    hide Walked, Upserted, Hub.Project, LeftOf;
    if i < |w.entries| {
      var e := w.entries[i];
      assert EntryKeyed(LinksOf(Filter(IsStaged, rows)), Filter(IsSpine, rows), w.claimed, e);
      assert p.link.value in LinksOf(Filter(IsSpine, rows));
      OneRowALink(rows, e.row.value, p);
    } else {
      OneRowALink(rows, left.rows[i - |w.entries|], p);
    }
  }

  /** An upserted item is bound as its upsert says, over what the drops left. */
  lemma UpsertedItem(run: Run, i: nat)
    requires run.Valid() && i < |run.Ups()| && run.Ups()[i].link.Some?
    ensures var link := run.Ups()[i].link.value;
      link in run.After().items && BoundAs(Emptied(run).items, run.After().items[link], link, run.s, run.Ups()[i])
  {
    RunSplits(run);
    RunNamesOnce(run);
    UpsertsOnItems(Emptied(run), run.s, run.Ups());
  }

  lemma CarriedItem(run: Run, p: Placement, i: nat)
    requires run.Valid() && p in run.Rows() && IsSpine(p) && p.link.Some?
    requires i < |run.Walk().entries| && run.Walk().entries[i].row == Some(p)
    ensures var upsert := run.Walk().entries[i].upsert;
      && BoundTo(run.After(), run.s, p.link.value, upsert.handle)
      && (run.After().items[p.link.value].deleted <==> upsert.status.Tombstone?)
  {
    RowsAreLoaded(run);
    WalkedKeeps(run.c, run.Rows(), run.listed, run.readings);
    UpsertsLength(run.Walk(), run.Left());
    UpsertAt(run.Walk(), run.Left(), i);
    hide Walked, LeftOf, Upserted, Hub.Project, Hub.Absorb, Rebuild;
    assert EntryKeyed(LinksOf(Filter(IsStaged, run.Rows())), Filter(IsSpine, run.Rows()), run.Walk().claimed,
      run.Walk().entries[i]);
    UpsertedItem(run, i);
  }

  lemma RestagedItem(run: Run, p: Placement)
    requires run.Valid() && p in run.Left().rows && p.link.Some?
    ensures BoundTo(run.After(), run.s, p.link.value, Provisional(p.link.value))
    ensures !run.After().items[p.link.value].deleted
  {
    var k := RestagedIndex(run.Walk(), run.Left(), p);
    hide Walked, LeftOf, Upserted, Hub.Project, Hub.Absorb, Rebuild;
    UpsertedItem(run, k);
  }

  lemma RestagedIndex(w: Walk, left: Left, p: Placement) returns (i: nat)
    requires p in left.rows
    ensures i < |Upserted(w, left)| && Upserted(w, left)[i] == Restaged(p)
  {
    var k :| 0 <= k < |left.rows| && left.rows[k] == p;
    i := |w.entries| + k;
  }

  lemma GoneItem(run: Run, p: Placement)
    requires run.Valid() && p in run.Rows() && IsSpine(p) && p.link.Some?
    requires !CarriedIn(run.Walk().entries, p) && p !in run.Left().rows
    ensures var items := run.After().items;
      p.link.value in items && run.s !in items[p.link.value].sources && items[p.link.value].deleted
  {
    if !Unnamed(run.Ups(), p.link.value) {
      NamedIsTakenUp(run, p);
    } else {
      UncarriedIsDeleted(run, p);
      RunSplits(run);
      RunNamesOnce(run);
      UpsertsOnItems(Emptied(run), run.s, run.Ups());
    }
  }

  ghost predicate CarriedLive(entries: seq<Entry>, p: Placement) {
    exists i :: 0 <= i < |entries| && entries[i].row == Some(p) && !entries[i].upsert.status.Tombstone?
  }

  /**
    What becomes of each old row's item: still bound exactly when the row was carried or
    restaged, and deleted unless it was carried live or restaged.
  */
  lemma RekeyedItems(run: Run, p: Placement)
    requires run.Valid() && p in run.Rows() && IsSpine(p)
    ensures var items, entries, restaged := run.After().items, run.Walk().entries, p in run.Left().rows;
      && p.link.Some? && p.link.value in items
      && (run.s in items[p.link.value].sources <==> CarriedIn(entries, p) || restaged)
      && (items[p.link.value].deleted <==> !CarriedLive(entries, p) && !restaged)
  {
    RowIsBound(run, p);
    RowsAreLoaded(run);
    RestagedIffLeftBehind(run.c, run.Rows(), run.listed, run.readings, p);
    hide Walked, LeftOf, Upserted, Hub.Project, Hub.Absorb, Rebuild;
    var entries := run.Walk().entries;
    if i :| 0 <= i < |entries| && entries[i].row == Some(p) {
      CarriedItem(run, p, i);
      if CarriedLive(entries, p) {
        var j :| 0 <= j < |entries| && entries[j].row == Some(p) && !entries[j].upsert.status.Tombstone?;
        CarriedItem(run, p, j);
      }
    } else if p in run.Left().rows {
      RestagedItem(run, p);
    } else {
      GoneItem(run, p);
    }
  }

  lemma EmptiedLeavesOthers(run: Run, link: LinkId, t: Source)
    requires run.Valid() && t != run.s
    ensures Emptied(run).items.Keys == run.h.items.Keys
    ensures link in run.h.items ==>
      var left, was := Emptied(run).items[link].sources, run.h.items[link].sources;
      (t in left <==> t in was) && (t in was ==> left[t] == was[t])
  {
    RowsAreLoaded(run);
    var drops := Drops(run.c, run.Rows(), run.listed, run.readings);
    DropsDistinct(run.c, run.Left(), InPlace(run.Walk().entries), Filter(IsSpine, run.Rows()));
    hide Drops, Walked, LeftOf, Hub.Project, DropEachOnce;
    DropsKeepKeys(run.h, run.s, drops);
    if link in run.h.items {
      DropsKeepOthers(run.h, run.s, drops, link, t);
    }
  }

  lemma {:induction false} DropsKeepOthers(h: Hub.HubState, s: Source, drops: seq<WriteOp>, link: LinkId, t: Source)
    requires DropEachOnce(drops) && link in h.items && t != s
    ensures var h' := Hub.AbsorbOps(h, s, drops);
      && link in h'.items
      && (t in h'.items[link].sources <==> t in h.items[link].sources)
      && (t in h.items[link].sources ==> h'.items[link].sources[t] == h.items[link].sources[t])
  {
    if drops != [] {
      var init := drops[..|drops| - 1];
      assert DropEachOnce(init) by {
        assert forall i :: 0 <= i < |init| ==> init[i] == drops[i];
      }
      DropsKeepOthers(h, s, init, link, t);
    }
  }

  /** A rekey of one source touches no other source's bindings. */
  lemma RekeyLeavesOthers(run: Run, link: LinkId, t: Source)
    requires run.Valid() && t != run.s && link in run.After().items
    ensures var after := run.After().items[link].sources;
      && (t in after <==> link in run.h.items && t in run.h.items[link].sources)
      && (t in after ==> after[t] == run.h.items[link].sources[t])
  {
    EmptiedLeavesOthers(run, link, t);
    RunNamesOnce(run);
    if Unnamed(run.Ups(), link) {
      RunSplits(run);
      UpsertsOnItems(Emptied(run), run.s, run.Ups());
    } else {
      var i :| 0 <= i < |run.Ups()| && run.Ups()[i].link == Some(link);
      UpsertedItem(run, i);
    }
  }
}
