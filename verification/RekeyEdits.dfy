/** A rebuild absorbed by the hub loses no staged edit: the item still holds its body. */
module RekeyEdits {
  import opened Wrappers
  import opened Entities
  import opened Text
  import opened RekeyModel
  import opened RekeyAccounts
  import opened RekeyHub
  import Hub = HubModel
  import Bodies = HubBodies

  /** A loaded row states its item's body. */
  lemma RowStatesBody(run: Run, p: Placement)
    requires p in run.Rows()
    ensures p.link.Some? && p.link.value in run.h.items && p.body == run.h.items[p.link.value].body
  {
    Hub.ProjectMembers(run.h, run.c, run.s, run.origin, p);
  }

  /** Every upsert of the item among these restates `body`, live. */
  ghost predicate Restate(ups: seq<Placement>, link: LinkId, body: Option<Hash>) {
    forall i :: 0 <= i < |ups| && ups[i].link == Some(link) ==> ups[i].body == body && !ups[i].status.Tombstone?
  }

  lemma UpsertKeepsBody(h: Hub.HubState, s: Source, p: Placement, link: LinkId)
    requires link in h.items && h.items[link].body.Some?
    requires p.link == Some(link) ==> p.body == h.items[link].body && !p.status.Tombstone?
    ensures var h' := Hub.AbsorbUpsert(h, s, p); link in h'.items && h'.items[link].body == h.items[link].body
  {
    if p.link == Some(link) {
      hide Hub.AbsorbUpsert;
      Bodies.MetBearsAsStored(h, s, p);
      Bodies.RestatedBodyStays(h, s, p);
    } else if p.link.Some? {
      hide Hub.AbsorbUpsert;
      UpsertOnItem(h, s, p);
    }
  }

  lemma {:induction false} UpsertsKeepBody(h: Hub.HubState, s: Source, ups: seq<Placement>, link: LinkId)
    requires link in h.items && h.items[link].body.Some? && Restate(ups, link, h.items[link].body)
    ensures var h' := Hub.AbsorbOps(h, s, UpsertsOf(ups)); link in h'.items && h'.items[link].body == h.items[link].body
  {
    hide Hub.AbsorbUpsert;
    if ups == [] {
      Hub.AbsorbNone(h, s);
    } else {
      var init, last := ups[..|ups| - 1], ups[|ups| - 1];
      UpsertsKeepBody(h, s, init, link);
      assert UpsertsOf(ups)[..|ups| - 1] == UpsertsOf(init);
      UpsertKeepsBody(Hub.AbsorbOps(h, s, UpsertsOf(init)), s, last, link);
    }
  }

  /** The drops unbind and delete, and touch no body. */
  lemma EmptiedKeepsBody(run: Run, link: LinkId)
    requires run.Valid() && link in run.h.items
    ensures link in Emptied(run).items && Emptied(run).items[link].body == run.h.items[link].body
  {
    RowsAreLoaded(run);
    DropsDistinct(run.c, run.Left(), InPlace(run.Walk().entries), Filter(IsSpine, run.Rows()));
    var drops, item := Drops(run.c, run.Rows(), run.listed, run.readings), run.h.items[link];
    DropsOnItem(run.h, run.s, drops, link);
    hide Walked, LeftOf, Hub.Project, Hub.AbsorbOps, Drops;
    if i :| 0 <= i < |drops| && Hub.BoundAt(item, run.s, drops[i].handle) {
      assert Emptied(run).items[link] == Hub.Unbound(item, run.s, drops[i].reason);
    }
  }

  /** One upsert of the rebuild bears the edit, live, and no other names its item. */
  lemma EditIsBorne(run: Run, p: Placement) returns (i: nat)
    requires run.Valid() && p in run.Rows() && IsSpine(p) && Edited(p) && p.link.Some?
    ensures i < |run.Ups()| && run.Ups()[i].link == p.link && Restate(run.Ups(), p.link.value, p.body)
  {
    hide Walked, LeftOf, Upserted, Hub.Project, Edited;
    RowsAreLoaded(run);
    assert p in Filter(IsSpine, run.Rows());
    i := EditsSurvive(run.c, run.Rows(), run.listed, run.readings, p);
  }

  /** An edit a rebuild must keep: a dirty or conflicted row's body its base does not name. */
  lemma EditedIff(p: Placement)
    ensures Edited(p) <==>
      (p.status.Dirty? || p.status.Conflict?) && p.body.Some? && !(p.base.Some? && p.base.value.body == p.body)
  {
  }

  /** Whatever the listing, a staged edit is its item's body once the rebuild is absorbed. */
  lemma RekeyedEditsStay(run: Run, p: Placement)
    requires run.Valid() && p in run.Rows() && IsSpine(p)
    requires (p.status.Dirty? || p.status.Conflict?) && p.body.Some? && !(p.base.Some? && p.base.value.body == p.body)
    ensures var items := run.After().items;
      p.link.Some? && p.link.value in items && items[p.link.value].body == p.body && !items[p.link.value].deleted
  {
    hide Walked, LeftOf, Upserted, Hub.Project, Hub.AbsorbOps, Rebuild, Restate, Edited, IsSpine;
    RowStatesBody(run, p);
    EditedIff(p);
    var link, ups := p.link.value, run.Ups();
    var i := EditIsBorne(run, p);
    EmptiedKeepsBody(run, link);
    RunSplits(run);
    UpsertsKeepBody(Emptied(run), run.s, ups, link);
    RunNamesOnce(run);
    UpsertsOnItems(Emptied(run), run.s, ups);
    RestatedIsLive(ups, i, link, p.body);
    assert BoundAs(Emptied(run).items, run.After().items[link], link, run.s, ups[i]);
  }

  lemma RestatedIsLive(ups: seq<Placement>, i: nat, link: LinkId, body: Option<Hash>)
    requires i < |ups| && ups[i].link == Some(link) && Restate(ups, link, body)
    ensures !ups[i].status.Tombstone?
  {
  }
}
