/** What a projected row says of its item: its status, its round trip, and an edit owed to others. */
module HubProjection {
  import opened Wrappers
  import opened Entities
  import opened Keys
  import opened Text
  import opened HubModel
  import opened HubMerge
  import opened Quiescence

  /** The row a source is shown and exactly when: a deleted item only while bound, another's only with a body. */
  lemma SeenIff(c: Collection, s: Source, link: LinkId, item: Item)
    ensures Seen(c, s, link, item).Some? <==> if item.deleted then s in item.sources else Offered(item, s)
  {
  }

  /** Each status a row can be in, told by the item and the binding alone. */
  lemma StatusIff(c: Collection, s: Source, link: LinkId, item: Item)
    requires Seen(c, s, link, item).Some?
    ensures var p, bound := Seen(c, s, link, item).value, s in item.sources;
      var torn := item.conflicted || (bound && item.sources[s].conflicted);
      && (p.status.Tombstone? <==> item.deleted)
      && (p.status.Conflict? <==> !item.deleted && bound && torn)
      && (p.status.Created? <==> !item.deleted && (bound ==> !torn && item.sources[s].base.None?))
      && (p.status.Clean? <==> !item.deleted && bound && !torn && item.sources[s].base.Some? &&
                               Accounts(item.sources[s].base.value, item))
      && (p.status.Dirty? <==> !item.deleted && bound && !torn && item.sources[s].base.Some? &&
                               !Accounts(item.sources[s].base.value, item))
  {
  }

  /** What a row carries: the item's content, and its binding's handle, base and conflict, or a create's. */
  lemma RowCarries(c: Collection, s: Source, link: LinkId, item: Item)
    requires Seen(c, s, link, item).Some?
    ensures var p := Seen(c, s, link, item).value;
      && p.collection == c && p.link == Some(link) && p.body == item.body && p.flags == item.flags
      && p.summary == item.summary && p.sortKey == item.sortKey && p.origin.None?
      && (p.level.Full? ==> p.body.Some?) && (p.body.Some? && s in item.sources ==> p.level == item.level)
      && (s in item.sources ==>
          var b := item.sources[s];
          && p.handle == b.handle && p.base == b.base
          && p.conflictRevision == b.conflictRevision && p.conflictBody == b.conflictBody)
      && (s !in item.sources ==>
          p.handle == Provisional(link) && p.base.None? && p.conflictRevision.None? && p.conflictBody.None?
            && p.level.Full?)
  {
  }

  /** A projected row is the one seen, with the origin the store resolves for a create or a delete alone. */
  lemma ProjectedOrigin(h: HubState, c: Collection, s: Source, origin: Resolver, p: Placement)
    requires p in Project(h, c, s, origin)
    ensures p.link.Some? && p.link.value in h.items
    ensures var seen := Seen(c, s, p.link.value, h.items[p.link.value]);
      && seen == Some(p.(origin := None))
      && p.origin == (if p.status.Created? || p.status.Tombstone? then origin(seen.value) else None)
  {
    ProjectMembers(h, c, s, origin, p);
  }

  ghost predicate LinksAscend(rows: seq<Placement>, links: seq<LinkId>) {
    && (forall i :: 0 <= i < |rows| ==> rows[i].link.Some? && rows[i].link.value in links)
    && (forall i, j :: 0 <= i < j < |rows| ==> Less(rows[i].link.value, rows[j].link.value))
  }

  lemma AscendsOnward(rows: seq<Placement>, links: seq<LinkId>, last: LinkId, p: Placement)
    requires LinksAscend(rows, links) && p.link == Some(last)
    requires forall l :: l in links ==> Less(l, last)
    ensures LinksAscend(rows + [p], links + [last])
  {
    hide Less;
    var all := rows + [p];
    forall i | 0 <= i < |all|
      ensures all[i].link.Some? && all[i].link.value in links + [last]
    {
      assert i < |rows| ==> all[i] == rows[i];
    }
  }

  lemma {:induction false} ProjectedLinksAscend(
      h: HubState, c: Collection, s: Source, origin: Resolver, links: seq<LinkId>)
    requires (forall l :: l in links ==> l in h.items) && StrictlyAscending(links)
    ensures LinksAscend(ProjectLinks(h, c, s, origin, links), links)
  {
    hide Less, Seen;
    if links != [] {
      var init, last := links[..|links| - 1], links[|links| - 1];
      ProjectedLinksAscend(h, c, s, origin, init);
      SeenLink(c, s, last, h.items[last]);
      assert links == init + [last];
      var seen := Seen(c, s, last, h.items[last]);
      if seen.Some? {
        AscendsOnward(ProjectLinks(h, c, s, origin, init), init, last, Resolved(origin, seen.value));
      }
    }
  }

  lemma SeenLink(c: Collection, s: Source, link: LinkId, item: Item)
    ensures Seen(c, s, link, item).Some? ==> Seen(c, s, link, item).value.link == Some(link)
  {
  }

  /** A projection is in the order of its keys. */
  lemma ProjectedInOrder(h: HubState, c: Collection, s: Source, origin: Resolver, i: nat, j: nat)
    requires i < j < |Project(h, c, s, origin)|
    ensures var rows := Project(h, c, s, origin);
      rows[i].link.Some? && rows[j].link.Some? && Less(rows[i].link.value, rows[j].link.value)
  {
    hide Less, ProjectLinks;
    ProjectedLinksAscend(h, c, s, origin, Ascending(h.items.Keys));
  }

  // ---------- A row absorbed again ----------

  /** The item and the binding as writes leave them, so that the row says all of both. */
  predicate Kept(item: Item, s: Source)
    requires s in item.sources
  {
    var b := item.sources[s];
    && (b.conflicted <==> b.conflictRevision.Some?) && (b.conflictRevision.None? ==> b.conflictBody.None?)
    && (item.deleted ==> !item.conflicted && item.conflictBody.None?)
    && (!item.deleted && !item.conflicted && item.body.Some? ==> b.sharedBody == item.body)
    && (!item.deleted && b.base.Some? && b.base.value.revision.None? && b.base.value.body.Some? && item.body.Some? ==>
        b.base.value.body == item.body)
    && (item.summary.Some? ==> item.summary.value.Stored() == item.summary.value)
    && item.level == item.StoredLevel()
  }

  /** The row a source is shown of an item it binds, written back, changes nothing at all. */
  lemma RowRoundTrips(h: HubState, c: Collection, s: Source, link: LinkId)
    requires Idle(h) && link in h.items && s in h.items[link].sources && Kept(h.items[link], s)
    ensures Seen(c, s, link, h.items[link]).Some?
    ensures AbsorbUpsert(h, s, Seen(c, s, link, h.items[link]).value) == h
  {
    var item := h.items[link];
    assert item.sources != map[];
    var p := Seen(c, s, link, item).value;
    assert Met(h.items, h.rebinding, s, link, p) == item;
    assert item.sources[s := item.sources[s]] == item.sources;
    if item.deleted {
      assert Buried(item, s, p) == item;
    } else {
      RowSettles(c, s, link, item, h.policy);
      assert Bind(item, s, LiveBinding(item, s, p)) == item;
    }
    hide Settled;
    assert h.items[link := item] == h.items && h.rebinding - {link} == map[];
    assert h.overruled + [] == h.overruled && h.diverged + [] == h.diverged && h.unsummarized + [] == h.unsummarized;
  }

  lemma RowSettles(c: Collection, s: Source, link: LinkId, item: Item, policy: Policy)
    requires s in item.sources && Kept(item, s) && !item.deleted
    ensures Seen(c, s, link, item).Some?
    ensures Settled(item, s, Seen(c, s, link, item).value, policy, false, false) == (item, NOTHING)
  {
    assert item.sources != map[];
    var p := Seen(c, s, link, item).value;
    assert Restated(item, p) == item;
    hide Restated, Mutable;
    assert Reconcile(item, s, p, policy) == (item, NOTHING);
  }

  // ---------- An edit is owed to the other sources ----------

  /**
    From a body two sources agree on, the edit of one turns the other's row dirty, bearing
    the edit's body over the base it had; a source that never bound the item is offered it.
  */
  lemma EditIsOwed(h: HubState, c: Collection, link: LinkId, e: Edit, body: Hash, t: Source)
    requires Idle(h) && link in h.items && !h.items[link].deleted && !h.items[link].conflicted
    requires h.items[link].body == Some(body) && AgreesOn(h.items[link], e.s, body)
    requires EditOf(h, link, e) && e.body != body && t != e.s
    ensures var was, h' := h.items[link], AfterEdit(h, e);
      && link in h'.items && Seen(c, t, link, h'.items[link]).Some?
      && var p := Seen(c, t, link, h'.items[link]).value;
         && p.body == Some(e.body) && p.link == Some(link)
         && (t in was.sources && AgreesOn(was, t, body) ==>
             p.status.Dirty? && p.handle == was.sources[t].handle && p.base == was.sources[t].base)
         && (t !in was.sources ==> p.status.Created? && p.handle == Provisional(link) && p.base.None?)
  {
    hide Absorb;
    FirstEditIsAdopted(h, link, e, body);
    assert AfterEdit(h, e).items[link].sources != map[];
  }
}
