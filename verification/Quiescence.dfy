/**
  Propagation comes to rest: once a source has accepted everything the hub projects to it,
  it is owed nothing more, and nobody else is owed anything new.
*/
module Quiescence {
  import opened Wrappers
  import opened Entities
  import opened HubModel

  // ---------- What a source's acceptance writes ----------

  /** An accepted content push: the base moves onto the pushed body, its flags left behind. */
  function ContentRebased(p: Placement, revision: Option<Revision>): Placement
    requires p.base.Some?
  {
    p.(status := if p.flags == p.base.value.flags then Clean else Dirty,
       base := Some(Base(p.base.value.flags, revision, p.body)))
  }

  /** An accepted flag push: the base adopts the flags, its body and revision left alone. */
  function FlagsRebased(p: Placement): Placement
    requires p.base.Some?
  {
    p.(status := Clean, base := Some(p.base.value.(flags := p.flags)))
  }

  predicate ContentPending(p: Placement) {
    p.body.Some? && p.body != p.BaseBody()
  }

  /** An accepted create, rekeyed under the handle the server assigned. */
  function Assigned(p: Placement, handle: Handle, revision: Option<Revision>): Placement {
    p.(handle := handle, status := Clean, origin := None, base := Some(Base(p.flags, revision, p.body)))
  }

  function Accepted(p: Placement, handle: Handle, revision: Option<Revision>): seq<WriteOp> {
    match p.status
    case Dirty =>
      if p.base.None? then []
      else if ContentPending(p) then
        [Upsert(ContentRebased(p, revision)), Upsert(FlagsRebased(ContentRebased(p, revision)))]
      else [Upsert(FlagsRebased(p))]
    case Created => [Drop(p.collection, p.handle, Superseded), Upsert(Assigned(p, handle, revision))]
    case Tombstone => [Drop(p.collection, p.handle, Deleted)]
    case _ => []
  }

  /** What the remote answers, by link: the handle of an add and the revision of a push. */
  datatype Remote = Remote(handle: LinkId -> Handle, revision: LinkId -> Option<Revision>)

  function AcceptedAll(rows: seq<Placement>, remote: Remote): seq<WriteOp>
    requires KeyedRows(rows)
  {
    if rows == [] then []
    else
      var last := rows[|rows| - 1];
      AcceptedAll(rows[..|rows| - 1], remote) +
      Accepted(last, remote.handle(last.link.value), remote.revision(last.link.value))
  }

  /** The hub once `s` has accepted everything it projects. */
  function Synced(h: HubState, c: Collection, s: Source, origin: Resolver, remote: Remote): HubState {
    ProjectKeyed(h, c, s, origin);
    Absorb(h, s, AcceptedAll(Project(h, c, s, origin), remote))
  }

  // ---------- What a source sees ----------

  datatype View = View(handle: Handle, status: Status, base: Option<Base>, flags: Flags, body: Option<Hash>)

  function ViewOf(s: Source, link: LinkId, item: Item): Option<View> {
    var seen := Seen("", s, link, item);
    if seen.None? then None
    else
      var p := seen.value;
      Some(View(p.handle, p.status, p.base, p.flags, p.body))
  }

  ghost predicate SameViews(h: HubState, h': HubState, s: Source) {
    && h.items.Keys == h'.items.Keys
    && forall l :: l in h.items ==> ViewOf(s, l, h.items[l]) == ViewOf(s, l, h'.items[l])
  }

  /** Everything `s` sees is in sync with it. */
  ghost predicate AllClean(h: HubState, s: Source) {
    forall l :: l in h.items && ViewOf(s, l, h.items[l]).Some? ==> ViewOf(s, l, h.items[l]).value.status.Clean?
  }

  predicate Unconflicted(binding: Binding) {
    !binding.conflicted && binding.conflictRevision.None?
  }

  predicate UnconflictedItem(item: Item) {
    !item.conflicted && forall t | t in item.sources :: Unconflicted(item.sources[t])
  }

  ghost predicate NoConflict(h: HubState) {
    forall l :: l in h.items ==> UnconflictedItem(h.items[l])
  }

  predicate SeesAt(h: HubState, s: Source, link: LinkId, handle: Handle) {
    link in h.items && ViewOf(s, link, h.items[link]).Some? && ViewOf(s, link, h.items[link]).value.handle == handle
  }

  /** Each handle `s` sees names one item, and the remote assigns handles `s` does not see yet. */
  ghost predicate HandlesApart(h: HubState, s: Source, remote: Remote) {
    && (forall l, m, x :: SeesAt(h, s, l, x) && SeesAt(h, s, m, x) ==> l == m)
    && (forall l, m :: remote.handle(l) == remote.handle(m) ==> l == m)
    && (forall l, m :: !SeesAt(h, s, l, remote.handle(m)))
  }

  // ---------- One item comes to rest ----------

  /** The base names the item's flags, and its body when it has one. */
  predicate Accounts(base: Base, item: Item) {
    base.flags == item.flags && (item.body.Some? ==> base.body == item.body)
  }

  /** The source is offered the item: it binds it, or someone does and it has a body to push. */
  predicate Offered(item: Item, s: Source) {
    s in item.sources || (item.sources != map[] && item.body.Some?)
  }

  /** What a source is owed: a live item it is offered, bound and accounted for, and no deleted one. */
  predicate Rests(item: Item, s: Source) {
    if item.deleted then s !in item.sources
    else Offered(item, s) ==>
      s in item.sources && item.sources[s].base.Some? && Accounts(item.sources[s].base.value, item)
  }

  ghost predicate AllRest(h: HubState, s: Source) {
    forall l :: l in h.items ==> Rests(h.items[l], s)
  }

  /** The item is the same but for how `s` stands to it. */
  ghost predicate SameBut(before: Item, after: Item, s: Source) {
    && after.body == before.body && after.flags == before.flags && after.deleted == before.deleted
    && SameOthers(before, after, s) && (before.sources == map[] ==> after.sources == map[])
  }

  ghost predicate AllSameBut(h: HubState, h': HubState, s: Source) {
    h'.items.Keys == h.items.Keys && forall l :: l in h.items ==> SameBut(h.items[l], h'.items[l], s)
  }

  /** `after` is `before` with `s` served: live items bound and in sync, deleted ones let go. */
  ghost predicate Served(before: Item, after: Item, s: Source, handles: set<Handle>) {
    && after.deleted == before.deleted && after.body == before.body && after.flags == before.flags
    && UnconflictedItem(after)
    && SameOthers(before, after, s)
    && (after.deleted ==> s !in after.sources)
    && (!after.deleted ==> s in after.sources && after.sources[s].base.Some? &&
                           Accounts(after.sources[s].base.value, after) && after.sources[s].handle in handles)
  }

  /** The binding a restating upsert leaves: its handle and base, the base's body the item's at most. */
  predicate Rebound(binding: Binding, item: Item, p: Placement) {
    && binding.handle == p.handle && Unconflicted(binding) && binding.base.Some? == p.base.Some?
    && (p.base.Some? ==>
        && binding.base.value.flags == p.base.value.flags
        && (binding.base.value.body == p.base.value.body || binding.base.value.body == item.body))
  }

  /** `after` is a live, unconflicted `before` but for the binding `p` left. */
  ghost predicate RestatedBy(before: Item, after: Item, s: Source, p: Placement) {
    && after.body == before.body && after.flags == before.flags && !after.conflicted && !after.deleted
    && s in after.sources && Rebound(after.sources[s], after, p) && SameOthers(before, after, s)
  }

  lemma RestatingSettles(met: Item, s: Source, p: Placement, policy: Policy)
    requires p.body == met.body && p.flags == met.flags && !met.conflicted
    ensures var (after, verdict) := Settled(met, s, p, policy, false, false);
      && verdict == NOTHING && after.body == met.body && after.flags == met.flags && after.sources == met.sources
      && !after.conflicted && !after.deleted
  {
    var r := Restated(met, p);
    assert r.body == p.body && !r.conflicted && r.sources == met.sources;
    assert Reconcile(r, s, p, policy) == (r, NOTHING);
  }

  /** An upsert that restates the item's own body and flags changes neither. */
  lemma RestatingUpsert(h: HubState, s: Source, p: Placement)
    requires p.link.Some? && p.link.value in h.items && !p.status.Tombstone? && p.conflictRevision.None?
    requires h.overruling == {} && h.settling == {}
    requires var met := Met(h.items, h.rebinding, s, p.link.value, p);
      p.body == met.body && p.flags == met.flags && !met.conflicted
    ensures var h' := AbsorbUpsert(h, s, p);
      && h' == h.(items := h'.items, rebinding := h.rebinding - {p.link.value})
      && h'.items.Keys == h.items.Keys && (forall l :: l in h.items && l != p.link.value ==> h'.items[l] == h.items[l])
      && RestatedBy(Met(h.items, h.rebinding, s, p.link.value, p), h'.items[p.link.value], s, p)
  {
    hide Settled, Met, KeptEntries, LostEntry;
    RestatingSettles(Met(h.items, h.rebinding, s, p.link.value, p), s, p, h.policy);
  }

  lemma RestatedIsServed(before: Item, met: Item, after: Item, s: Source, p: Placement)
    requires UnconflictedItem(before) && !before.deleted
    requires met.body == before.body && met.flags == before.flags && SameOthers(before, met, s)
    requires RestatedBy(met, after, s, p)
    requires p.base.Some? && p.base.value.flags == before.flags
    requires before.body.None? || p.base.value.body == before.body
    ensures Served(before, after, s, {p.handle})
  {
    forall t | t in after.sources
      ensures Unconflicted(after.sources[t])
    {
      if t != s {
        assert t in met.sources && t in before.sources;
      }
    }
  }

  /** `p` is what `s` loads of the item, whatever origin the store put on it. */
  predicate RowOf(c: Collection, s: Source, link: LinkId, item: Item, p: Placement) {
    Seen(c, s, link, item) == Some(p.(origin := None))
  }

  /** What a row of an unconflicted item says of it. */
  lemma RowFacts(c: Collection, s: Source, link: LinkId, item: Item, p: Placement)
    requires RowOf(c, s, link, item, p) && UnconflictedItem(item)
    ensures p.link == Some(link) && p.body == item.body && p.flags == item.flags
    ensures p.conflictRevision.None? && !p.status.Conflict?
    ensures p.status.Tombstone? <==> item.deleted
    ensures ViewOf(s, link, item) == Some(View(p.handle, p.status, p.base, p.flags, p.body))
    ensures s in item.sources ==> p.handle == item.sources[s].handle && p.base == item.sources[s].base
    ensures p.status.Created? ==> p.base.None?
    ensures p.status.Dirty? ==> s in item.sources && p.base.Some?
    ensures p.status.Clean? ==> s in item.sources && p.base.Some? && Accounts(p.base.value, item)
  {
  }

  lemma BoundIsSeen(h: HubState, s: Source, link: LinkId, handle: Handle)
    requires link in h.items && BoundAt(h.items[link], s, handle)
    ensures SeesAt(h, s, link, handle)
  {
  }

  ghost predicate OnlyAt(h: HubState, s: Source, handle: Handle, link: LinkId) {
    forall l :: l in h.items && BoundAt(h.items[l], s, handle) ==> l == link
  }

  /** Everything but one item is as it was. */
  ghost predicate OnlyItem(h: HubState, h': HubState, link: LinkId) {
    && h'.items.Keys == h.items.Keys
    && (forall l :: l in h.items && l != link ==> h'.items[l] == h.items[l])
    && h'.overruling == {} && h'.settling == {}
    && (h.rebinding == map[] ==> h'.rebinding == map[])
    && h'.policy == h.policy
  }

  lemma ServeDirty(
      h: HubState, c: Collection, s: Source, link: LinkId, p: Placement, handle: Handle, revision: Option<Revision>)
    requires Idle(h) && link in h.items && UnconflictedItem(h.items[link])
    requires RowOf(c, s, link, h.items[link], p) && p.status.Dirty?
    ensures var h' := AbsorbOps(h, s, Accepted(p, handle, revision));
      OnlyItem(h, h', link) && Served(h.items[link], h'.items[link], s, {p.handle})
  {
    RowFacts(c, s, link, h.items[link], p);
    hide AbsorbUpsert, AbsorbOps, RowOf, Rebound, Served, UnconflictedItem;
    var item := h.items[link];
    var first := if ContentPending(p) then ContentRebased(p, revision) else FlagsRebased(p);
    RestatingUpsert(h, s, first);
    AbsorbOne(h, s, Upsert(first));
    var h1 := AbsorbUpsert(h, s, first);
    assert h1.rebinding == map[];
    if ContentPending(p) {
      var second := FlagsRebased(first);
      RestatingUpsert(h1, s, second);
      AbsorbTwo(h, s, Upsert(first), Upsert(second));
      RestatedIsServed(item, h1.items[link], AbsorbUpsert(h1, s, second).items[link], s, second);
    } else {
      RestatedIsServed(item, item, h1.items[link], s, first);
    }
  }

  lemma IdleUpsert(h: HubState, s: Source, p: Placement)
    requires Idle(h)
    ensures Absorb(h, s, [Upsert(p)]) == AbsorbUpsert(h, s, p)
  {
    AbsorbOne(h, s, Upsert(p));
    UpsertStaysIdle(h, s, p);
  }

  lemma UpsertStaysIdle(h: HubState, s: Source, p: Placement)
    requires Idle(h)
    ensures Idle(AbsorbUpsert(h, s, p))
  {
    hide Settled, Met, KeptEntries, LostEntry, LiveBinding;
  }

  /** Content and flags accepted by two syncs leave what one batch of both would. */
  lemma FlagsMayWait(h: HubState, s: Source, p: Placement, handle: Handle, revision: Option<Revision>)
    requires Idle(h) && p.status.Dirty? && p.base.Some? && ContentPending(p)
    ensures var content := ContentRebased(p, revision);
      Absorb(Absorb(h, s, [Upsert(content)]), s, [Upsert(FlagsRebased(content))]) ==
        Absorb(h, s, Accepted(p, handle, revision))
  {
    hide AbsorbUpsert, AbsorbOps;
    var content := ContentRebased(p, revision);
    var h1 := AbsorbUpsert(h, s, content);
    IdleUpsert(h, s, content);
    UpsertStaysIdle(h, s, content);
    IdleUpsert(h1, s, FlagsRebased(content));
    UpsertStaysIdle(h1, s, FlagsRebased(content));
    AbsorbTwo(h, s, Upsert(content), Upsert(FlagsRebased(content)));
  }

  /** A licensed drop only sets the binding aside: the upsert after it meets the item it left. */
  lemma MetAfterRelease(h: HubState, s: Source, link: LinkId, p: Placement, handle: Handle)
    requires Idle(h) && link in h.items && OnlyAt(h, s, handle, link)
    ensures var h' := AbsorbDrop(h, s, handle, Superseded);
      && OnlyItem(h, h'.(rebinding := map[]), link) && h'.rebinding.Keys <= {link}
      && var met := Met(h'.items, h'.rebinding, s, link, p);
         met == h.items[link].(sources := met.sources) && SameOthers(h.items[link], met, s)
  {
  }

  lemma ServeCreated(
      h: HubState, c: Collection, s: Source, link: LinkId, p: Placement, handle: Handle, revision: Option<Revision>)
    requires Idle(h) && link in h.items && UnconflictedItem(h.items[link])
    requires RowOf(c, s, link, h.items[link], p) && p.status.Created?
    requires OnlyAt(h, s, p.handle, link)
    ensures var h' := AbsorbOps(h, s, Accepted(p, handle, revision));
      OnlyItem(h, h', link) && Served(h.items[link], h'.items[link], s, {handle})
  {
    RowFacts(c, s, link, h.items[link], p);
    hide AbsorbUpsert, AbsorbOps, AbsorbDrop, Met, RowOf, Rebound, Served, UnconflictedItem;
    var placed := Assigned(p, handle, revision);
    var h1 := AbsorbDrop(h, s, p.handle, Superseded);
    MetAfterRelease(h, s, link, placed, p.handle);
    RestatingUpsert(h1, s, placed);
    AbsorbTwo(h, s, Drop(p.collection, p.handle, Superseded), Upsert(placed));
    RestatedIsServed(h.items[link], Met(h1.items, h1.rebinding, s, link, placed),
      AbsorbUpsert(h1, s, placed).items[link], s, placed);
  }

  lemma ServeTombstone(
      h: HubState, c: Collection, s: Source, link: LinkId, p: Placement, handle: Handle, revision: Option<Revision>)
    requires Idle(h) && link in h.items && UnconflictedItem(h.items[link])
    requires RowOf(c, s, link, h.items[link], p) && p.status.Tombstone?
    requires OnlyAt(h, s, p.handle, link)
    ensures var h' := AbsorbOps(h, s, Accepted(p, handle, revision));
      OnlyItem(h, h', link) && Served(h.items[link], h'.items[link], s, {})
  {
    RowFacts(c, s, link, h.items[link], p);
    hide RowOf, AbsorbOps;
    AbsorbOne(h, s, Drop(p.collection, p.handle, Deleted));
  }

  /** One row's acceptance serves its item and touches no other. */
  lemma ServeRow(
      h: HubState, c: Collection, s: Source, link: LinkId, p: Placement, handle: Handle, revision: Option<Revision>)
    requires Idle(h) && link in h.items && UnconflictedItem(h.items[link])
    requires RowOf(c, s, link, h.items[link], p)
    requires OnlyAt(h, s, p.handle, link)
    ensures var h' := AbsorbOps(h, s, Accepted(p, handle, revision));
      OnlyItem(h, h', link) && Served(h.items[link], h'.items[link], s, {p.handle, handle})
  {
    RowFacts(c, s, link, h.items[link], p);
    hide AbsorbOps, RowOf;
    match p.status {
      case Dirty => ServeDirty(h, c, s, link, p, handle, revision);
      case Created => ServeCreated(h, c, s, link, p, handle, revision);
      case Tombstone => ServeTombstone(h, c, s, link, p, handle, revision);
      case _ => AbsorbNone(h, s);
    }
  }

  // ---------- One source comes to rest ----------

  ghost predicate Untouched(rows: seq<Placement>, done: nat, link: LinkId)
    requires done <= |rows|
  {
    forall i :: 0 <= i < done ==> rows[i].link != Some(link)
  }

  /** What serving the first rows has done: their items are at rest, the others untouched. */
  ghost predicate Progress(h: HubState, h': HubState, s: Source, rows: seq<Placement>, done: nat, remote: Remote)
    requires KeyedRows(rows) && done <= |rows|
  {
    && Idle(h') && h'.items.Keys == h.items.Keys
    && (forall i :: 0 <= i < done && rows[i].link.value in h.items ==>
          Served(h.items[rows[i].link.value], h'.items[rows[i].link.value], s,
            {rows[i].handle, remote.handle(rows[i].link.value)}))
    && (forall l :: l in h.items && Untouched(rows, done, l) ==> h'.items[l] == h.items[l])
  }

  ghost predicate RowsOf(h: HubState, c: Collection, s: Source, rows: seq<Placement>) {
    && KeyedRows(rows)
    && forall i :: 0 <= i < |rows| ==>
        rows[i].link.value in h.items && RowOf(c, s, rows[i].link.value, h.items[rows[i].link.value], rows[i])
  }

  lemma SeesRow(h: HubState, c: Collection, s: Source, link: LinkId, p: Placement)
    requires NoConflict(h) && link in h.items && RowOf(c, s, link, h.items[link], p)
    ensures SeesAt(h, s, link, p.handle) && p.link == Some(link)
  {
    RowFacts(c, s, link, h.items[link], p);
  }

  /** The drop of the next row's handle meets no other item, served or not. */
  lemma NextHandleIsAlone(
      h: HubState, h': HubState, c: Collection, s: Source, rows: seq<Placement>, done: nat, remote: Remote)
    requires NoConflict(h) && HandlesApart(h, s, remote) && RowsOf(h, c, s, rows)
    requires done < |rows| && Progress(h, h', s, rows, done, remote)
    ensures OnlyAt(h', s, rows[done].handle, rows[done].link.value)
  {
    var p, link := rows[done], rows[done].link.value;
    SeesRow(h, c, s, link, p);
    hide RowOf, ViewOf, SeesAt, UnconflictedItem;
    forall l | l in h'.items && BoundAt(h'.items[l], s, p.handle)
      ensures l == link
    {
      if Untouched(rows, done, l) {
        assert h'.items[l] == h.items[l];
        BoundIsSeen(h, s, l, p.handle);
      } else {
        var i :| 0 <= i < done && rows[i].link == Some(l);
        SeesRow(h, c, s, l, rows[i]);
        assert !SeesAt(h, s, link, remote.handle(l));
      }
    }
  }

  /** Serving one more row keeps the rows served before it, and the rest untouched. */
  lemma OneMoreServed(
      h: HubState, before: HubState, after: HubState, s: Source, rows: seq<Placement>, init: nat, remote: Remote)
    requires KeyedRows(rows) && init < |rows| && Progress(h, before, s, rows, init, remote)
    requires rows[init].link.value in h.items && Untouched(rows, init, rows[init].link.value)
    requires var link := rows[init].link.value;
      && OnlyItem(before, after, link)
      && Served(h.items[link], after.items[link], s, {rows[init].handle, remote.handle(link)})
    ensures Progress(h, after, s, rows, init + 1, remote)
  {
    hide Served;
    forall l | l in h.items && Untouched(rows, init + 1, l)
      ensures after.items[l] == h.items[l]
    {
      assert Untouched(rows, init, l) && rows[init].link != Some(l);
    }
  }

  lemma {:induction false} ServeRows(
      h: HubState, c: Collection, s: Source, rows: seq<Placement>, done: nat, remote: Remote)
    requires Idle(h) && NoConflict(h) && HandlesApart(h, s, remote) && RowsOf(h, c, s, rows)
    requires done <= |rows| && KeyedRows(rows[..done])
    ensures Progress(h, AbsorbOps(h, s, AcceptedAll(rows[..done], remote)), s, rows, done, remote)
  {
    hide AbsorbOps, Accepted, RowOf, Served, UnconflictedItem, HandlesApart;
    if done == 0 {
      AbsorbNone(h, s);
    } else {
      var init, p := done - 1, rows[done - 1];
      var link := p.link.value;
      assert rows[..done][..init] == rows[..init] && rows[..done][init] == p;
      ServeRows(h, c, s, rows, init, remote);
      var before := AbsorbOps(h, s, AcceptedAll(rows[..init], remote));
      NextHandleIsAlone(h, before, c, s, rows, init, remote);
      assert Untouched(rows, init, link);
      assert before.items[link] == h.items[link];
      var ops := Accepted(p, remote.handle(link), remote.revision(link));
      ServeRow(before, c, s, link, p, remote.handle(link), remote.revision(link));
      AbsorbOpsConcat(h, s, AcceptedAll(rows[..init], remote), ops);
      assert AcceptedAll(rows[..done], remote) == AcceptedAll(rows[..init], remote) + ops;
      OneMoreServed(h, before, AbsorbOps(h, s, AcceptedAll(rows[..done], remote)), s, rows, init, remote);
    }
  }

  lemma ServedViews(before: Item, after: Item, s: Source, t: Source, link: LinkId, handles: set<Handle>)
    requires UnconflictedItem(before) && Served(before, after, s, handles)
    requires ViewOf(s, link, before).Some?
    ensures ViewOf(s, link, after).Some? ==> ViewOf(s, link, after).value.status.Clean?
    ensures t != s ==> ViewOf(t, link, after) == ViewOf(t, link, before)
  {
    assert before.sources != map[];
    if t != s {
      if t in before.sources {
        assert after.sources != map[];
      }
      if !after.deleted {
        assert s in after.sources && after.sources != map[];
      }
    }
  }

  /** How one item stands once every row is served. */
  ghost predicate AtRest(before: Item, after: Item, s: Source, link: LinkId) {
    && UnconflictedItem(after)
    && (ViewOf(s, link, after).Some? ==> ViewOf(s, link, after).value.status.Clean?)
    && (forall t :: t != s ==> ViewOf(t, link, after) == ViewOf(t, link, before))
    && Rests(after, s) && SameBut(before, after, s)
  }

  lemma ServedRests(before: Item, after: Item, s: Source, handles: set<Handle>)
    requires Served(before, after, s, handles) && before.sources != map[]
    ensures Rests(after, s) && SameBut(before, after, s)
  {
  }

  lemma SeenIsBound(c: Collection, s: Source, link: LinkId, item: Item)
    ensures Seen(c, s, link, item).Some? ==> item.sources != map[]
    ensures Seen(c, s, link, item).None? ==> Rests(item, s) && SameBut(item, item, s)
  {
  }

  lemma SeenIsARow(h: HubState, c: Collection, s: Source, origin: Resolver, link: LinkId) returns (i: nat)
    requires link in h.items && Seen(c, s, link, h.items[link]).Some?
    ensures i < |Project(h, c, s, origin)|
    ensures RowOf(c, s, link, h.items[link], Project(h, c, s, origin)[i])
  {
    hide Project;
    var p := Resolved(origin, Seen(c, s, link, h.items[link]).value);
    ProjectMembers(h, c, s, origin, p);
    i :| 0 <= i < |Project(h, c, s, origin)| && Project(h, c, s, origin)[i] == p;
  }

  lemma UnseenHasNoRow(h: HubState, c: Collection, s: Source, origin: Resolver, link: LinkId)
    requires link in h.items && Seen(c, s, link, h.items[link]).None?
    ensures var rows := Project(h, c, s, origin); Untouched(rows, |rows|, link)
  {
    var rows := Project(h, c, s, origin);
    forall i | 0 <= i < |rows|
      ensures rows[i].link != Some(link)
    {
      assert rows[i] in rows;
      ProjectMembers(h, c, s, origin, rows[i]);
    }
  }

  lemma UnseenHasNoView(c: Collection, s: Source, link: LinkId, item: Item)
    requires Seen(c, s, link, item).None?
    ensures ViewOf(s, link, item) == None
  {
  }

  lemma ItemComesToRest(
      h: HubState, h': HubState, c: Collection, s: Source, origin: Resolver, remote: Remote, link: LinkId)
    requires NoConflict(h) && link in h.items
    requires var rows := Project(h, c, s, origin); RowsOf(h, c, s, rows) && Progress(h, h', s, rows, |rows|, remote)
    ensures AtRest(h.items[link], h'.items[link], s, link)
  {
    hide ViewOf, Served, RowOf, Project, UnconflictedItem, Rests, SameBut;
    var before, after := h.items[link], h'.items[link];
    SeenIsBound(c, s, link, before);
    if Seen(c, s, link, before).Some? {
      var i := SeenIsARow(h, c, s, origin, link);
      var p := Project(h, c, s, origin)[i];
      RowFacts(c, s, link, before, p);
      assert Served(before, after, s, {p.handle, remote.handle(link)});
      ServedRests(before, after, s, {p.handle, remote.handle(link)});
      assert UnconflictedItem(after) by {
        ServedIsUnconflicted(before, after, s, {p.handle, remote.handle(link)});
      }
      forall t
        ensures ViewOf(s, link, after).Some? ==> ViewOf(s, link, after).value.status.Clean?
        ensures t != s ==> ViewOf(t, link, after) == ViewOf(t, link, before)
      {
        ServedViews(before, after, s, t, link, {p.handle, remote.handle(link)});
      }
    } else {
      UnseenHasNoView(c, s, link, before);
      UnseenHasNoRow(h, c, s, origin, link);
      assert after == before;
    }
  }

  lemma ServedIsUnconflicted(before: Item, after: Item, s: Source, handles: set<Handle>)
    requires Served(before, after, s, handles)
    ensures UnconflictedItem(after)
  {
  }

  lemma ProjectIsRows(h: HubState, c: Collection, s: Source, origin: Resolver)
    ensures RowsOf(h, c, s, Project(h, c, s, origin))
  {
    var rows := Project(h, c, s, origin);
    ProjectKeyed(h, c, s, origin);
    forall i | 0 <= i < |rows|
      ensures rows[i].link.value in h.items && RowOf(c, s, rows[i].link.value, h.items[rows[i].link.value], rows[i])
    {
      assert rows[i] in rows;
      ProjectMembers(h, c, s, origin, rows[i]);
    }
  }

  /**
    A source that accepts everything it is shown is shown nothing more to do: its base names
    the flags and the body of every live item it is offered, and it binds no deleted one. Every
    other source sees exactly what it saw, the items hold what they held, and no conflict appears.
  */
  lemma SourceComesToRest(h: HubState, c: Collection, s: Source, origin: Resolver, remote: Remote)
    requires Idle(h) && NoConflict(h) && HandlesApart(h, s, remote)
    ensures var h' := Synced(h, c, s, origin, remote);
      && Idle(h') && NoConflict(h') && AllClean(h', s) && AllRest(h', s) && AllSameBut(h, h', s)
      && forall t :: t != s ==> SameViews(h, h', t)
  {
    hide AbsorbOps, ViewOf, Seen, Project, UnconflictedItem, Rests, SameBut;
    var rows := Project(h, c, s, origin);
    ProjectIsRows(h, c, s, origin);
    assert rows[..|rows|] == rows;
    ServeRows(h, c, s, rows, |rows|, remote);
    var h' := Synced(h, c, s, origin, remote);
    forall l | l in h.items
      ensures AtRest(h.items[l], h'.items[l], s, l)
    {
      ItemComesToRest(h, h', c, s, origin, remote, l);
    }
  }

  // ---------- Every source, in any order ----------

  function SyncedInOrder(
      h: HubState, c: Collection, order: seq<Source>, origin: Resolver, remotes: Source -> Remote): HubState {
    if order == [] then h
    else
      var last := order[|order| - 1];
      Synced(SyncedInOrder(h, c, order[..|order| - 1], origin, remotes), c, last, origin, remotes(last))
  }

  lemma SameViewsKeepHandlesApart(h: HubState, h': HubState, s: Source, remote: Remote)
    requires SameViews(h, h', s) && HandlesApart(h, s, remote)
    ensures HandlesApart(h', s, remote)
  {
    forall l, x
      ensures SeesAt(h', s, l, x) == SeesAt(h, s, l, x)
    {
    }
  }

  /** What one source rests with is no other's to disturb. */
  lemma RestSurvives(h: HubState, h': HubState, s: Source, t: Source)
    requires AllSameBut(h, h', s) && t != s && AllRest(h, t)
    ensures AllRest(h', t)
  {
    forall l | l in h'.items
      ensures Rests(h'.items[l], t)
    {
      assert SameBut(h.items[l], h'.items[l], s) && Rests(h.items[l], t);
    }
  }

  /** The items hold what they held. */
  ghost predicate SameContent(h: HubState, h': HubState) {
    && h'.items.Keys == h.items.Keys
    && forall l :: l in h.items ==>
         && h'.items[l].body == h.items[l].body && h'.items[l].flags == h.items[l].flags
         && h'.items[l].deleted == h.items[l].deleted
  }

  /**
    In whatever order the sources sync, once each has, everything is clean everywhere, and
    each source's base names what the item held all along.
  */
  lemma {:induction false} HubComesToRest(
      h: HubState, c: Collection, order: seq<Source>, origin: Resolver, remotes: Source -> Remote)
    requires Idle(h) && NoConflict(h)
    requires forall i, j :: 0 <= i < j < |order| ==> order[i] != order[j]
    requires forall s :: s in order ==> HandlesApart(h, s, remotes(s))
    ensures var h' := SyncedInOrder(h, c, order, origin, remotes);
      && Idle(h') && NoConflict(h') && SameContent(h, h')
      && (forall s :: s in order ==> AllClean(h', s) && AllRest(h', s))
      && (forall t :: t !in order ==> SameViews(h, h', t))
  {
    hide ViewOf, Rests, UnconflictedItem, HandlesApart, Synced;
    if order != [] {
      var init, last := order[..|order| - 1], order[|order| - 1];
      assert forall s :: s in order <==> s in init || s == last;
      HubComesToRest(h, c, init, origin, remotes);
      var h1 := SyncedInOrder(h, c, init, origin, remotes);
      assert last !in init;
      SameViewsKeepHandlesApart(h, h1, last, remotes(last));
      SourceComesToRest(h1, c, last, origin, remotes(last));
      var h' := SyncedInOrder(h, c, order, origin, remotes);
      forall s | s in init
        ensures AllClean(h', s) && AllRest(h', s)
      {
        assert SameViews(h1, h', s);
        RestSurvives(h1, h', last, s);
      }
      forall t | t !in order
        ensures SameViews(h, h', t)
      {
        assert SameViews(h, h1, t) && SameViews(h1, h', t);
      }
      assert SameContent(h1, h');
    }
  }

  /** So any two sources that synced agree, on the flags and the body the item holds. */
  lemma SyncedSourcesAgree(
      h: HubState, c: Collection, order: seq<Source>, origin: Resolver, remotes: Source -> Remote, s: Source, t: Source,
      link: LinkId)
    requires Idle(h) && NoConflict(h) && s in order && t in order && link in h.items && !h.items[link].deleted
    requires forall i, j :: 0 <= i < j < |order| ==> order[i] != order[j]
    requires forall s :: s in order ==> HandlesApart(h, s, remotes(s))
    ensures var h' := SyncedInOrder(h, c, order, origin, remotes);
      && link in h'.items
      && (Offered(h'.items[link], s) && Offered(h'.items[link], t) ==>
          && s in h'.items[link].sources && t in h'.items[link].sources
          && var a, b := h'.items[link].sources[s].base, h'.items[link].sources[t].base;
             && a.Some? && b.Some? && a.value.flags == b.value.flags == h.items[link].flags
             && (h.items[link].body.Some? ==> a.value.body == b.value.body == h.items[link].body))
  {
    hide HandlesApart, SyncedInOrder, UnconflictedItem;
    HubComesToRest(h, c, order, origin, remotes);
    assert Rests(SyncedInOrder(h, c, order, origin, remotes).items[link], s);
    assert Rests(SyncedInOrder(h, c, order, origin, remotes).items[link], t);
  }
}
