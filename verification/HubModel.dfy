/**
  What the shared hub holds and what one write does to it. The class in Hub.dfy carries the
  same operations out in place and is proved against these functions.
*/
module HubModel {
  import opened Wrappers
  import opened Text
  import opened Entities
  import opened Keys

  /** One source's binding of a shared item. */
  datatype Binding = Binding(
    handle: Handle,
    base: Option<Base>,
    conflicted: bool,
    conflictRevision: Option<Revision>,
    conflictBody: Option<Hash>,
    sharedBody: Option<Hash>)

  datatype Policy = Manual | PreferIncoming | PreferExisting

  /** A logical item shared across sources. */
  datatype Item = Item(
    flags: Flags,
    body: Option<Hash>,
    summary: Option<Summary>,
    sortKey: SortKey,
    level: Level,
    deleted: bool,
    conflicted: bool,
    conflictBody: Option<Hash>,
    sources: map<Source, Binding>)
  {
    /** The level the item can claim: `Full` only with a stored body. */
    function StoredLevel(): Level {
      if body.Some? then level else Meta
    }
  }

  /** A body a policy did not adopt, for the storage to keep beside the item it lost to. */
  datatype Overruled = Overruled(
    source: Source,
    handle: Handle,
    link: LinkId,
    body: Hash,
    flags: Flags,
    summary: Option<Summary>,
    sortKey: SortKey)

  /**
    The hub. The last three fields live within one batch, which is one source's: a licensed
    drop's binding is set aside in `rebinding` under its link, the source being the batch's.
  */
  datatype HubState = HubState(
    items: map<LinkId, Item>,
    policy: Policy,
    overruled: seq<Overruled>,
    diverged: seq<Handle>,
    unsummarized: seq<LinkId>,
    rebinding: map<LinkId, Binding>,
    overruling: set<Handle>,
    settling: set<Handle>)

  /** No batch is under way. */
  predicate Idle(h: HubState) {
    h.rebinding == map[] && h.overruling == {} && h.settling == {}
  }

  // ---------- Projection ----------

  function ItemProjection(c: Collection, link: LinkId, item: Item, handle: Handle): Placement {
    Placement(c, handle, Some(link), item.body, item.StoredLevel(), item.summary, item.sortKey,
              item.flags, Clean, None, None, None, None)
  }

  predicate InSync(item: Item, base: Base) {
    base.flags == item.flags && (item.body.None? || base.body == item.body)
  }

  function BoundStatus(item: Item, binding: Binding): Status {
    if binding.conflicted || item.conflicted then Conflict
    else if binding.base.None? then Created
    else if InSync(item, binding.base.value) then Clean
    else Dirty
  }

  function BoundPlacement(c: Collection, link: LinkId, item: Item, binding: Binding, status: Status): Placement {
    ItemProjection(c, link, item, binding.handle).(
      status := status,
      base := binding.base,
      conflictRevision := binding.conflictRevision,
      conflictBody := binding.conflictBody)
  }

  /** What `source` sees of one item, before the store's origin is resolved. */
  function Seen(c: Collection, s: Source, link: LinkId, item: Item): Option<Placement> {
    if item.sources == map[] then None
    else if s in item.sources then
      var status := if item.deleted then Tombstone else BoundStatus(item, item.sources[s]);
      Some(BoundPlacement(c, link, item, item.sources[s], status))
    else if !item.deleted && item.body.Some? then
      Some(ItemProjection(c, link, item, Provisional(link)).(status := Created, level := Full))
    else None
  }

  type Resolver = Placement -> Option<Origin>

  function Resolved(origin: Resolver, p: Placement): Placement {
    if p.status.Created? || p.status.Tombstone? then p.(origin := origin(p)) else p
  }

  function ProjectLinks(h: HubState, c: Collection, s: Source, origin: Resolver, links: seq<LinkId>): seq<Placement>
    requires forall l :: l in links ==> l in h.items
  {
    if links == [] then []
    else
      var last := links[|links| - 1];
      var seen := Seen(c, s, last, h.items[last]);
      ProjectLinks(h, c, s, origin, links[..|links| - 1]) +
      if seen.Some? then [Resolved(origin, seen.value)] else []
  }

  /** The placements `source` loads, in key order. */
  function Project(h: HubState, c: Collection, s: Source, origin: Resolver): seq<Placement> {
    ProjectLinks(h, c, s, origin, Ascending(h.items.Keys))
  }

  /** The item conflicts a load reports beside its placements. */
  function ConflictedRows(h: HubState, rows: seq<Placement>): seq<(Handle, Option<Hash>)> {
    if rows == [] then []
    else
      var p := rows[0];
      (if p.link.Some? && p.link.value in h.items && h.items[p.link.value].conflicted
       then [(p.handle, h.items[p.link.value].conflictBody)] else [])
      + ConflictedRows(h, rows[1..])
  }

  // ---------- The cross-source merge ----------

  datatype LoserSide = SharedSide | IncomingSide | DivergingSide

  datatype Loser = Loser(body: Hash, side: LoserSide)

  datatype Verdict = Verdict(diverged: bool, keptShared: bool, lost: Option<Loser>, unsummarized: bool)

  const NOTHING := Verdict(false, false, None, false)

  function Lost(body: Option<Hash>, side: LoserSide): Option<Loser> {
    if body.Some? then Some(Loser(body.value, side)) else None
  }

  function BaseOf(item: Item, s: Source): Option<Base> {
    if s in item.sources then item.sources[s].base else None
  }

  /** The body the source's binding last synced. */
  function SyncedBody(item: Item, s: Source): Option<Hash> {
    var base := BaseOf(item, s);
    if base.Some? then base.value.body else None
  }

  /** The shared body the source last agreed with, the synced one standing in. */
  function AgreedBody(item: Item, s: Source): Option<Hash> {
    if s in item.sources then Or(item.sources[s].sharedBody, SyncedBody(item, s)) else None
  }

  function RevisionOf(base: Option<Base>): Option<Option<Revision>> {
    if base.Some? then Some(base.value.revision) else None
  }

  predicate Revised(base: Option<Base>) {
    base.Some? && base.value.revision.Some?
  }

  /** Mutable content is marked by a revision on any base, held or incoming. */
  predicate Mutable(item: Item, p: Placement) {
    Revised(p.base) || exists t | t in item.sources :: Revised(item.sources[t].base)
  }

  /** The source leaves a conflict of its own, whatever body it restates. */
  predicate Resolving(item: Item, s: Source, p: Placement) {
    s in item.sources && item.sources[s].conflicted && !p.status.Conflict?
  }

  predicate SourceEdited(item: Item, s: Source, p: Placement) {
    p.body != SyncedBody(item, s) || Resolving(item, s, p)
  }

  predicate HubMoved(item: Item, s: Source) {
    item.body != AgreedBody(item, s)
  }

  /** A body filling an item a pull emptied, from a binding whose base names none. */
  predicate Fills(item: Item, s: Source, p: Placement) {
    p.body.Some? && item.body.None? && SyncedBody(item, s).None?
  }

  predicate Diverges(item: Item, s: Source, p: Placement) {
    !Fills(item, s, p) && SourceEdited(item, s, p) && HubMoved(item, s) && p.body != item.body
  }

  function Adopt(item: Item, body: Option<Hash>): Item {
    item.(body := body, conflicted := false, conflictBody := None)
  }

  function Fill(item: Item, body: Hash, policy: Policy): (Item, Verdict) {
    if !item.conflicted || item.conflictBody.None? || policy.Manual? then
      (item.(body := Some(body)), NOTHING)
    else if policy.PreferIncoming? then
      (Adopt(item, item.conflictBody), Verdict(false, true, Some(Loser(body, IncomingSide)), true))
    else
      (Adopt(item, Some(body)), NOTHING.(lost := Lost(item.conflictBody, DivergingSide)))
  }

  function Diverge(item: Item, body: Option<Hash>, policy: Policy): (Item, Verdict) {
    if body.None? || item.body.None? || policy.Manual? then
      (item.(conflicted := true, conflictBody := body), Verdict(true, true, None, false))
    else if policy.PreferIncoming? then
      (Adopt(item, body), NOTHING.(lost := Lost(item.body, SharedSide)))
    else
      (Adopt(item, item.body), NOTHING.(lost := Lost(body, IncomingSide), keptShared := true))
  }

  /** A pull that drops a local edit its remote never saw. */
  predicate DropsEdit(item: Item, s: Source, p: Placement) {
    RevisionOf(p.base) != RevisionOf(BaseOf(item, s)) && !Resolving(item, s, p) && item.body != SyncedBody(item, s)
  }

  function Reconcile(item: Item, s: Source, p: Placement, policy: Policy): (Item, Verdict) {
    var takes := SourceEdited(item, s, p) && p.body != item.body;
    if !Mutable(item, p) then
      (if takes then Adopt(item, p.body) else item, NOTHING)
    else if Fills(item, s, p) then Fill(item, p.body.value, policy)
    else if Diverges(item, s, p) then Diverge(item, p.body, policy)
    else if takes then
      (Adopt(item, p.body),
       NOTHING.(lost := if DropsEdit(item, s, p) then Lost(item.body, SharedSide) else None))
    else (item, NOTHING)
  }

  // ---------- One upsert ----------

  function NewItem(p: Placement): Item {
    Item(p.flags, p.body, p.summary, p.sortKey, p.level, false, false, None, map[])
  }

  /** The item an upsert meets: the stored one or a new one, the released binding back on it. */
  function Met(items: map<LinkId, Item>, rebinding: map<LinkId, Binding>, s: Source, link: LinkId, p: Placement): Item {
    var item := if link in items then items[link] else NewItem(p);
    if link in rebinding && s !in item.sources
    then item.(sources := item.sources[s := rebinding[link]])
    else item
  }

  function BindingOf(p: Placement, shared: Option<Hash>): Binding {
    Binding(p.handle, p.base, p.conflictRevision.Some?, p.conflictRevision,
            if p.conflictRevision.Some? then p.conflictBody else None, shared)
  }

  function SharedBodyOf(item: Item, s: Source): Option<Hash> {
    if s in item.sources then item.sources[s].sharedBody else None
  }

  function WithFlags(item: Item, flags: Flags): Item {
    if flags.Unknown? then item else item.(flags := flags)
  }

  /** A tombstone keeps its binding, adopts no content and settles the item's conflict. */
  function Buried(item: Item, s: Source, p: Placement): Item {
    var shared := SharedBodyOf(item, s);
    WithFlags(item, p.flags).(
      deleted := true, conflicted := false, conflictBody := None,
      sources := item.sources[s := BindingOf(p, shared)])
  }

  /** The item with the upsert's flags, summary and sort key, its body not yet decided. */
  function Restated(item: Item, p: Placement): Item {
    var flagged := WithFlags(item, p.flags).(deleted := false);
    flagged.(
      summary := if p.summary.Some? then Some(p.summary.value.Stored()) else item.summary,
      sortKey := if p.sortKey == "" then item.sortKey else p.sortKey)
  }

  /** The merge, unless a person's edit settles the item's conflict outright. */
  function Decide(item: Item, s: Source, p: Placement, policy: Policy, settling: bool): (Item, Verdict) {
    if settling && item.conflicted && p.body.Some? then (Adopt(item, p.body), NOTHING)
    else Reconcile(item, s, p, policy)
  }

  /** An overruling edit restating the shared body settles the item's conflict. */
  function Overruling(item: Item, p: Placement, overruling: bool): Item {
    if overruling && item.conflicted && p.body.Some? && p.body == item.body
    then item.(conflicted := false, conflictBody := None)
    else item
  }

  /** Summary, sort key and level follow the body the item ended with. */
  function Described(item: Item, held: Item, p: Placement, keptShared: bool): Item {
    var kept := if keptShared then item.(summary := held.summary, sortKey := held.sortKey) else item;
    var level := if held.body.Some? && item.body.None? then p.level else MaxLevel(item.level, p.level);
    kept.(level := if item.body.Some? then level else Meta)
  }

  /** The binding a live upsert leaves: it agrees on a body the item settled on, and no other. */
  function LiveBinding(item: Item, s: Source, p: Placement): Binding {
    var shared := if p.body.Some? && !item.conflicted then item.body else SharedBodyOf(item, s);
    var binding := BindingOf(p, shared);
    if p.base.Some? && p.base.value.revision.None? && p.base.value.body.Some? && item.body.Some?
    then binding.(base := Some(p.base.value.(body := item.body)))
    else binding
  }

  /** The body, conflict and description a live upsert leaves, before its binding. */
  function Settled(
      met: Item, s: Source, p: Placement, policy: Policy, overruling: bool, settling: bool): (Item, Verdict) {
    var (decided, verdict) := Decide(Restated(met, p), s, p, policy, settling);
    (Described(Overruling(decided, p, overruling), met, p, verdict.keptShared), verdict)
  }

  function Bind(item: Item, s: Source, binding: Binding): Item {
    item.(sources := item.sources[s := binding])
  }

  /** What the storage keeps of a body that lost, described as its own side described it. */
  function LostEntry(
      flags: Flags, summary: Option<Summary>, sortKey: SortKey, s: Source, link: LinkId, p: Placement, lost: Loser)
      : Overruled {
    match lost.side
    case SharedSide => Overruled(s, p.handle, link, lost.body, flags, summary, sortKey)
    case IncomingSide =>
      var stored := if p.summary.Some? then Some(p.summary.value.Stored()) else None;
      Overruled(s, p.handle, link, lost.body, flags, stored, p.sortKey)
    case DivergingSide => Overruled(s, p.handle, link, lost.body, flags, None, sortKey)
  }

  /** The diverging bodies an overruling edit does not adopt: the binding's, then the item's. */
  function KeptBodies(item: Item, s: Source, p: Placement): seq<Hash> {
    var own := if s in item.sources && item.sources[s].conflicted then item.sources[s].conflictBody else None;
    var shared := if item.conflicted then item.conflictBody else None;
    (if own.Some? && own != p.body then [own.value] else []) +
    (if shared.Some? && shared != p.body && shared != own then [shared.value] else [])
  }

  function KeptEntry(item: Item, s: Source, link: LinkId, p: Placement, body: Hash): Overruled {
    Overruled(s, p.handle, link, body, item.flags, None, item.sortKey)
  }

  function KeptEntries(items: map<LinkId, Item>, s: Source, link: LinkId, p: Placement): seq<Overruled> {
    if link !in items then []
    else
      var bodies := KeptBodies(items[link], s, p);
      seq(|bodies|, i requires 0 <= i < |bodies| => KeptEntry(items[link], s, link, p, bodies[i]))
  }

  /** The batch-scoped records one upsert consumes, and the bodies its overrule keeps. */
  function Consumed(h: HubState, s: Source, link: LinkId, p: Placement): HubState {
    h.(rebinding := h.rebinding - {link},
       overruling := h.overruling - {p.handle},
       settling := h.settling - {p.handle},
       overruled := h.overruled + if p.handle in h.overruling then KeptEntries(h.items, s, link, p) else [])
  }

  function AbsorbUpsert(h: HubState, s: Source, p: Placement): HubState {
    if p.link.None? then h
    else
      var link := p.link.value;
      var met := Met(h.items, h.rebinding, s, link, p);
      var consumed := Consumed(h, s, link, p);
      if p.status.Tombstone? then
        consumed.(items := h.items[link := Buried(met, s, p)])
      else
        var (after, verdict) := Settled(met, s, p, h.policy, p.handle in h.overruling, p.handle in h.settling);
        consumed.(
          items := h.items[link := Bind(after, s, LiveBinding(after, s, p))],
          overruled := consumed.overruled +
            if verdict.lost.Some?
            then [LostEntry(after.flags, met.summary, met.sortKey, s, link, p, verdict.lost.value)]
            else [],
          diverged := h.diverged + if verdict.diverged then [p.handle] else [],
          unsummarized := h.unsummarized + if verdict.unsummarized then [link] else [])
  }

  // ---------- One drop, one batch ----------

  predicate BoundAt(item: Item, s: Source, handle: Handle) {
    s in item.sources && item.sources[s].handle == handle
  }

  function Unbound(item: Item, s: Source, reason: DropReason): Item {
    item.(deleted := item.deleted || reason.Deleted?, sources := item.sources - {s})
  }

  /** Every other source binds the item as before. */
  ghost predicate SameOthers(before: Item, after: Item, s: Source) {
    forall t :: t != s ==> (t in after.sources <==> t in before.sources) &&
                           (t in before.sources ==> after.sources[t] == before.sources[t])
  }

  /** The bindings a drop of `handle` takes off the items. */
  function Released(items: map<LinkId, Item>, s: Source, handle: Handle): map<LinkId, Binding> {
    map l | l in items && BoundAt(items[l], s, handle) :: items[l].sources[s]
  }

  function Dropped(item: Item, s: Source, handle: Handle, reason: DropReason): Item {
    if BoundAt(item, s, handle) then Unbound(item, s, reason) else item
  }

  /** The items with the drop done on all but `pending`. */
  function Unbinding(
      items: map<LinkId, Item>, pending: set<LinkId>, s: Source, handle: Handle, reason: DropReason)
      : map<LinkId, Item> {
    map l | l in items :: if l in pending then items[l] else Dropped(items[l], s, handle, reason)
  }

  /** What a drop done on all but `pending` has set aside. */
  function SetAside(
      items: map<LinkId, Item>, pending: set<LinkId>, rebinding: map<LinkId, Binding>, s: Source, handle: Handle,
      reason: DropReason): map<LinkId, Binding> {
    if reason.Deleted? then rebinding else rebinding + Released(items - pending, s, handle)
  }

  lemma OneMoreUnbound(
      items: map<LinkId, Item>, pending: set<LinkId>, s: Source, handle: Handle, reason: DropReason, link: LinkId)
    requires link in pending && pending <= items.Keys
    ensures link in Unbinding(items, pending, s, handle, reason)
    ensures Unbinding(items, pending, s, handle, reason)[link] == items[link]
    ensures Unbinding(items, pending - {link}, s, handle, reason) ==
            Unbinding(items, pending, s, handle, reason)[link := Dropped(items[link], s, handle, reason)]
  {
  }

  lemma OneMoreReleased(items: map<LinkId, Item>, s: Source, handle: Handle, link: LinkId, item: Item)
    requires link !in items
    ensures Released(items[link := item], s, handle) ==
      if BoundAt(item, s, handle) then Released(items, s, handle)[link := item.sources[s]]
      else Released(items, s, handle)
  {
  }

  lemma OneMoreSetAside(
      items: map<LinkId, Item>, pending: set<LinkId>, rebinding: map<LinkId, Binding>, s: Source, handle: Handle,
      reason: DropReason, link: LinkId)
    requires link in pending && pending <= items.Keys
    ensures SetAside(items, pending - {link}, rebinding, s, handle, reason) ==
            if reason.Deleted? || !BoundAt(items[link], s, handle) then
              SetAside(items, pending, rebinding, s, handle, reason)
            else SetAside(items, pending, rebinding, s, handle, reason)[link := items[link].sources[s]]
  {
    hide Released, BoundAt;
    if !reason.Deleted? {
      var more, less := items - (pending - {link}), items - pending;
      assert more == less[link := items[link]];
      OneMoreReleased(less, s, handle, link, items[link]);
    }
  }

  lemma NothingUnbound(
      items: map<LinkId, Item>, rebinding: map<LinkId, Binding>, s: Source, handle: Handle, reason: DropReason)
    ensures Unbinding(items, items.Keys, s, handle, reason) == items
    ensures SetAside(items, items.Keys, rebinding, s, handle, reason) == rebinding
  {
  }

  /** Unbinds the source wherever it holds `handle`, a licensed drop setting the binding aside. */
  function AbsorbDrop(h: HubState, s: Source, handle: Handle, reason: DropReason): HubState {
    h.(items := Unbinding(h.items, {}, s, handle, reason),
       rebinding := SetAside(h.items, {}, h.rebinding, s, handle, reason))
  }

  function AbsorbOp(h: HubState, s: Source, op: WriteOp): HubState {
    match op
    case Upsert(p) => AbsorbUpsert(h, s, p)
    case Drop(_, handle, reason) => AbsorbDrop(h, s, handle, reason)
    case Overrule(_, handle) => h.(overruling := h.overruling + {handle})
    case Settle(_, handle) => h.(settling := h.settling + {handle})
    case _ => h
  }

  function AbsorbOps(h: HubState, s: Source, ops: seq<WriteOp>): HubState {
    if ops == [] then h
    else AbsorbOp(AbsorbOps(h, s, ops[..|ops| - 1]), s, ops[|ops| - 1])
  }

  function Ended(h: HubState): HubState {
    h.(rebinding := map[], overruling := {}, settling := {})
  }

  function Absorb(h: HubState, s: Source, ops: seq<WriteOp>): HubState {
    Ended(AbsorbOps(h, s, ops))
  }

  // ---------- Reading a projection ----------

  lemma {:induction false} ProjectLinksMembers(
      h: HubState, c: Collection, s: Source, origin: Resolver, links: seq<LinkId>, p: Placement)
    requires forall l :: l in links ==> l in h.items
    ensures p in ProjectLinks(h, c, s, origin, links) <==>
            p.link.Some? && p.link.value in links &&
            Seen(c, s, p.link.value, h.items[p.link.value]).Some? &&
            p == Resolved(origin, Seen(c, s, p.link.value, h.items[p.link.value]).value)
  {
    if links != [] {
      var init := links[..|links| - 1];
      assert links == init + [links[|links| - 1]];
      ProjectLinksMembers(h, c, s, origin, init, p);
    }
  }

  /** A projection holds exactly what its source sees of each item. */
  lemma ProjectMembers(h: HubState, c: Collection, s: Source, origin: Resolver, p: Placement)
    ensures p in Project(h, c, s, origin) <==>
            p.link.Some? && p.link.value in h.items &&
            Seen(c, s, p.link.value, h.items[p.link.value]).Some? &&
            p == Resolved(origin, Seen(c, s, p.link.value, h.items[p.link.value]).value)
  {
    ProjectLinksMembers(h, c, s, origin, Ascending(h.items.Keys), p);
  }

  /** Rows name their items and each item once. */
  ghost predicate KeyedRows(rows: seq<Placement>) {
    && (forall i :: 0 <= i < |rows| ==> rows[i].link.Some?)
    && (forall i, j :: 0 <= i < j < |rows| ==> rows[i].link != rows[j].link)
  }

  lemma {:induction false} ProjectLinksKeyed(
      h: HubState, c: Collection, s: Source, origin: Resolver, links: seq<LinkId>)
    requires forall l :: l in links ==> l in h.items
    requires forall i, j :: 0 <= i < j < |links| ==> links[i] != links[j]
    ensures KeyedRows(ProjectLinks(h, c, s, origin, links))
  {
    if links != [] {
      var init := links[..|links| - 1];
      ProjectLinksKeyed(h, c, s, origin, init);
      var rows := ProjectLinks(h, c, s, origin, init);
      forall i | 0 <= i < |rows|
        ensures rows[i].link != Some(links[|links| - 1])
      {
        assert rows[i] in rows;
        ProjectLinksMembers(h, c, s, origin, init, rows[i]);
      }
    }
  }

  lemma ProjectKeyed(h: HubState, c: Collection, s: Source, origin: Resolver)
    ensures KeyedRows(Project(h, c, s, origin))
  {
    DistinctWhenAscending(Ascending(h.items.Keys));
    ProjectLinksKeyed(h, c, s, origin, Ascending(h.items.Keys));
  }

  // ---------- Batches ----------

  lemma {:induction false} AbsorbOpsConcat(h: HubState, s: Source, a: seq<WriteOp>, b: seq<WriteOp>)
    ensures AbsorbOps(h, s, a + b) == AbsorbOps(AbsorbOps(h, s, a), s, b)
    decreases |b|
  {
    if b == [] {
      assert a + b == a;
    } else {
      var init := b[..|b| - 1];
      assert (a + b)[..|a + b| - 1] == a + init;
      AbsorbOpsConcat(h, s, a, init);
    }
  }

  lemma AbsorbNone(h: HubState, s: Source)
    ensures AbsorbOps(h, s, []) == h
  {
  }

  lemma AbsorbOne(h: HubState, s: Source, op: WriteOp)
    ensures AbsorbOps(h, s, [op]) == AbsorbOp(h, s, op)
  {
    assert [op][..0] == [];
  }

  lemma AbsorbTwo(h: HubState, s: Source, first: WriteOp, second: WriteOp)
    ensures AbsorbOps(h, s, [first, second]) == AbsorbOp(AbsorbOp(h, s, first), s, second)
  {
    AbsorbOne(h, s, first);
    assert [first, second][..1] == [first];
  }

  /** What a live upsert writes: one item, and what the merge decided of it. */
  lemma LiveUpsert(h: HubState, s: Source, p: Placement)
    requires p.link.Some? && !p.status.Tombstone?
    ensures var link, h' := p.link.value, AbsorbUpsert(h, s, p);
      var met := Met(h.items, h.rebinding, s, link, p);
      var (after, verdict) := Settled(met, s, p, h.policy, p.handle in h.overruling, p.handle in h.settling);
      && h'.items == h.items[link := Bind(after, s, LiveBinding(after, s, p))]
      && h'.rebinding == h.rebinding - {link}
      && h'.diverged == h.diverged + (if verdict.diverged then [p.handle] else [])
      && h'.policy == h.policy
  {
    hide Settled, Met, LiveBinding, LostEntry, KeptEntries;
  }
}
