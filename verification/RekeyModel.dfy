/** A rebuild onto a new handle space: which old row each listed member carries, and the batch. */
module RekeyModel {
  import opened Wrappers
  import opened Text
  import opened Entities
  import opened Keys
  import opened FlagMerge

  /** What a member's meta resolved for its handle. */
  datatype Reading = Reading(link: LinkId, summary: Option<Summary>, sortKey: SortKey, revision: Option<Revision>)

  type ByLink = map<LinkId, Placement>

  /** Each row is found under the link it carries. */
  predicate Keyed(byLink: ByLink) {
    forall k | k in byLink :: byLink[k].link == Some(k)
  }

  function HandleOf(p: Placement): Handle {
    p.handle
  }

  function MemberHandle(item: RemoteItem): Handle {
    item.handle
  }

  // ---------- The key a member takes ----------

  predicate IsCopy(hint: LinkId, row: Placement) {
    row.link == Some(hint) || row.link == Some(Minted(hint, row.handle))
  }

  lemma EveryRowOnce(byLink: ByLink, links: seq<LinkId>, rows: seq<Placement>)
    requires |rows| == |links| && forall k :: k in byLink <==> k in links
    requires forall i :: 0 <= i < |links| ==> rows[i] == byLink[links[i]]
    ensures forall p :: p in rows ==> exists k :: k in byLink && byLink[k] == p
    ensures forall k :: k in byLink ==> byLink[k] in rows
  {
    forall k | k in byLink
      ensures byLink[k] in rows
    {
      var i :| 0 <= i < |links| && links[i] == k;
      assert rows[i] == byLink[k];
    }
  }

  function Rows(byLink: ByLink): (rows: seq<Placement>)
    ensures forall p :: p in rows ==> exists k :: k in byLink && byLink[k] == p
    ensures forall k :: k in byLink ==> byLink[k] in rows
  {
    var links := Ascending(byLink.Keys);
    var rows := seq(|links|, i requires 0 <= i < |links| => byLink[links[i]]);
    EveryRowOnce(byLink, links, rows);
    rows
  }

  function Copies(hint: LinkId, byLink: ByLink): seq<Placement> {
    Filter((p: Placement) => IsCopy(hint, p), Rows(byLink))
  }

  /** The unclaimed copies of `hint`, in handle order. */
  function Unclaimed(hint: LinkId, claimed: set<LinkId>, byLink: ByLink): seq<Placement> {
    SortBy(HandleOf, Filter((p: Placement) => p.link.Some? && p.link.value !in claimed, Copies(hint, byLink)))
  }

  function AtRevision(revision: Option<Revision>, pool: seq<Placement>): seq<Placement> {
    if revision.None? then [] else Filter((p: Placement) => p.BaseRevision() == revision, pool)
  }

  function WithBody(body: Option<Hash>, pool: seq<Placement>): seq<Placement> {
    if body.None? then [] else Filter((p: Placement) => p.BaseBody() == body || p.body == body, pool)
  }

  function MintedCopies(hint: LinkId, byLink: ByLink): seq<Placement> {
    SortBy(HandleOf, Filter((p: Placement) => p.link != Some(hint), Copies(hint, byLink)))
  }

  /** The old copy the member's revision, then its body, tells apart from the others. */
  function Recognised(revision: Option<Revision>, body: Option<Hash>, unclaimed: seq<Placement>): Option<Placement> {
    var byRevision := AtRevision(revision, unclaimed);
    var byBody := WithBody(body, if byRevision == [] then unclaimed else byRevision);
    if byBody != [] then Some(byBody[0])
    else if byRevision != [] then Some(byRevision[0])
    else None
  }

  function KeyOf(
      hint: LinkId, handle: Handle, revision: Option<Revision>, body: Option<Hash>, claimed: set<LinkId>,
      byLink: ByLink): LinkId {
    var recognised := Recognised(revision, body, Unclaimed(hint, claimed, byLink));
    var minted := MintedCopies(hint, byLink);
    if recognised.Some? && recognised.value.link.Some? then recognised.value.link.value
    else if hint !in claimed then hint
    else if minted != [] && minted[0].link.Some? then minted[0].link.value
    else Claim(hint, handle, claimed + byLink.Keys)
  }

  // ---------- Carrying a row, pulling a member fresh ----------

  function Observed(item: RemoteItem, reading: Option<Reading>): Option<Revision> {
    Or(item.revision, if reading.Some? then reading.value.revision else None)
  }

  function ReadSummary(reading: Option<Reading>): Option<Summary> {
    if reading.Some? then reading.value.summary else None
  }

  /** Whether the member changed on the remote while the handles did. */
  predicate RemoteEdited(row: Placement, item: RemoteItem, reading: Option<Reading>) {
    Observed(item, reading).Some? && Observed(item, reading) != row.BaseRevision()
  }

  /** The row on its new handle, its base the one it held, before its status is decided. */
  function Moved(c: Collection, row: Placement, item: RemoteItem, reading: Option<Reading>): Placement {
    var baseFlags := if row.base.Some? then row.base.value.flags else NO_FLAGS;
    Placement(c, item.handle, row.link, row.body, row.level,
              WithoutBody(row.summary, ReadSummary(reading), row.body.Some? && !RemoteEdited(row, item, reading)),
              if reading.Some? then reading.value.sortKey else row.sortKey,
              Merge(baseFlags, row.flags, item.flags), Clean, None, None,
              Some(Base(item.flags, row.BaseRevision(), row.BaseBody())), row.origin)
  }

  /** The pull a sync would make: the body dropped, the base at the observed revision. */
  function Pulled(moved: Placement, observed: Option<Revision>): Placement
    requires moved.base.Some?
  {
    moved.(body := None, level := Meta, base := Some(moved.base.value.(revision := observed, body := None)))
  }

  function FlagStatus(moved: Placement, item: RemoteItem): Status {
    if moved.flags != item.flags then Dirty else Clean
  }

  function Carry(c: Collection, row: Placement, item: RemoteItem, reading: Option<Reading>): Placement {
    var moved := Moved(c, row, item, reading);
    var observed := Observed(item, reading);
    var edited := RemoteEdited(row, item, reading);
    match row.status
    case Conflict =>
      var revision := if row.conflictRevision.Some? || edited then observed else None;
      moved.(status := Conflict, conflictRevision := revision,
             conflictBody := if revision == row.conflictRevision then row.conflictBody else None)
    case Tombstone =>
      if edited then Pulled(moved, observed).(flags := item.flags, origin := None)
      else moved.(status := Tombstone)
    case _ =>
      if edited && row.StagedEdit() then moved.(status := Conflict, conflictRevision := observed)
      else if edited then Pulled(moved, observed).(status := FlagStatus(moved, item))
      else if row.StagedEdit() && row.status.Dirty? then moved.(status := Dirty)
      else moved.(status := FlagStatus(moved, item))
  }

  function Fresh(c: Collection, item: RemoteItem, reading: Option<Reading>, key: Option<LinkId>): Placement {
    Placement(c, item.handle, key, None, Meta, ReadSummary(reading),
              if reading.Some? then reading.value.sortKey else "", item.flags, Clean, None, None,
              Some(Base(item.flags, item.revision, None)), None)
  }

  // ---------- The walk over the listing ----------

  /** One listed member, the old row it carries if any, and the upsert it becomes. */
  datatype Entry = Entry(member: RemoteItem, row: Option<Placement>, upsert: Placement)

  datatype Walk = Walk(claimed: set<LinkId>, byLink: ByLink, entries: seq<Entry>)

  function ReadingOf(readings: map<Handle, Reading>, handle: Handle): Option<Reading> {
    if handle in readings then Some(readings[handle]) else None
  }

  function MemberKey(w: Walk, item: RemoteItem, reading: Reading): LinkId {
    KeyOf(reading.link, item.handle, Or(item.revision, reading.revision), item.body, w.claimed, w.byLink)
  }

  function WalkStep(c: Collection, readings: map<Handle, Reading>, w: Walk, item: RemoteItem): Walk {
    var reading := ReadingOf(readings, item.handle);
    if reading.None? then
      w.(entries := w.entries + [Entry(item, None, Fresh(c, item, None, None))])
    else
      var key := MemberKey(w, item, reading.value);
      var row := if key in w.byLink then Some(w.byLink[key]) else None;
      var upsert := if row.Some? then Carry(c, row.value, item, reading) else Fresh(c, item, reading, Some(key));
      Walk(w.claimed + {key}, w.byLink - {key}, w.entries + [Entry(item, row, upsert)])
  }

  function WalkAll(c: Collection, readings: map<Handle, Reading>, w: Walk, items: seq<RemoteItem>): Walk {
    if items == [] then w
    else WalkStep(c, readings, WalkAll(c, readings, w, items[..|items| - 1]), items[|items| - 1])
  }

  function RowsByLink(rows: seq<Placement>): ByLink {
    if rows == [] then map[]
    else
      var last := rows[|rows| - 1];
      var m := RowsByLink(rows[..|rows| - 1]);
      if last.link.Some? then m[last.link.value := last] else m
  }

  function LinksOf(rows: seq<Placement>): set<LinkId> {
    set p | p in rows && p.link.Some? :: p.link.value
  }

  predicate IsStaged(p: Placement) {
    p.status.Created?
  }

  predicate IsSpine(p: Placement) {
    !p.status.Created?
  }

  /** The members in handle order, each handle once. */
  function Members(listed: seq<RemoteItem>): seq<RemoteItem> {
    DedupBy(MemberHandle, SortBy(MemberHandle, listed))
  }

  function Walked(c: Collection, rows: seq<Placement>, listed: seq<RemoteItem>, readings: map<Handle, Reading>): Walk {
    var spine := Filter(IsSpine, rows);
    WalkAll(c, readings, Walk(LinksOf(Filter(IsStaged, rows)), RowsByLink(spine), []), Members(listed))
  }

  // ---------- What is left of the old spine ----------

  predicate Edited(p: Placement) {
    (p.status.Dirty? || p.status.Conflict?) && p.StagedEdit()
  }

  /** A staged edit whose item found no new home survives as a pending create. */
  function Restaged(p: Placement): Placement {
    p.(handle := if p.link.Some? then Provisional(p.link.value) else p.handle,
       status := Created, conflictRevision := None, conflictBody := None, base := None, origin := None)
  }

  /** The handles carried, the ones among them restaged, and the rows restaged. */
  datatype Left = Left(carried: set<Handle>, moved: set<Handle>, rows: seq<Placement>)

  function LeftStep(left: Left, p: Placement): Left {
    if p.handle in left.carried || !Edited(p) then left
    else Left(left.carried + {p.handle},
              if p.link.Some? then left.moved + {p.handle} else left.moved,
              left.rows + [p])
  }

  function LeftAll(left: Left, spine: seq<Placement>): Left {
    if spine == [] then left else LeftStep(LeftAll(left, spine[..|spine| - 1]), spine[|spine| - 1])
  }

  function CarriedHandles(entries: seq<Entry>): set<Handle> {
    set e | e in entries && e.row.Some? :: e.row.value.handle
  }

  function InPlace(entries: seq<Entry>): set<Handle> {
    set e | e in entries && e.row.Some? && e.row.value.handle == e.member.handle :: e.row.value.handle
  }

  function ReasonOf(left: Left, handle: Handle): DropReason {
    if handle in left.moved then Superseded else if handle in left.carried then Rekeyed else Deleted
  }

  function DropsOf(c: Collection, left: Left, inPlace: set<Handle>, spine: seq<Placement>): seq<WriteOp> {
    if spine == [] then []
    else
      var init, p := DropsOf(c, left, inPlace, spine[..|spine| - 1]), spine[|spine| - 1];
      if p.handle in inPlace && p.handle !in left.moved then init
      else init + [Drop(c, p.handle, ReasonOf(left, p.handle))]
  }

  function CarriedCount(entries: seq<Entry>): (n: nat)
    ensures n <= |entries|
  {
    if entries == [] then 0
    else CarriedCount(entries[..|entries| - 1]) + if entries[|entries| - 1].row.Some? then 1 else 0
  }

  function EntryUpserts(entries: seq<Entry>): (r: seq<Placement>)
    ensures |r| == |entries| && forall i :: 0 <= i < |r| ==> r[i] == entries[i].upsert
  {
    seq(|entries|, i requires 0 <= i < |entries| => entries[i].upsert)
  }

  function RestagedRows(rows: seq<Placement>): (r: seq<Placement>)
    ensures |r| == |rows| && forall i :: 0 <= i < |r| ==> r[i] == Restaged(rows[i])
  {
    seq(|rows|, i requires 0 <= i < |rows| => Restaged(rows[i]))
  }

  datatype Rebuilt = Rebuilt(ops: seq<WriteOp>, rekeyed: nat, pulled: nat, dropped: nat)

  /** The rebuild's parts: the walk and what it leaves of the spine. */
  function LeftOf(rows: seq<Placement>, w: Walk): Left {
    LeftAll(Left(CarriedHandles(w.entries), {}, []), Filter(IsSpine, rows))
  }

  function IsLost(left: Left): Placement -> bool {
    (p: Placement) => !p.status.Clean? && p.handle !in left.carried
  }

  function CheckpointOps(c: Collection, checkpoint: Option<Checkpoint>): seq<WriteOp> {
    if checkpoint.Some? then [SetCheckpoint(c, checkpoint.value)] else []
  }

  /** The placements a rebuild upserts: one per member, then one per restaged edit. */
  function Upserted(w: Walk, left: Left): seq<Placement> {
    EntryUpserts(w.entries) + RestagedRows(left.rows)
  }

  /** The batch: every drop, then every upsert, then the checkpoint. */
  function Rebuild(
      c: Collection, rows: seq<Placement>, listed: seq<RemoteItem>, readings: map<Handle, Reading>,
      checkpoint: Option<Checkpoint>): Rebuilt {
    var spine := Filter(IsSpine, rows);
    var w := Walked(c, rows, listed, readings);
    var left := LeftOf(rows, w);
    Rebuilt(
      DropsOf(c, left, InPlace(w.entries), spine) + UpsertsOf(Upserted(w, left)) + CheckpointOps(c, checkpoint),
      CarriedCount(w.entries) + |left.rows|,
      |w.entries| - CarriedCount(w.entries),
      |Filter(IsLost(left), spine)|)
  }

  // ---------- The guard ----------

  datatype Parked = Parked(absent: nat, bound: nat)

  const MASS_ABSENCE := 20

  function Guard(absent: nat, bound: nat, named: bool, accepted: bool): Option<Parked> {
    var mass := bound >= MASS_ABSENCE && absent * 2 > bound;
    var empty := !named && absent > 0;
    if (mass || empty) && !accepted then Some(Parked(absent, bound)) else None
  }

  /** The handles of based rows, which the guard counts. */
  function BasedHandles(rows: seq<Placement>): set<Handle> {
    set p | p in rows && p.base.Some? :: p.handle
  }

  predicate IsAbsence(based: set<Handle>, op: WriteOp) {
    op.Drop? && op.reason.Deleted? && op.handle in based
  }

  function Absent(rows: seq<Placement>, ops: seq<WriteOp>): nat {
    |Filter((op: WriteOp) => IsAbsence(BasedHandles(rows), op), ops)|
  }
}
