/** What an upgrade makes of the items it fetched: the identity each takes, and the batch. */
module UpgradeModel {
  import opened Wrappers
  import opened Text
  import opened Entities
  import opened Keys

  datatype ConflictPolicy = Manual | PreferLocal | PreferRemote

  /** The source's policy, and whether it may push content. */
  datatype Options = Options(conflict: ConflictPolicy, pushContent: bool)

  type Rows = map<Handle, Placement>

  predicate IsConflicted(p: Placement) {
    p.status.Conflict?
  }

  /** The conflict is the item's, which records no revision on the binding. */
  predicate IsItemConflict(p: Placement) {
    IsConflicted(p) && p.conflictRevision.None?
  }

  predicate IsMutable(p: Placement) {
    p.BaseRevision().Some?
  }

  predicate SizeAgrees(p: Placement, size: nat) {
    p.summary.Some? && p.summary.value.Mail? && p.summary.value.size.Some? ==> p.summary.value.size.value == size
  }

  /** Whether a requested row still needs work for the tier. */
  predicate NeedsWork(p: Placement, tier: Tier, missing: set<Hash>) {
    if tier.MetaTier? then p.summary.None?
    else if IsItemConflict(p) then p.BaseRevision().Some? && p.BaseBody().None?
    else if IsConflicted(p) then p.conflictBody.None?
    else if p.body.Some? then p.level.Meta? || p.body.value in missing || p.AwaitsBase()
    else true
  }

  function PendingHandles(handles: seq<Handle>, rows: Rows, tier: Tier, missing: set<Hash>): seq<Handle> {
    Filter((h: Handle) => h in rows && NeedsWork(rows[h], tier, missing), handles)
  }

  function StoreOf(body: FetchedBody): WriteOp {
    StoreObject(body.blob, body.bytes)
  }

  function BaseFlags(p: Placement): Flags {
    if p.base.Some? then p.base.value.flags else p.flags
  }

  // ---------- Settling a divergence ----------

  /** `PreferLocal` settles nothing without content pushes. */
  function PolicyOf(opts: Options): ConflictPolicy {
    if opts.conflict.PreferLocal? && !opts.pushContent then Manual else opts.conflict
  }

  function Diverged(p: Placement, fetched: Hash, revision: Option<Revision>): Placement {
    p.(status := Conflict, conflictRevision := revision, conflictBody := Some(fetched))
  }

  /** The row with its conflict cleared, so the pull after it reads as one dropping an edit. */
  function Cleared(p: Placement): Placement {
    p.(status := Dirty, conflictRevision := None, conflictBody := None)
  }

  /** The row settled over the fetched body: the base adopts it, the conflict goes. */
  function SettledOver(
      p: Placement, body: Option<Hash>, level: Level, fetched: Hash, revision: Option<Revision>): Placement {
    p.(body := body, level := level, conflictRevision := None, conflictBody := None,
       status := if body == Some(fetched) && BaseFlags(p) == p.flags then Clean else Dirty,
       base := Some(Base(BaseFlags(p), revision, Some(fetched))))
  }

  function SettleOps(
      c: Collection, opts: Options, p: Placement, fetched: Hash, revision: Option<Revision>): seq<WriteOp> {
    match PolicyOf(opts)
    case Manual => [Upsert(Diverged(p, fetched, revision))]
    case PreferLocal =>
      [Upsert(Diverged(p, fetched, revision)), Overrule(c, p.handle),
       Upsert(SettledOver(p, p.body, p.level, fetched, revision))]
    case PreferRemote =>
      (if p.conflictRevision.Some? then [Upsert(Cleared(p))] else []) +
      [Upsert(SettledOver(p, Some(fetched), Full, fetched, revision))]
  }

  // ---------- Landing a pending create ----------

  predicate IsPendingCreate(p: Placement, hint: LinkId, arrived: Handle) {
    p.link == Some(hint) && p.status.Created? && p.base.None? && p.handle != arrived
  }

  function PendingCreates(rows: Rows, hint: LinkId, arrived: Handle): seq<Handle> {
    Filter((h: Handle) => h in rows && IsPendingCreate(rows[h], hint, arrived), Ascending(rows.Keys))
  }

  /** What a landing settles: a mutable arrival whose body is unread or not the staged one. */
  function LandedBody(tier: Tier, item: FetchedItem): Option<Hash> {
    if tier.FullTier? && item.body.Some? then Some(item.body.value.blob.hash) else None
  }

  predicate LandDiverges(tier: Tier, create: Placement, item: FetchedItem) {
    item.revision.Some? && create.body.Some? && !(LandedBody(tier, item).Some? && LandedBody(tier, item) == create.body)
  }

  /** The create moved onto the handle its arrival was fetched at. */
  function Landed(tier: Tier, create: Placement, named: Placement, item: FetchedItem): Placement {
    var read, diverged := LandedBody(tier, item), LandDiverges(tier, create, item);
    var body := if !diverged && create.body.None? then read else create.body;
    var baseBody := if !diverged && read.Some? then read else create.body;
    var base := Base(named.flags, item.revision, baseBody);
    create.(
      handle := item.handle,
      body := body,
      summary := Or(create.summary, item.summary),
      sortKey := if create.sortKey == "" then item.sortKey else create.sortKey,
      level := if body.Some? then Full else Meta,
      status := if base.flags == create.flags && base.body == body then Clean else Dirty,
      base := Some(if diverged then base.(body := None) else base),
      origin := None)
  }

  function LandOps(
      c: Collection, tier: Tier, opts: Options, create: Placement, named: Placement, item: FetchedItem): seq<WriteOp> {
    var landed, read := Landed(tier, create, named, item), LandedBody(tier, item);
    [Drop(c, create.handle, Superseded)] +
    (if read.Some? then [StoreOf(item.body.value)] else []) +
    (if !LandDiverges(tier, create, item) then [Upsert(landed)]
     else if read.Some? then SettleOps(c, opts, landed, read.value, item.revision)
     else [Upsert(landed.(status := Conflict, conflictRevision := item.revision))])
  }

  // ---------- One fetched item ----------

  /** The batch under way: rows still held, keys taken, writes and counts so far. */
  datatype Progress = Progress(rows: Rows, claimed: set<LinkId>, ops: seq<WriteOp>, fetched: nat, upgraded: nat)

  function Wrote(st: Progress, ops: seq<WriteOp>, fetched: nat, upgraded: nat): Progress {
    st.(ops := st.ops + ops, fetched := st.fetched + fetched, upgraded := st.upgraded + upgraded)
  }

  /** A mutable resource stating another hint under its handle is a new identity there. */
  predicate Restates(p: Placement, item: FetchedItem) {
    (item.revision.Some? || IsMutable(p)) && p.link.Some? && p.link.value != item.link && !("dup:" <= p.link.value)
  }

  function Afresh(p: Placement, item: FetchedItem): Placement {
    if Restates(p, item) then
      p.(link := None, body := None, base := None, status := Clean, conflictRevision := None, conflictBody := None)
    else p
  }

  /** The unread side of an item conflict, read at last: the binding's body and base. */
  function ReadAtLast(p: Placement, item: FetchedItem, hash: Hash): Placement {
    p.(body := Some(hash), level := Full, base := Some(Base(BaseFlags(p), item.revision, Some(hash))))
  }

  /** The push whose record was lost had landed: the conflict was none. */
  function LandedAfterAll(p: Placement, item: FetchedItem, hash: Hash): Placement {
    p.(status := Clean, conflictRevision := None, conflictBody := None,
       base := Some(Base(BaseFlags(p), item.revision, Some(hash))))
  }

  /** The row under the key it is given, a base agreed where it had none. */
  function Keyed(p: Placement, key: LinkId, item: FetchedItem): Placement {
    p.(link := Some(key), base := Or(p.base, Some(Base(p.flags, item.revision, None))))
  }

  function Described(p: Placement, item: FetchedItem): Placement {
    p.(summary := WithoutBody(p.summary, item.summary, item.body.None? && p.body.Some?), sortKey := item.sortKey)
  }

  /** A fetched body moves the base, and over a local edit is the base's or the diverging one. */
  function Hydrated(p: Placement, item: FetchedItem, hash: Hash): Placement {
    if p.StagedEdit() && item.revision.Some? && item.revision != p.BaseRevision() then
      p.(status := Conflict, conflictRevision := item.revision, conflictBody := Some(hash), level := Full)
    else
      p.(base := if p.base.Some? then Some(p.base.value.(revision := item.revision, body := Some(hash))) else None,
         body := if p.StagedEdit() then p.body else Some(hash),
         level := Full)
  }

  function Refreshed(p: Placement): Placement {
    p.(level := if p.body.Some? then Full else Meta)
  }

  /** The writes of a row named and described, at the tier it was fetched at. */
  function FinishStep(st: Progress, tier: Tier, named: Placement, item: FetchedItem): Progress {
    var p := Described(named, item);
    if tier.FullTier? && item.body.Some? then
      Wrote(st, [StoreOf(item.body.value), Upsert(Hydrated(p, item, item.body.value.blob.hash))], 1, 1)
    else if tier.FullTier? then Wrote(st, [Upsert(Refreshed(p))], 0, 0)
    else Wrote(st, [Upsert(Refreshed(p))], 1, 1)
  }

  function ConflictStep(c: Collection, opts: Options, st: Progress, p: Placement, item: FetchedItem): Progress {
    if item.body.None? then st
    else
      var hash := item.body.value.blob.hash;
      var ops :=
        if IsItemConflict(p) then [Upsert(ReadAtLast(p, item, hash))]
        else if p.body == Some(hash) then [Upsert(LandedAfterAll(p, item, hash))]
        else SettleOps(c, opts, p, hash, Or(item.revision, p.conflictRevision));
      Wrote(st, [StoreOf(item.body.value)] + ops, 1, 1)
  }

  /** Which identity an item is given: none when it keeps its own. */
  datatype Given = Own | FreshKey(key: LinkId) | LandsCreate(key: LinkId, create: Handle)

  function GivenTo(tier: Tier, st: Progress, item: FetchedItem): Given {
    if item.handle !in st.rows || (tier.FullTier? && IsConflicted(st.rows[item.handle])) then Own
    else if Afresh(st.rows[item.handle], item).link.Some? then Own
    else
      var creates := PendingCreates(st.rows, item.link, item.handle);
      if creates != [] then LandsCreate(item.link, creates[0])
      else FreshKey(Claim(item.link, item.handle, st.claimed))
  }

  function FetchStep(c: Collection, tier: Tier, opts: Options, st: Progress, item: FetchedItem): Progress {
    if item.handle !in st.rows then st
    else if tier.FullTier? && IsConflicted(st.rows[item.handle]) then
      ConflictStep(c, opts, st, st.rows[item.handle], item)
    else
      var p := Afresh(st.rows[item.handle], item);
      match GivenTo(tier, st, item)
      case Own => FinishStep(st, tier, p, item)
      case FreshKey(key) => FinishStep(st.(claimed := st.claimed + {key}), tier, Keyed(p, key, item), item)
      case LandsCreate(key, create) =>
        if create !in st.rows then st
        else
          Wrote(st.(claimed := st.claimed + {key}, rows := st.rows - {create}),
                LandOps(c, tier, opts, st.rows[create], p, item), 1, 1)
  }

  function FetchAll(c: Collection, tier: Tier, opts: Options, st: Progress, items: seq<FetchedItem>): Progress {
    if items == [] then st
    else FetchStep(c, tier, opts, FetchAll(c, tier, opts, st, items[..|items| - 1]), items[|items| - 1])
  }

  function FetchedHandle(item: FetchedItem): Handle {
    item.handle
  }

  function LinksIn(rows: Rows): set<LinkId> {
    set h | h in rows && rows[h].link.Some? :: rows[h].link.value
  }

  /** Claimed in handle order, whatever order the fetch reported in. */
  function WriteFetched(
      c: Collection, tier: Tier, opts: Options, rows: Rows, ops: seq<WriteOp>, items: seq<FetchedItem>): Progress {
    FetchAll(c, tier, opts, Progress(rows, LinksIn(rows), ops, 0, 0), SortBy(FetchedHandle, items))
  }
}
