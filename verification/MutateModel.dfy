/** A local edit applied offline: what it may settle, and the writes it stages. */
module MutateModel {
  import opened Wrappers
  import opened Entities
  import opened Keys
  import opened Coroutine

  datatype Mutation =
    | SetFlags(handle: Handle, flags: Flags)
    | Remove(handle: Handle)
    | Edit(handle: Handle, blob: Object, bytes: Bytes, summary: Option<Summary>, sortKey: Option<SortKey>,
           ifMatch: Option<Hash>, overrule: bool, resolves: Option<seq<Hash>>)
    | Copy(handle: Handle, target: Collection)
    | Move(handle: Handle, target: Collection)
    | Add(link: LinkId, addFlags: Flags, blob: Object, bytes: Bytes, summary: Option<Summary>, addSortKey: SortKey)

  datatype MutateError =
    | UnknownHandle(handle: Handle)
    | Unnamed(handle: Handle)
    | LinkExists(link: LinkId)
    | Replaced(handle: Handle, read: Hash, held: Option<Hash>)
    | Unresolved(handle: Handle, met: seq<Option<Hash>>, resolves: Option<seq<Hash>>)
    | Undeliverable(handle: Handle)
    | BadArg(error: ArgError)

  // ---------- Which conflicts an edit meets, and whether it may settle them ----------

  /** The diverging bodies met: the item's when it is conflicted, then the binding's. */
  function ConflictsMet(p: Placement, item: Option<Option<Hash>>): seq<Option<Hash>> {
    (if item.Some? then [item.value] else []) + (if p.conflictRevision.Some? then [p.conflictBody] else [])
  }

  /** An ordinary edit meets none; a resolution meets some and names each, an unread one being unnameable. */
  predicate MaySettle(met: seq<Option<Hash>>, resolves: Option<seq<Hash>>) {
    if resolves.None? then met == []
    else met != [] && forall i | 0 <= i < |met| :: met[i].Some? && met[i].value in resolves.value
  }

  function ConflictOf(conflicted: seq<(Handle, Option<Hash>)>, handle: Handle): Option<Option<Hash>> {
    if conflicted == [] then None
    else if conflicted[0].0 == handle then Some(conflicted[0].1)
    else ConflictOf(conflicted[1..], handle)
  }

  /** The item conflict a load states, one it only projects reading as nobody's. */
  function ItemMet(loaded: Loaded, p: Placement): Option<Option<Hash>> {
    var stated := ConflictOf(loaded.conflicted, p.handle);
    if stated.Some? then stated
    else if p.status.Conflict? && p.conflictRevision.None? then Some(None)
    else None
  }

  function FindRow(rows: seq<Placement>, handle: Handle): Option<Placement> {
    if rows == [] then None else if rows[0].handle == handle then Some(rows[0]) else FindRow(rows[1..], handle)
  }

  // ---------- The writes ----------

  /** The base a decision on a divergence leaves: the conflict's revision and body. */
  function Adopted(p: Placement): Base {
    Base(if p.base.Some? then p.base.value.flags else p.flags, p.conflictRevision, p.conflictBody)
  }

  function Decided(p: Placement): Placement {
    if p.conflictRevision.Some? then p.(base := Some(Adopted(p)), conflictRevision := None, conflictBody := None) else p
  }

  function EditedRow(p: Placement, m: Mutation): Placement
    requires m.Edit?
  {
    var resolving := p.conflictRevision.Some?;
    var q := Decided(p.(body := Some(m.blob.hash), level := Full,
                        summary := if m.summary.Some? then m.summary else p.summary,
                        sortKey := if m.sortKey.Some? then m.sortKey.value else p.sortKey));
    var staged := q.BaseBody() != Some(m.blob.hash);
    if staged || resolving then q.(origin := None, status := if q.status.Created? then Created else Dirty) else q
  }

  function EditOps(p: Placement, m: Mutation, itemConflicted: bool): seq<WriteOp>
    requires m.Edit?
  {
    [StoreObject(m.blob, Some(m.bytes))] +
    (if m.overrule then [Overrule(p.collection, p.handle)] else []) +
    (if !m.overrule && itemConflicted then [Settle(p.collection, p.handle)] else []) +
    [Upsert(EditedRow(p, m))]
  }

  function RemoveOps(p: Placement): seq<WriteOp> {
    var q := Decided(p.(status := Tombstone));
    if q.base.Some? then [Upsert(q)] else [Upsert(q), Drop(q.collection, q.handle, Deleted)]
  }

  function StagedCopy(p: Placement, target: Collection, key: LinkId): Placement {
    Placement(target, Provisional(key), Some(key), p.body, p.level, p.summary, p.sortKey, p.flags, Created,
              None, None, None, Some(Origin(p.collection, p.handle)))
  }

  function AddOps(c: Collection, m: Mutation): seq<WriteOp>
    requires m.Add?
  {
    [StoreObject(m.blob, Some(m.bytes)),
     Upsert(Placement(c, Provisional(m.link), Some(m.link), Some(m.blob.hash), Full, m.summary, m.addSortKey,
       m.addFlags,
                      Created, None, None, None, None))]
  }

  predicate Creates(m: Mutation) {
    m.Copy? || m.Move?
  }

  /** The writes staged for a loaded row; `key` is what a create takes in its target. */
  function WritesFor(c: Collection, m: Mutation, p: Placement, key: Option<LinkId>, itemConflicted: bool): seq<WriteOp>
    requires Creates(m) ==> key.Some?
  {
    match m
    case SetFlags(_, flags) => [Upsert(p.(flags := flags, status := if p.status.Clean? then Dirty else p.status))]
    case Remove(_) => RemoveOps(p)
    case Edit(_, _, _, _, _, _, _, _) => EditOps(p, m, itemConflicted)
    case Copy(_, target) => [Upsert(StagedCopy(p, target, key.value))]
    case Move(_, target) =>
      var create := StagedCopy(p, target, key.value);
      [Upsert(create), Upsert(p.(status := Tombstone, origin := Some(Origin(target, create.handle))))]
    case Add(_, _, _, _, _, _) => AddOps(c, m)
  }

  function LiveLinks(rows: seq<Placement>): set<LinkId> {
    set p | p in rows && !p.status.Tombstone? && p.link.Some? :: p.link.value
  }

  /** Why a loaded row refuses the mutation, if it does. */
  function Refusal(m: Mutation, p: Placement, item: Option<Option<Hash>>, syncsTarget: bool): Option<MutateError>
    requires !m.Add?
  {
    if p.link.None? then Some(Unnamed(m.handle))
    else if m.Edit? && m.ifMatch.Some? && p.body != m.ifMatch then Some(Replaced(m.handle, m.ifMatch.value, p.body))
    else if m.Edit? && !m.overrule && !MaySettle(ConflictsMet(p, item), m.resolves) then
      Some(Unresolved(m.handle, ConflictsMet(p, item), m.resolves))
    else if Creates(m) && p.body.None? && !(p.base.Some? && syncsTarget) then Some(Undeliverable(m.handle))
    else None
  }
}
