/**
  The entities the engine passes around: placements, their bases, and the ordered write
  batches a verb hands to the storage. Identifiers are texts; a body is named by its hash
  and never opened here.
*/
module Entities {
  import opened Wrappers

  type Handle = string
  type LinkId = string
  type Hash = string
  type Source = string
  type Collection = string
  type Revision = string
  type Checkpoint = seq<int>
  type Cursor = seq<int>
  type Bytes = seq<int>

  /** An item's position in its collection; empty is unknown. */
  type SortKey = string

  /** A set of state markers; `Unknown` was never read, which is not the empty set. */
  datatype Flags = Unknown | Known(marks: set<string>)

  const NO_FLAGS := Known({})

  /** The parts of a summary the engine reads; `rest` stands for every other field. */
  datatype Summary =
    | Mail(date: Option<string>, size: Option<nat>, attachment: Option<bool>, invitation: Option<string>, rest: string)
    | File(size: Option<nat>, rest: string)
    | Other(rest: string)
  {
    /** The summary as the store keeps it: an empty mail date is no date. */
    function Stored(): Summary {
      if Mail? && date == Some("") then this.(date := None) else this
    }
  }

  /** What a report carrying no body brings over a held summary. */
  function WithoutBody(held: Option<Summary>, incoming: Option<Summary>, holdsBody: bool): Option<Summary> {
    match (held, incoming)
    case (_, None) => held
    case (Some(Mail(_, size, attachment, invitation, _)), Some(Mail(d, s, a, i, rest))) =>
      Some(Mail(d, if holdsBody then size else s, if holdsBody then attachment else a, Or(i, invitation), rest))
    case (Some(File(size, _)), Some(File(s, rest))) => Some(File(if holdsBody then size else s, rest))
    case (_, Some(_)) => incoming
  }

  datatype Level = Meta | Full

  function MaxLevel(a: Level, b: Level): Level {
    if a.Full? then a else b
  }

  datatype Status = Clean | Dirty | Tombstone | Conflict | Created

  datatype Origin = Origin(collection: Collection, handle: Handle)

  /** The last-synced state a placement reconciles against. */
  datatype Base = Base(flags: Flags, revision: Option<Revision>, body: Option<Hash>)

  /** One item's presence in one collection. */
  datatype Placement = Placement(
    collection: Collection,
    handle: Handle,
    link: Option<LinkId>,
    body: Option<Hash>,
    level: Level,
    summary: Option<Summary>,
    sortKey: SortKey,
    flags: Flags,
    status: Status,
    conflictRevision: Option<Revision>,
    conflictBody: Option<Hash>,
    base: Option<Base>,
    origin: Option<Origin>)
  {
    function BaseBody(): Option<Hash> {
      if base.Some? then base.value.body else None
    }

    function BaseRevision(): Option<Revision> {
      if base.Some? then base.value.revision else None
    }

    /** Whether the placement holds a body its base never synced. */
    predicate StagedEdit() {
      body.Some? && !(base.Some? && base.value.body == body)
    }

    /** Whether a held body faces a base naming a revision and no body. */
    predicate AwaitsBase() {
      body.Some? && base.Some? && base.value.revision.Some? && base.value.body.None?
    }
  }

  datatype Object = Object(hash: Hash, size: nat)

  datatype DropReason = Deleted | Superseded | Rekeyed

  /** A write of a batch; `Bookkeeping` stands for the round and coverage records. */
  datatype WriteOp =
    | Upsert(placement: Placement)
    | Drop(collection: Collection, handle: Handle, reason: DropReason)
    | StoreObject(blob: Object, bytes: Option<Bytes>)
    | SetCheckpoint(collection: Collection, checkpoint: Checkpoint)
    | Overrule(collection: Collection, handle: Handle)
    | Settle(collection: Collection, handle: Handle)
    | Bookkeeping

  /** What a listing names a member by. */
  datatype RemoteItem = RemoteItem(
    handle: Handle,
    flags: Flags,
    revision: Option<Revision>,
    link: LinkId,
    summary: Option<Summary>,
    sortKey: SortKey,
    body: Option<Hash>)

  /** A body a fetch served, its bytes absent when the consumer stored them itself. */
  datatype FetchedBody = FetchedBody(blob: Object, bytes: Option<Bytes>)

  datatype Tier = MetaTier | FullTier

  datatype FetchedItem = FetchedItem(
    handle: Handle,
    link: LinkId,
    summary: Option<Summary>,
    sortKey: SortKey,
    body: Option<FetchedBody>,
    revision: Option<Revision>)

  function UpsertsOf(placements: seq<Placement>): (ops: seq<WriteOp>)
    ensures |ops| == |placements|
    ensures forall i :: 0 <= i < |ops| ==> ops[i] == Upsert(placements[i])
  {
    seq(|placements|, i requires 0 <= i < |placements| => Upsert(placements[i]))
  }
}
