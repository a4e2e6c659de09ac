# pimdir sync engine, verified

pimdir keeps mail, contacts, events and files in one local store and syncs each collection
with any number of sources. Its sync engine does no I/O: a shared **hub** projects a view of
the items for one source, a **verb** (rekey, upgrade, mutate) turns that view into an ordered
batch of writes, and the hub absorbs the batch. This project models the hub, the three verbs
and the small codecs around them in Dafny, and proves what only shows when they are composed:
which bodies every merge, settle, landing and late read keeps, to the body and over whole runs;
that no staged edit is lost in a rebuild, each identity is handed out once, propagation comes to rest, and flags converge.

## How it is laid out

| file | holds |
|---|---|
| `Text.dfy`, `Arithmetic.dfy` | options and results, the byte order on texts with its sorts, powers of two |
| `Entities.dfy`, `Placement.dfy`, `Coroutine.dfy` | placements, bases, write ops; keys and the flag merge; what a verb asks and is answered, and its runs |
| `HubModel.dfy`, `Hub.dfy` | the hub as functions on a state, and as the class that updates it in place |
| `HubMerge.dfy`, `HubBodies.dfy` | what the merge keeps, body by body, and what becomes of a body over whole runs |
| `HubProjection.dfy`, `HubDescription.dfy` | what a row says of its item and its round trip; flags, summaries and levels |
| `HubSource.dfy` | when one source disagrees with itself |
| `Quiescence.dfy`, `FlagConvergence.dfy` | propagation coming to rest; flags converging |
| `RekeyModel.dfy`, `Rekey.dfy` | the rebuild as functions, and the coroutine class |
| `RekeyIdentity.dfy`, `RekeyAccounts.dfy`, `RekeyRuns.dfy` | identities, accounts and whole runs |
| `RekeyKeys.dfy`, `RekeyCarry.dfy`, `RekeyCounts.dfy` | the key a member takes, what a carried row keeps, the report and the guard |
| `RekeyHub.dfy`, `RekeyEdits.dfy` | the rebuild absorbed by the hub, its bindings and its staged edits |
| `UpgradeModel.dfy`, `Upgrade.dfy`, `UpgradeIdentity.dfy` | the upgrade and its identities |
| `UpgradeFetch.dfy`, `UpgradeRows.dfy` | the plain fetch through the hub, the rows written, what is linked or asked for |
| `UpgradeSettle.dfy`, `UpgradeLanding.dfy`, `UpgradeReading.dfy` | its settling, its landing of a create and its late reading of an item conflict, absorbed by the hub |
| `MutateModel.dfy`, `Mutate.dfy`, `Resolution.dfy`, `MutateHub.dfy` | the mutation verb, a person's resolution and every other mutation absorbed by the hub |
| `VerbRuns.dfy` | whole runs of an upgrade and of a mutation |
| `Base32.dfy`, `Scope.dfy`, `ChangeKey.dfy`, `ChangeStream.dfy`, `CodecModel.dfy`, `Codec.dfy` | object names, date scopes, change keys, the action payload |
| `ChangeSpelling.dfy`, `KeySpelling.dfy` | the spellings two engines over one store must share |

`dafny verify dfyconfig.toml` checks everything. Each class (`Hub`, `Rekey`, `Upgrade`,
`Mutate`, `Digest`) updates its fields in place as the source does; each of its methods is
proved equal to a function on the abstract state, and the lemmas are about those functions.

## What was found

Six promises hold only under a condition, each stated exactly:

- A body weighed by the merge is not always kept. Where the merge fills an emptied item or
  diverges from it, the shared, the incoming and on a fill the recorded body all are
  (`MergeLosesNeither`). A divergence recorded earlier is lost to any later upsert that moves
  the body, by a second divergence or by a fast-forward alike, unless an `Overrule` announced
  it (`RecordedBodyKeptIff`); `RecordedBodyIsLost` is one run of each. A fast-forward also
  drops the shared body, unless it pulls over a local edit (`SharedBodyKeptIff`), an upsert its
  source did not edit brings no body in (`IncomingBodyKeptIff`), and a tombstone drops what was
  recorded (`BuriedKeepsIff`). Over every run of every source's batches, a body is kept at each
  moment exactly while no write meets one of these conditions (`BodyKeptIff`).
- Settling a binding conflict by preferring the remote keeps the local edit if and only if
  `UpgradeSettle.PullKeepsLocal` holds of the item before the call. A base at another revision
  than the fetched one is enough (`SettleLosesNeither`); a base at that very revision is not,
  and a run reaches it: an item added offline, landed on its arrival by an upgrade of headers
  alone, then upgraded in full preferring the remote, loses the body it was added with
  (`LandedThenPulledLosesEdit`).
- Reading at last the unread side of an item's conflict, under every policy, keeps the shared
  body if and only if the hub had moved under the binding or the fetch is of another revision
  than its base, and loses a recorded divergence whenever the item held another body
  (`ReadKeepsBodies`). One read can lose both (`ReadLosesBoth`).
- A fetched body is handed over, and an edit taken, exactly when the item held it, or the
  source's base does not name it yet and no body the hub moved to contests it (`TakenIff`). So of
  an item another source's pull emptied, the body this source's base still names is fetched at
  every upgrade and never held (`EmptiedIsNeverRefilled`).
- And an edit back to the body last synced, over an edit not yet pushed, is not taken: the item
  keeps the first edit and nothing records the undo (`EditTakenIff`, `UndoIsNotTaken`).
- A source can come to disagree with itself. A `Superseded` or `Rekeyed` drop licenses the
  rebinding upsert of its own batch only. Where every batch takes up again what its licensed
  drops let go of, which `ClosedBatch` reads off the batch and the items before it, no item
  conflicts (`SourceNeverDisagreesWithItself`). In any other run a divergence is recorded if and
  only if an upsert meets an item holding a body its source has agreed on none of, and brings
  another, of mutable content under the manual policy, or withdraws its own conflict with no
  body at all (`SourceDisagreesIff`). So a rename split over two batches conflicts exactly under
  the manual policy, with a versioned base and two known, different bodies
  (`SplitRenameConflictsIff`), and never under the two prefer policies.

## Model

| member | source | states |
|---|---|---|
| `HubClass.Hub.constructor` | src/hub.rs:155-182 | a new hub holds no item and is idle under its policy |
| `HubClass.Hub.ProjectWith` | src/hub.rs:232-265 | the loop over the ordered items yields exactly the projection of the state, tombstones and creates with their resolved origin |
| `HubModel.ProjectMembers` | src/hub.rs:232-359 | a placement is projected if and only if it is what the source sees of some item: both directions |
| `HubModel.ProjectKeyed` | src/hub.rs:232-265 | every projected row has a link id and no two rows share one |
| `HubProjection.SeenIff` | src/hub.rs:232-265 | a source is shown a deleted item exactly while it binds it, a live one exactly while it binds it or another does and it has a body |
| `HubProjection.StatusIff` | src/hub.rs:295-359 | each status of a row, told by the item's and the binding's fields alone: clean exactly when the base names the item's flags and body |
| `HubProjection.RowCarries` | src/hub.rs:130-151 | the content, handle, base and conflict a row carries, bound or offered, and its level |
| `HubProjection.ProjectedOrigin` | src/hub.rs:232-265 | a row is what is seen, with the store's origin on a create or a tombstone alone |
| `HubProjection.ProjectedInOrder` | src/hub.rs:232-265 | the rows of a load are in the order of their keys |
| `HubProjection.RowRoundTrips` | src/hub.rs:295-581 | a row shown of an item, written back, leaves the whole hub as it was |
| `HubProjection.EditIsOwed` | src/hub.rs:295-321 | from an agreed body, one source's edit makes the other's row dirty bearing it over its own base, and offers it to a source that never bound the item |
| `HubClass.Hub.Absorb` | src/hub.rs:367-393 | folding the ops one by one leaves the fold of the batch, with rebinding, overruling and settling empty again |
| `HubModel.AbsorbOpsConcat` | src/hub.rs:367-393 | folding two lists of ops in turn is folding their concatenation |
| `HubClass.Hub.AbsorbUpsert` | src/hub.rs:403-562 | one upsert in place equals the model upsert: binding restored, conflict settled or merged, description following the body, losers recorded |
| `HubModel.LiveUpsert` | src/hub.rs:403-562 | a live upsert rewrites its own item only, uses up the released binding, and records a divergence exactly when the merge found one |
| `HubClass.Hub.Meet` | src/hub.rs:414-437 | the item met is the stored one or a new one, its released binding put back |
| `HubClass.Hub.Bury` | src/hub.rs:439-454 | a tombstone marks the item deleted, settles its conflict, keeps its body and its agreement point |
| `HubClass.Hub.Restate` | src/hub.rs:456-469 | known flags, a stated summary and a known sort key replace the held ones, the item live again |
| `HubClass.Hub.SettleContent` | src/hub.rs:456-511 | body, conflict and description a live upsert leaves |
| `HubClass.Hub.Describe` | src/hub.rs:498-511 | summary, sort key and level follow the body the item ended with |
| `HubDescription.DescribedIff` | src/hub.rs:456-511 | for every live upsert, exactly whose summary and sort key the item ends with, at which level and with which flags |
| `HubDescription.AdoptedIsDescribed` | src/hub.rs:462-503 | an item that ends on the upsert's body, not by a fill, is described by the upsert |
| `HubDescription.KeptIsDescribed` | src/hub.rs:497-503 | an item that keeps its body against a divergence keeps that body's description |
| `HubDescription.FillEndsAs` | src/hub.rs:638-667 | a body filling an emptied item: which body the item ends with under each policy, and whether a conflict recorded unread still stands over it |
| `HubDescription.LoserIsDescribed` | src/hub.rs:513-533 | a body set aside is described as its own side described it |
| `HubDescription.FillLoserIsDescribed` | src/hub.rs:513-539 | a fill's loser likewise, and an adopted divergence left to be summarized |
| `HubDescription.KeptInOrder` | src/hub.rs:725-760 | what an overrule keeps, in order and described, each body once |
| `HubDescription.OverruleSettlesIff` | src/hub.rs:486-496 | restating the shared body settles the item's conflict if and only if an overrule announced it |
| `HubDescription.AnnouncedOnce` | src/hub.rs:404-415 | an announced overrule, settle or released binding serves one upsert alone |
| `HubDescription.UnreadSays` | src/upgrade.rs:320-322 | what a report with no body says of a mail's summary over a held one |
| `HubDescription.UnknownTombstone` | src/hub.rs:415-454 | a tombstone of an unknown item files it, deleted, as the row says it |
| `HubDescription.DropSays` | src/hub.rs:765-787 | for every item, what a drop leaves of it and of the bindings set aside, reviving nothing |
| `HubClass.Hub.RefreshBinding` | src/hub.rs:541-581 | the binding agrees on a body the item settled on and no other, an unversioned base following the item's body |
| `HubClass.Hub.ReconcileContent` | src/hub.rs:601-719 | the content merge: immutable, fill, divergence, fast-forward, each with its loser |
| `HubClass.Hub.KeepOverruled` | src/hub.rs:725-760 | an overruling edit keeps the binding's and the item's diverging bodies it does not adopt, each once |
| `HubClass.Hub.AbsorbDrop` | src/hub.rs:765-787 | a drop unbinds exactly the items the source binds under the handle, deletes them only when the reason says so, and sets the bindings of the other reasons aside |
| `HubMerge.MergeLosesNeither` | src/hub.rs:601-719 | for every state, policy and live upsert that fills or diverges, the shared body, the incoming one and on a fill the recorded one each end as the item's body, its diverging body or an overruled entry |
| `HubMerge.RecordedBodyKeptIff` | src/hub.rs:476-760 | for every live upsert, a recorded divergence survives if and only if an overrule announced the upsert, or nothing settled it outright and the upsert filled the item or moved no body |
| `HubMerge.SharedBodyKeptIff` | src/hub.rs:476-760 | for every live upsert bringing another body, the shared one, recorded over itself or not, survives if and only if its source did not edit, it diverged, it dropped a local edit, or an overrule kept it |
| `HubMerge.IncomingBodyKeptIff` | src/hub.rs:476-760 | for every live upsert, the incoming body is kept if and only if its source edited, a person settled with it, or it was the recorded one |
| `HubMerge.KeptAsideIff` | src/hub.rs:513-533 | what an upsert adds to `overruled`: the bodies its overrule keeps and its merge's loser, and no other |
| `HubMerge.FastForwardLosesRecorded` | src/hub.rs:700-716 | for every two diverging edits under Manual, the first source's next edit loses the recorded body |
| `HubMerge.ThirdEditLosesRecorded` | src/hub.rs:669-698 | for every two diverging edits under Manual, a third source's edit loses the recorded body |
| `HubMerge.RecordedBodyIsLost` | src/hub.rs:669-716 | both losing branches at one input |
| `HubBodies.LiveKeepsIff` | src/hub.rs:456-760 | for every live upsert and every body its item bears, own or recorded, the exact condition under which it is kept |
| `HubBodies.BuriedKeepsIff` | src/hub.rs:439-454 | a tombstone keeps the item's own body, and a recorded one if and only if an overrule keeps it |
| `HubBodies.TakenIff` | src/hub.rs:601-719 | over an item in no conflict, exactly when a live upsert's body is taken, and exactly when it ends in conflict |
| `HubBodies.OpKeepsIff` | src/hub.rs:367-393 | for every op of every source, a body kept so far stays kept if and only if it is set aside or the op does not lose it |
| `HubBodies.BodyKeptIff` | tests/engine/hub_property.rs:6-9 | over every run of batches by any sources, a body is kept at every moment if and only if no write loses it, and then at the end |
| `HubBodies.BroughtInIsKeptIff` | tests/engine/hub_property.rs:6-9 | a body an edit brings in is kept, and stays so at every moment if and only if no strictly later write loses it |
| `HubMerge.TwoEditsEitherOrder` | src/hub.rs:601-719 | from an agreed body, two sources' edits in either order end as each of the three policies states, body, conflict and losers |
| `HubSource.ClosedBatchIff` | src/hub.rs:367-437 | every licensed drop of a batch that lets an item go is followed in it by an upsert of that item, if and only if the batch leaves nothing set aside |
| `HubSource.OpsTrack` | src/hub.rs:367-437 | for every hub and batch, how the source stands to each item afterwards is what the ops say, link by link |
| `HubSource.SourceNeverDisagreesWithItself` | src/hub.rs:415-562 | over every run of one source's live upserts and licensed moves in closed batches, no item conflicts and nothing is recorded as diverged |
| `HubSource.SourceDisagreesIff` | src/hub.rs:415-719 | over every run of one source's live upserts and licensed drops, closed or not, a divergence is recorded if and only if some upsert disputes its own item, and till then no item conflicts |
| `HubSource.OwnSourceDisagreesIff` | src/hub.rs:415-719 | from a hub in agreement with its one source, the run records no divergence if and only if nothing is disputed |
| `HubSource.UpsertDisputesIff` | src/hub.rs:601-719 | one live upsert conflicts with its own source's item, and is recorded as diverged, if and only if it disputes it |
| `HubSource.PreferredNeverDisagrees` | src/hub.rs:669-698 | under either prefer policy, no run whose upserts carry bodies records a divergence |
| `HubSource.OwnBatch` | src/hub.rs:367-393 | the invariant behind it, kept by every op of a batch |
| `HubSource.FreshHubIsOwn` | src/hub.rs:155-182 | a fresh hub is where such a run may start |
| `HubSource.UnboundUpsertConflictsIff` | src/hub.rs:601-719 | a live upsert of an unconflicted item its source does not bind conflicts if and only if the content is mutable, the policy manual and both bodies known and different |
| `HubSource.SplitRenameConflictsIff` | src/hub.rs:415-437 | a rename split over two batches conflicts if and only if its base is versioned, the policy manual and both bodies known and different |
| `HubSource.SplitRenameConflicts` | src/hub.rs:415-437 | such a rename at one input |
| `Quiescence.ServeRow` | src/sync.rs:2017-2040 | accepting one projected row, whatever its status, serves its item and touches no other; content and flags in one batch |
| `Quiescence.FlagsMayWait` | src/sync.rs:2206-2242 | a flag edit pushed by the next sync, after the content, leaves the hub as the one batch does |
| `Quiescence.SourceComesToRest` | src/hub.rs:232-393 | a source that accepts all it is shown rests: its base names the flags and the body of every live item it is offered, it binds no deleted one, its rows are clean; the items and every other source's view are as they were, and no conflict appears |
| `Quiescence.HubComesToRest` | src/hub.rs:232-393 | in any order of the sources, once each has synced they all rest, every projection clean, over the content the items held |
| `Quiescence.SyncedSourcesAgree` | src/hub.rs:232-393 | any two of them then name the same flags and the same body, the item's |
| `FlagConvergence.HubTakesTheStep` | src/hub.rs:456-460 | absorbing one source's flag sync is exactly one merge step on item, base and server |
| `FlagConvergence.FlagUpsertOnHub` | src/hub.rs:295-321 | a flag upsert changes the item's flags and its own base, no other item, binding, body or conflict |
| `FlagConvergence.TwoPassesConverge` | src/placement.rs:184-203 | any number of sources, any order: two passes make item, bases and servers equal and a third changes nothing |
| `FlagConvergence.FlagFlippedIffSomeoneFlipped` | src/placement.rs:184-203 | from a common base a flag ends flipped if and only if some source passed flipped it |
| `FlagConvergence.OrderLeavesNoTrace` | src/placement.rs:184-203 | from a common base every order of the sources ends on the same set |
| `FlagConvergence.HubFlagsConverge` | src/hub.rs:367-393 | the same two passes run through the hub's own absorption settle item, bindings and servers |
| `Keys.Claim` | src/placement.rs:102-110 | for every finite taken set, a key not taken, equal to the hint exactly when the hint was free |
| `Keys.ClaimKey` | src/placement.rs:102-110 | the loop stops for every finite taken set, on that key |
| `Keys.StatedInvertsFromHint` | src/placement.rs:46-70 | for every string, `stated` undoes `from_hint`, which never yields a derived key |
| `Keys.FromHintInjective` | src/placement.rs:46-61 | two hints never share a key |
| `Keys.ProvisionalInjective` | src/placement.rs:76-81 | two keys never share a provisional handle |
| `KeySpelling.EscapedIff` | src/placement.rs:36-70 | a hint is escaped if and only if it begins with one of the six reserved prefixes, and which keys are derived |
| `KeySpelling.MintSpelled` | src/placement.rs:71-95 | the spelling of a mint and of a provisional handle |
| `KeySpelling.FlagIff` | src/codec.rs:73-78 | a flag is printable ASCII with no space |
| `KeySpelling.CapabilityIff` | src/capability.rs:265-280 | a capability name by its characters: the grammar's, periods between words alone, a letter first |
| `KeySpelling.NameCharIff` | src/object.rs:34-41 | the letters of an object name are the alphabet's |
| `RekeyClass.Rekey.Resume` | src/rekey.rs:511-641 | one resume moves the machine and answers as the transition function says, error answers included |
| `RekeyClass.Rekey.Rebuild` | src/rekey.rs:142-284 | the in-place rebuild emits the model batch, counts it in the report and empties its inputs |
| `RekeyClass.Rekey.WalkMembers` | src/rekey.rs:157-205 | the loop over members claims keys and takes rows as the walk's fold does |
| `RekeyClass.Rekey.RestageEdits` | src/rekey.rs:208-238 | the loop over old rows restages every edit left behind |
| `RekeyClass.Rekey.DropSpine` | src/rekey.rs:252-271 | the loop drops every old handle not carried in place, each with its reason |
| `RekeyClass.Rekey.Close` | src/rekey.rs:576-623 | the batch is written, or parked when the mass-absence guard says so |
| `RekeyIdentity.IdentitiesHandedOnce` | src/rekey.rs:142-284 | a rebuild's upserts name pairwise distinct items, none a pending create's |
| `RekeyIdentity.WalkedKeeps` | src/rekey.rs:150-206 | claimed keys and the rows still to be found stay disjoint over the whole walk, which makes one entry per member |
| `RekeyIdentity.KeyIsFree` | src/rekey.rs:297-357 | whichever way it is found, a member's key is one no other claimed |
| `RekeyIdentity.KeyFollowsRevision` | src/rekey.rs:297-357 | a member stating a revision an unclaimed copy last synced is given a copy at that revision |
| `RekeyKeys.RecognisedIff` | src/rekey.rs:297-340 | which unclaimed copy is recognised: at the member's revision when any is, holding its body where that tells |
| `RekeyKeys.UnclaimedIff` | src/rekey.rs:297-318 | the copies of a hint: filed under it or under its mint over their own handle, and unclaimed |
| `RekeyKeys.KeyIsRecognised` | src/rekey.rs:297-340 | a member a copy is recognised for takes that copy's key |
| `RekeyKeys.KeyOtherwise` | src/rekey.rs:341-357 | else the hint while free, then the mint of the copy first in handle order, then a mint of its own |
| `RekeyKeys.MembersIff` | src/rekey.rs:155-159 | the members walked: every handle listed, each once, in order |
| `RekeyAccounts.CarryKeepsEdit` | src/rekey.rs:367-473 | a carried edit keeps its body and link id and ends dirty or conflicted, conflicted at the observed revision when the remote edited too |
| `RekeyAccounts.CarriedBaseIsHonest` | src/rekey.rs:367-473 | a carried base keeps its revision and body, or takes the observed revision naming no body |
| `RekeyAccounts.CarriedDelete` | src/rekey.rs:367-473 | a pending delete is carried if and only if the remote did not edit past its base |
| `RekeyCarry.MergedMark` | src/placement.rs:184-203 | a mark of the merge is the local side's where it changed it, else the remote's |
| `RekeyCarry.CarriedMark` | src/rekey.rs:367-473 | a pending flag change survives the renumbering mark by mark, and a listed one is taken where none is pending |
| `RekeyCarry.CarriedCleanIff` | src/rekey.rs:414-473 | a carried row is clean if and only if it owes neither flags, nor an edit, nor a conflict, nor a delete |
| `RekeyCarry.CarriedRest` | src/rekey.rs:367-473 | level, origin, summary, sort key and conflict of a carried row |
| `RekeyCarry.RemoteEditedIff` | src/rekey.rs:377-383 | when a member counts as edited on the remote |
| `RekeyCarry.FreshIsListed` | src/rekey.rs:479-504 | a member with no row is pulled as listed, clean and unread |
| `RekeyCarry.RestagedIs` | src/rekey.rs:218-236 | a restaged row is a create of its identity, its content untouched |
| `RekeyCarry.BatchOrder` | src/rekey.rs:245-284 | every drop before every upsert, the checkpoint last and only when handed |
| `RekeyCarry.RekeyedMark` | src/rekey.rs:142-284 | absorbed, each carried item's marks are as the two sides moved them |
| `RekeyCarry.RekeyedFlags` | src/rekey.rs:142-284 | absorbed, every item a rebuild upserts ends with that upsert's flags |
| `RekeyAccounts.RestagedIffLeftBehind` | src/rekey.rs:208-238 | a row is restaged if and only if it holds an edit no member carried |
| `RekeyAccounts.DropSaysFate` | src/rekey.rs:252-271 | which rows each drop reason is said of, both directions |
| `RekeyAccounts.RowsAccounted` | src/rekey.rs:142-284 | every old row that is no pending create is carried, restaged or dropped as deleted, exactly one of them, exactly once |
| `RekeyAccounts.EditsSurvive` | src/rekey.rs:142-284 | every staged edit is borne by an upsert with its body and link id, the only one of that identity |
| `RekeyAccounts.ReportAddsUp` | src/rekey.rs:142-284 | rekeyed plus pulled is members listed plus edits restaged |
| `RekeyCounts.ReportSplits` | src/rekey.rs:142-284 | each count of the report: old handles carried and edits restaged, members that carried none, rows that owed something and are gone |
| `RekeyCounts.AbsentCounts` | src/rekey.rs:580-606 | what the guard counts as absent: the based rows no member and no restaging took up |
| `RekeyCounts.ParksIff` | src/rekey.rs:576-623 | a sound last page parks if and only if absences are not accepted and most of a spine of twenty or more is gone, or anything is and the listing named nothing; else it writes |
| `RekeyHub.RebuildBindsExactly` | src/rekey.rs:142-284 | absorbed, a rebuild leaves the source binding its upserts' items under their handles and its pending creates, and nothing else |
| `RekeyHub.RekeyedHandles` | src/rekey.rs:142-284 | the handles bound afterwards are exactly those listed, the pending creates' and the restaged edits' provisional ones |
| `RekeyHub.RekeyedItems` | src/rekey.rs:142-284 | an old row's item stays bound if and only if carried or restaged, and ends deleted if and only if neither carried live nor restaged |
| `RekeyEdits.RekeyedEditsStay` | src/rekey.rs:142-284 | absorbed, a rebuild leaves every staged edit as its live item's body, whatever was listed |
| `RekeyHub.RekeyLeavesOthers` | src/hub.rs:765-787 | no other source's binding appears, changes or goes |
| `RekeyHub.DropsOnItem` | src/hub.rs:765-787 | a list of drops unbinds an item exactly as the one drop naming it says |
| `RekeyHub.UpsertsOnItems` | src/hub.rs:403-562 | upserts of distinct items each bind their own and touch no other |
| `Runs.WritesOnce` | src/coroutine.rs:85-100 | any machine whose writes close it, and whose closed states write nothing, writes at most once over every sequence of resumes |
| `RekeyRuns.AtMostOneWrite` | src/rekey.rs:511-641 | over every sequence of resumes, one write at most |
| `RekeyRuns.RefusedWritesNothing` | src/rekey.rs:511-641 | a run that meets an incomplete listing, an unresumable page or the guard writes nothing, before or after |
| `RekeyRuns.WritesTheBatch` | src/rekey.rs:511-641 | whatever is written is the batch of the rows loaded and the pages listed since the last cursor rejection |
| `RekeyRuns.BatchForgetsPages` | src/rekey.rs:155-159 | with distinct handles, page boundaries and listing order leave no trace in the batch but the last checkpoint |
| `RekeyRuns.RunsWriteAlike` | src/rekey.rs:511-641 | two whole runs told the same members write the same ops |
| `RekeyRuns.AsksInTurn` | src/rekey.rs:511-560 | what a rekey asks at each step, its cursor with it |
| `RekeyRuns.ReportsItsBatch` | src/rekey.rs:627-634 | the report is the written batch's counts |
| `UpgradeClass.Upgrade.Resume` | src/upgrade.rs:645-811 | one resume moves the machine and answers as the transition function says |
| `UpgradeClass.Upgrade.Raise` | src/upgrade.rs:387-429 | what is looked up, fetched or finished once the rows are loaded |
| `UpgradeClass.Upgrade.Held` | src/upgrade.rs:435-447 | the held bodies the storage is asked to verify |
| `UpgradeClass.Upgrade.Link` | src/upgrade.rs:689-746 | rows whose body the store already holds are linked without a fetch, the others fetched |
| `UpgradeClass.Upgrade.WriteFetched` | src/upgrade.rs:181-383 | the fetched items folded in handle order give the model batch |
| `UpgradeClass.Upgrade.TakePendingCreate` | src/upgrade.rs:530-547 | the first pending create of the hint leaves the loaded rows |
| `UpgradeClass.Upgrade.Land` | src/upgrade.rs:561-638 | the landing's ops, drop first |
| `UpgradeClass.Upgrade.Settle` | src/upgrade.rs:458-523 | the ops of each conflict policy |
| `UpgradeIdentity.IdentitiesGivenOnce` | src/upgrade.rs:181-383 | keys given to unlinked items are pairwise distinct and no create lands twice |
| `UpgradeIdentity.GivenIsFreshOrLands` | src/upgrade.rs:181-383 | a given key is no loaded row's, but for a pending create's that lands |
| `UpgradeIdentity.StepWritesGiven` | src/upgrade.rs:561-638 | every upsert of an item is its own row's, under the key given or the link kept, a landing opened by the Superseded drop of its create |
| `UpgradeIdentity.UpsertComesFrom` | src/upgrade.rs:181-383 | every upsert the whole batch adds is one fetched item's, under the link that item was due |
| `UpgradeIdentity.BatchNamesOnce` | src/upgrade.rs:181-383 | two upserts of the whole batch name one item only from one handle, or across the landing that moves a create between the two |
| `UpgradeIdentity.WriteForgetsOrder` | src/upgrade.rs:181-383 | with distinct handles, the batch is invariant under permutation of the fetch report |
| `UpgradeIdentity.FetchForgetsOrder` | src/upgrade.rs:645-811 | the same through the coroutine and its check of the links |
| `UpgradeSettle.RowIsProjected` | src/hub.rs:295-321 | the row the settle starts from is what the hub projects of the conflict |
| `UpgradeSettle.FetchStepSettles` | src/upgrade.rs:235-270 | absorbing what a conflicted row's fetch adds is absorbing its settle |
| `UpgradeSettle.FetchStepAgrees` | src/upgrade.rs:244-263 | a conflict whose fetched body is the local one was none: absorbed, the binding is out of it and no body moves |
| `UpgradeFetch.FetchStepHydrates` | src/upgrade.rs:323-372 | the writes of a plain fetch: unedited, the fetched body and a base naming it; edited at the same revision, the local body over that base; edited at another, a conflict recording it |
| `UpgradeFetch.FetchStepRefreshes` | src/upgrade.rs:357-378 | a fetch that brings no body refreshes the description and leaves body, base and status |
| `UpgradeFetch.NamingKeeps` | src/upgrade.rs:272-319 | what keying a row does to it: nothing to one that keeps its identity |
| `UpgradeFetch.PlainFetchFills` | src/upgrade.rs:323-372 | absorbed, a plain fetch leaves its body with an item that held none and whose base named none, or that the hub had not moved, its base at the fetched revision |
| `UpgradeFetch.FetchedIsHeldIff` | src/hub.rs:601-719 | exactly when the item holds the fetched body |
| `UpgradeFetch.EmptiedIsNeverRefilled` | src/hub.rs:617-716 | a run after which the upgrade asks for a body, fetches it and asks again |
| `UpgradeFetch.NeedsBodyIff` | src/upgrade.rs:148-178 | which rows a full upgrade asks for |
| `UpgradeFetch.HydratedAsksNoMore` | src/upgrade.rs:148-178 | a hydrated row is asked for no more |
| `UpgradeFetch.PendingIff` | src/upgrade.rs:148-178 | what is asked for is what was requested, loaded and in need |
| `UpgradeRows.RestatesIff` | src/upgrade.rs:272-294 | when a row is keyed afresh, and what it then forgets |
| `UpgradeRows.NoPushNoLocal` | src/upgrade.rs:458-485 | without content pushes a preference for the local body settles nothing |
| `UpgradeRows.SettledIs` | src/upgrade.rs:486-523 | the row a settle ends with, field by field |
| `UpgradeRows.ReadIs` | src/upgrade.rs:213-263 | the rows a conflict's body leaves when it is read |
| `UpgradeRows.LandedIs` | src/upgrade.rs:561-638 | the row a create lands as, field by field, clean exactly when it owes nothing |
| `UpgradeRows.LandableIff` | src/upgrade.rs:530-547 | the creates an arrival may land: of its hint, never reconciled, at another handle |
| `UpgradeRows.StepCounts` | src/upgrade.rs:181-383 | what each item adds to the counts |
| `UpgradeRows.HitIff` | src/upgrade.rs:700-708 | when a row is linked to a stored body |
| `UpgradeRows.LinkedIs` | src/upgrade.rs:711-720 | a linked row holds the body in full and reads as no edit |
| `UpgradeRows.LinkedOrFetched` | src/upgrade.rs:689-746 | of the rows asked for, each is linked or left to fetch |
| `UpgradeRows.LookupTurns` | src/upgrade.rs:689-746 | what follows a lookup, its counts with it |
| `UpgradeRows.HeldIff` | src/upgrade.rs:435-447 | the bodies the store is asked to verify |
| `UpgradeRows.VerifiedLeaves` | src/upgrade.rs:680-687 | what is missing once the store answered |
| `UpgradeRows.LoadTurns` | src/upgrade.rs:659-678 | what follows a load |
| `UpgradeRows.RaiseTurns` | src/upgrade.rs:387-429 | when the upgrade is done, looks up or fetches |
| `UpgradeRows.LookedUpIff` | src/upgrade.rs:387-429 | the identities looked up |
| `UpgradeRows.CheckedIff` | src/upgrade.rs:755-763 | the identities checked against the collection before one is given |
| `UpgradeRows.FetchTurns` | src/upgrade.rs:748-779 | a fetch that names nothing new is written at once, else its identities are checked first |
| `UpgradeRows.CheckedTurns` | src/upgrade.rs:781-788 | the write once they are checked, and the counts it adds |
| `UpgradeRows.BesideKeeps` | src/upgrade.rs:781-788 | the rows the check found are held beside those loaded |
| `UpgradeRows.ReportsTheWrite` | src/upgrade.rs:790-804 | the report of the acknowledged write |
| `UpgradeSettle.SettleKeepsBodies` | src/upgrade.rs:458-523 | absorbed under every policy: the fetched body is kept; the local one if and only if the policy is not to prefer the remote or the pull tells it apart; a recorded divergence if and only if the policy is not to prefer the remote or the pull takes nothing |
| `UpgradeSettle.SettleLosesNeither` | src/upgrade.rs:458-523 | a base naming a revision other than the fetched one loses neither body under any policy |
| `UpgradeLanding.UnreadLanding` | src/upgrade.rs:561-638 | a landing that read no body leaves a binding conflict at the arrival's revision over a base naming it and no body, the local and the recorded bodies where they were |
| `UpgradeLanding.LandKeepsBodies` | src/upgrade.rs:561-638 | absorbed under every policy: the create's body is kept, and the arrival's when read and other; a recorded divergence if and only if the landing does not read another body and prefer it |
| `UpgradeLanding.FetchStepLands` | src/upgrade.rs:181-383 | over the unlinked row fetched for and the pending create of its hint, the fetch step adds exactly the landing's ops |
| `UpgradeLanding.LandedThenPulledLosesEdit` | src/upgrade.rs:181-638 | for every item added, arrival and fetched body: one upgrade by headers, then one in full at that revision preferring the remote, lose the added body |
| `UpgradeReading.FetchStepReads` | src/upgrade.rs:203-233 | absorbing what the fetch of an item conflict's unread side adds is absorbing the read row |
| `UpgradeReading.ReadKeepsBodies` | src/upgrade.rs:203-233 | absorbed under every policy: the body read is kept; the shared one if and only if the hub had moved or the revisions differ; a recorded one if and only if the item held no other body |
| `UpgradeReading.ReadLosesBoth` | src/upgrade.rs:203-233 | for every edit, other edit and third body: a run under Manual whose read keeps neither edit anywhere |
| `UpgradeSettle.PullIsMerged` | src/hub.rs:601-719 | a pull ends on the merge's body, moves the base, and records the merge's loser and no other |
| `MutateClass.Mutate.Resume` | src/mutate.rs:642-801 | one resume moves the machine and answers as the transition function says, each refusal included |
| `MutateClass.Mutate.TakeRow` | src/mutate.rs:665-762 | the loaded row is weighed, refused or staged |
| `Resolution.EditWritesIff` | src/mutate.rs:695-726 | an edit is staged if and only if its row is there, named, unreplaced, and it overrules or may settle all it meets |
| `Resolution.UnreadIsUnsettled` | src/mutate.rs:357-382 | a conflict whose body was never read is settled by no resolution |
| `Resolution.LoadStatesConflict` | src/hub.rs:269-283 | a load states a row's item conflict, with its diverging body, and no other row's |
| `Resolution.UnnamedConflictWritesNothing` | src/mutate.rs:695-726 | a non-overruling edit that meets an item or binding conflict it does not name stages no write |
| `Resolution.ResolutionSettles` | src/mutate.rs:468-538 | absorbed, a resolution of a live item's conflict leaves the edit's body, both conflicts gone, nothing overruled, and no conflict shown to the source |
| `Resolution.BindingResolutionSettlesIff` | src/mutate.rs:468-538 | absorbed, a resolution of a binding's own conflict clears it, and leaves the item in conflict if and only if it clashes with a body the hub moved to that the policy does not settle; the body it ends on in each case |
| `MutateHub.SetFlagsSets` | src/mutate.rs:429-435 | absorbed, a flag change is the item's flags and nothing else of it or of another, its source shown the row dirty wherever its base holds others |
| `MutateHub.RemoveDeletes` | src/mutate.rs:436-467 | absorbed, a remove deletes the item, its body kept: still bound over the base its conflict or sync left, or unbound when it had none |
| `MutateHub.CreateAsksTarget` | src/mutate.rs:728-753 | a copy or a move it can deliver asks its target first, and else is refused |
| `MutateHub.CopyStagesCreate` | src/mutate.rs:538-594 | a copy writes the create alone: the row's content under a key free in the target |
| `MutateHub.MoveStagesBoth` | src/mutate.rs:543-560 | a move writes that create and the tombstone whose origin names it |
| `MutateHub.MoveDeletes` | src/mutate.rs:543-560 | absorbed, the tombstone of a move deletes its item and touches no other |
| `MutateHub.CreateArrives` | src/mutate.rs:569-594 | absorbed by the target's hub, the create is there, live, bearing what it delivers |
| `MutateHub.AddStages` | src/mutate.rs:600-664 | an add is refused exactly when a live row holds its identity, and else stages its body and its create |
| `MutateHub.EditedIs` | src/mutate.rs:468-538 | the row an edit writes, field by field |
| `MutateHub.EditOpsAre` | src/mutate.rs:515-537 | the ops of an edit that meets no conflict, and of an overruling one |
| `MutateHub.EditTakenIff` | src/hub.rs:601-719 | absorbed, an edit that meets no conflict is taken if and only if its body was held, or is not the one last synced and nothing contests it |
| `MutateHub.UndoIsNotTaken` | src/hub.rs:617-716 | for every synced body and edit of it not yet pushed, the edit back is not taken and nothing records it |
| `MutateHub.RefusedWith` | src/mutate.rs:665-735 | each refusal of a mutation, in order |
| `MutateHub.UnstatedConflictWritesNothing` | src/mutate.rs:706-726 | an edit that overrules nothing never passes a conflict the load shows and does not state |
| `MutateHub.FindRowIff` | src/mutate.rs:665-676 | a handle is known exactly when a row of the load bears it |
| `MutateHub.MaySettleIff` | src/mutate.rs:372-382 | what a resolution may settle |
| `MutateHub.AsksFirst` | src/mutate.rs:193-202 | a mutation loads no more than it edits |
| `MutateHub.ReportsTheWrite` | src/mutate.rs:783-795 | the report of the acknowledged write, each body it set aside in it |
| `UpgradeRuns.AtMostOneWrite` | src/upgrade.rs:645-811 | over every sequence of resumes of an upgrade, one write at most |
| `UpgradeRuns.ErrorStaysPut` | src/upgrade.rs:806-809 | a resume that errs leaves the machine as it was |
| `MutateRuns.AtMostOneWrite` | src/mutate.rs:642-801 | over every sequence of resumes of a mutation, one write at most |
| `MutateRuns.RefusalStagesNothing` | src/mutate.rs:642-801 | a refusal stages no write and leaves the machine but for the conflict it saw |
| `MutateRuns.RefusalsLeaveNoTrace` | src/mutate.rs:642-801 | after any run of refusals, a load is answered exactly as a first one is |
| `Base32.Encode` | src/hash.rs:69-89 | for every byte string the loop with its truncating sixteen-bit buffer writes the unpadded encoding of section 6 of RFC 4648: ceil(8n/5) letters worth the bytes times the padding |
| `Base32.Emit` | src/hash.rs:78-81 | letters written and bits owed stay worth the bytes read |
| `Base32.Shift` | src/hash.rs:76-77 | the truncation of the shift loses no bit still owed |
| `Base32.DigestIsNamed` | src/object.rs:27-41 | a digest of 32 bytes always gets a well-formed name |
| `Base32.DecodeInverts` | src/hash.rs:69-89 | decoding a name gives back its digest |
| `Base32.NameIsUnique` | src/hash.rs:69-89 | a digest has one name |
| `Scopes.CoversContains` | src/collection.rs:94-118 | covering implies containment for every date, none and empty included |
| `Scopes.ContainsIff` | src/collection.rs:94-101 | the undated are in every scope, the dated between the bounds it has |
| `Scopes.CoversIff` | src/collection.rs:105-118 | a scope covers an inhabited one if and only if it holds every text the other holds and is not floored at the empty text over an open floor |
| `Scopes.BandTiles` | src/collection.rs:125-180 | a dated message is in the span if and only if it is in the old scope or in the band, and never in both |
| `Scopes.SpanCovers` | src/collection.rs:125-180 | the span covers the scope wanted and the old one |
| `Scopes.BandNoneByBounds` | src/collection.rs:125-180 | for all scopes, no band if and only if covered, reaching out on both sides, or apart |
| `Scopes.BandNoneIff` | src/collection.rs:120-180 | the same of inhabited scopes in the texts they hold: inside, out on both sides, or a text left between them, a floor at the empty text counting as one |
| `Fnv.Digest.Field` | src/change.rs:232-239 | the loop folds the field and its closing zero byte |
| `Fnv.Digest.Opt` | src/change.rs:242-247 | presence is keyed on its own |
| `Fnv.Digest.Set` | src/change.rs:260-268 | the count, then each flag in code point order |
| `Fnv.Digest.FlagSet` | src/change.rs:251-256 | an unknown set is keyed apart from a known one |
| `Fnv.Key` | src/change.rs:155-204 | the key is sixteen hexadecimal digits of the fold over the change's stream |
| `Fnv.StepInjective` | src/change.rs:232-239 | each fold step tells two states and two bytes apart, modulo 2^64 |
| `Fnv.OneByteChangesKey` | src/change.rs:223-272 | streams of equal length that differ in exactly one byte never get one key |
| `ChangeStream.StreamNamesTarget` | src/change.rs:155-204 | with no zero byte in a field, two streams are equal if and only if collection, handle, kind and target state are |
| `ChangeStream.StreamInjective` | src/change.rs:232-239 | a stream of fields free of zero bytes splits back in one way |
| `ChangeStream.SetReads` | src/change.rs:260-268 | the decimal count says where a flag set ends, so what follows is never taken for a flag |
| `ChangeStream.NulMovesBoundary` | src/change.rs:232-239 | a zero byte inside a field lets two changes share a stream |
| `ChangeSpelling.StreamSpelled` | src/change.rs:155-204 | the stream of an update and of a remove, to the last byte |
| `ChangeSpelling.StreamOpens` | src/change.rs:165-171 | collection, handle and kind open every stream |
| `ChangeSpelling.FlagsSpelled` | src/change.rs:249-268 | a flag set as its count and its flags in order, an unread one as `unknown` |
| `ChangeSpelling.DecimalReads` | src/change.rs:258-262 | the count is decimal and reads back |
| `ChangeSpelling.IsFnv1a` | src/change.rs:223-239 | the constants of FNV-1a, and the byte mixed in before the multiplication |
| `ChangeSpelling.KeyReads` | src/change.rs:270-272 | a key is sixteen lowercase hexadecimal digits and reads back as the digest |
| `Codec.ActionToPayload` | src/codec.rs:332-398 | the map filled member by member is the action's payload |
| `Codec.Hashes` | src/codec.rs:616-640 | the loop accepts what the reader does, with the first error it meets |
| `Codec.FlagSet` | src/codec.rs:644-668 | the loop accepts what the reader does, any order |
| `Codec.NamesTrip` | src/codec.rs:616-640 | an array of names is read if and only if non-empty, distinct and all well-formed, and then as it was |
| `Codec.FlagsTrip` | src/codec.rs:644-668 | a flag set is read back if and only if known and made of valid flags |
| `Codec.RoundTrip` | src/codec.rs:332-497 | for every store-defined action, decoding its encoding succeeds if and only if it is well-formed, and then gives that action |
| `Codec.StrictRead` | src/codec.rs:410-497 | whatever is accepted is a well-formed action of the kind, and encoding it again gives the payload with its flags in order: nothing dropped, nothing invented |

## Modelling choices

- A text stands for its UTF-8 bytes, one character a byte, so the order on texts is the byte
  order the source's ordered maps use. Integers are unbounded; the sixteen-bit buffer of
  base32 and the sixty-four bits of FNV-1a are written out.
- A storage's answers (loads, pages, fetches, lookups, the held bodies it misses) and the
  origin of a create or a tombstone are parameters. The origin resolver is a pure function.
- `rebinding` is keyed by the link alone, since one batch is one source's.
- Library sorts, filters, partitions and set differences the source calls are functions here;
  loops the source writes are loops.
- A summary keeps the parts the engine reads; its other fields are one opaque part.
- What a source's acceptance of a push writes (Quiescence) is taken from src/sync.rs:2017-2264,
  the mass-absence guard from src/sync.rs:237-241. A row dirty in content and flags is accepted
  in one batch, where the source leaves the flag push to the next sync (src/sync.rs:2206-2210);
  `Quiescence.FlagsMayWait` shows the hub ends alike.

## Left out

- The sync verb itself (src/sync.rs): its pages, heads, scopes and merge; only its acceptance writes and its guard are modelled.
- Storage, locking, transactions, blob files and refcounts (src/client.rs, src/client/, src/sql.rs).
- The command line, logging, error messages and codes.
- Summary derivation, search folding and Unicode normalisation: summaries and sort keys are opaque.
- BLAKE3 and JSON text parsing: a digest is any byte string, a payload a parsed value, so a payload that is no JSON text at all is not modelled.
- The readers of the intent kinds (src/intent.rs): `CodecModel.Decode` takes what they find wrong as a parameter.
- Column encodings of flags, levels and policies (src/codec.rs:30-113): easy tables.
- Capability gating, security, references and opening: table lookups.
- Round and coverage records in a batch are one op the hub passes by.
- FlagConvergence: a source's flag push is taken to reach its server whole; a rejected push is not modelled.
- Quiescence: every push is taken to be accepted, as the property asks; rejections are not modelled.
- Scopes.BandNoneIff: speaks of scopes that hold some text, an empty one saying nothing in texts; Scopes.BandNoneByBounds states the condition for every scope.
