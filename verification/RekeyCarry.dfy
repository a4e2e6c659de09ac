/** What a rebuild carries of a row besides its body: its flags, its status, and what each still owes. */
module RekeyCarry {
  import opened Wrappers
  import opened Entities
  import opened Text
  import opened FlagMerge
  import opened RekeyModel
  import opened RekeyIdentity
  import opened RekeyAccounts
  import opened RekeyHub
  import Hub = HubModel
  import Described = HubDescription

  /** A mark of the merge: the local side's where it changed it, else the remote's. */
  lemma MergedMark(base: Flags, local: Flags, remote: Flags, mark: string)
    requires local.Known? && remote.Known?
    ensures Merge(base, local, remote).Known?
    ensures var was := base.Known? && mark in base.marks;
      mark in Merge(base, local, remote).marks <==>
      if (mark in local.marks) != was then mark in local.marks else mark in remote.marks
  {
  }

  /** The delete a remote edit revived. */
  predicate Revived(row: Placement, item: RemoteItem, reading: Option<Reading>) {
    row.status.Tombstone? && RemoteEdited(row, item, reading)
  }

  predicate WasMarked(row: Placement, mark: string) {
    row.base.Some? && row.base.value.flags.Known? && mark in row.base.value.flags.marks
  }

  /** A pending flag change survives the renumbering, and a listed one is taken where none is pending. */
  lemma CarriedMark(c: Collection, row: Placement, item: RemoteItem, reading: Option<Reading>, mark: string)
    requires row.flags.Known? && item.flags.Known? && !Revived(row, item, reading)
    ensures var p := Carry(c, row, item, reading);
      && p.flags.Known?
      && (mark in p.flags.marks <==>
          if (mark in row.flags.marks) != WasMarked(row, mark)
          then mark in row.flags.marks
          else mark in item.flags.marks)
  {
    MergedMark(if row.base.Some? then row.base.value.flags else NO_FLAGS, row.flags, item.flags, mark);
    hide Merge;
  }

  /** Flags nobody read are no opinion: the other side's stand. */
  lemma CarriedUnread(c: Collection, row: Placement, item: RemoteItem, reading: Option<Reading>)
    ensures var p := Carry(c, row, item, reading);
      && (row.flags.Unknown? || Revived(row, item, reading) ==> p.flags == item.flags)
      && (item.flags.Unknown? && !Revived(row, item, reading) ==> p.flags == row.flags)
  {
  }

  /** A carried row is clean exactly when it owes nothing: the flags listed, no edit, no conflict, no delete. */
  lemma CarriedCleanIff(c: Collection, row: Placement, item: RemoteItem, reading: Option<Reading>)
    requires !Revived(row, item, reading)
    ensures var p := Carry(c, row, item, reading);
      p.status.Clean? <==>
      && !row.status.Conflict? && !row.status.Tombstone? && p.flags == item.flags
      && !(row.StagedEdit() && (row.status.Dirty? || RemoteEdited(row, item, reading)))
  {
  }

  /** The rest of a carried row: a pull is emptied and below full, anything else as it was, on its new handle. */
  lemma CarriedRest(c: Collection, row: Placement, item: RemoteItem, reading: Option<Reading>)
    ensures var p, pulled := Carry(c, row, item, reading), RemoteEdited(row, item, reading) && !row.status.Conflict? &&
        (row.status.Tombstone? || !row.StagedEdit());
      && p.collection == c && p.handle == item.handle && p.link == row.link
      && p.body == (if pulled then None else row.body) && p.level == (if pulled then Meta else row.level)
      && p.origin == (if Revived(row, item, reading) then None else row.origin)
      && p.sortKey == (if reading.Some? then reading.value.sortKey else row.sortKey)
      && p.summary == WithoutBody(row.summary, if reading.Some? then reading.value.summary else None,
                                  row.body.Some? && !RemoteEdited(row, item, reading))
      && (row.status.Conflict? ==>
          p.conflictRevision == (if row.conflictRevision.Some? || RemoteEdited(row, item, reading)
                                 then Observed(item, reading) else None))
      && (p.conflictBody.Some? ==> p.conflictBody == row.conflictBody && p.conflictRevision == row.conflictRevision)
      && (row.status.Conflict? && Observed(item, reading) == row.conflictRevision && row.conflictRevision.Some? ==>
          p.conflictRevision == row.conflictRevision && p.conflictBody == row.conflictBody)
  {
  }

  /** The revision a member was seen at, its listing's or what was read of it: an edit when the base holds another. */
  lemma RemoteEditedIff(row: Placement, item: RemoteItem, reading: Option<Reading>)
    ensures var seen :=
        if item.revision.Some? then item.revision else if reading.Some? then reading.value.revision else None;
      && Observed(item, reading) == seen
      && (RemoteEdited(row, item, reading) <==>
          seen.Some? && !(row.base.Some? && row.base.value.revision == seen))
  {
  }

  /** A restaged row is a create of its identity, its content untouched and nothing of its old sync left. */
  lemma RestagedIs(p: Placement)
    requires p.link.Some?
    ensures Restaged(p) == Placement(
      p.collection, ['\U{0001}'] + p.link.value, p.link, p.body, p.level, p.summary, p.sortKey, p.flags,
      Created, None, None, None, None)
  {
  }

  /** A rebuild's batch: every drop before every upsert, and the checkpoint, when one was handed, last of all. */
  lemma BatchOrder(
      c: Collection, rows: seq<Placement>, listed: seq<RemoteItem>, readings: map<Handle, Reading>,
      checkpoint: Option<Checkpoint>, i: nat, j: nat)
    requires var ops := Rebuild(c, rows, listed, readings, checkpoint).ops; i < |ops| && j < |ops|
    ensures var ops := Rebuild(c, rows, listed, readings, checkpoint).ops;
      && (ops[i].Drop? && ops[j].Upsert? ==> i < j)
      && (ops[i].SetCheckpoint? <==> checkpoint.Some? && i == |ops| - 1)
      && (ops[i].SetCheckpoint? ==> ops[i] == SetCheckpoint(c, checkpoint.value))
      && (ops[i].Drop? || ops[i].Upsert? || ops[i].SetCheckpoint?)
  {
    hide Walked, LeftOf, Upserted;
    var w := Walked(c, rows, listed, readings);
    DropsAreDrops(c, LeftOf(rows, w), InPlace(w.entries), Filter(IsSpine, rows));
    hide DropsOf, UpsertsOf;
  }

  lemma {:induction false} DropsAreDrops(c: Collection, left: Left, inPlace: set<Handle>, spine: seq<Placement>)
    ensures forall i :: 0 <= i < |DropsOf(c, left, inPlace, spine)| ==> DropsOf(c, left, inPlace, spine)[i].Drop?
  {
    if spine != [] {
      DropsAreDrops(c, left, inPlace, spine[..|spine| - 1]);
    }
  }

  /** A member no row is found for is pulled as listed, clean, its body still to be read. */
  lemma FreshIsListed(c: Collection, item: RemoteItem, reading: Option<Reading>, key: Option<LinkId>)
    ensures var p := Fresh(c, item, reading, key);
      && p.status.Clean? && p.handle == item.handle && p.link == key && p.body.None? && p.level.Meta?
      && p.flags == item.flags && p.base == Some(Base(item.flags, item.revision, None))
      && (reading.Some? ==> p.summary == reading.value.summary && p.sortKey == reading.value.sortKey)
  {
  }

  // ---------- Through the hub ----------

  function Brought(items: map<LinkId, Hub.Item>, p: Placement): Flags
    requires p.link.Some?
  {
    if p.flags.Unknown? && p.link.value in items then items[p.link.value].flags else p.flags
  }

  lemma UpsertSetsFlags(h: Hub.HubState, s: Source, p: Placement)
    requires p.link.Some?
    ensures p.link.value in Hub.AbsorbUpsert(h, s, p).items
    ensures Hub.AbsorbUpsert(h, s, p).items[p.link.value].flags == Brought(h.items, p)
  {
    if !p.status.Tombstone? {
      hide Hub.AbsorbUpsert;
      Described.DescribedIff(h, s, p);
    }
  }

  lemma {:induction false} UpsertsSetFlags(h: Hub.HubState, s: Source, ups: seq<Placement>, i: nat)
    requires NamedOnce(ups) && i < |ups|
    ensures var h' := Hub.AbsorbOps(h, s, UpsertsOf(ups));
      ups[i].link.value in h'.items && h'.items[ups[i].link.value].flags == Brought(h.items, ups[i])
  {
    hide Hub.AbsorbUpsert;
    var init, last := ups[..|ups| - 1], ups[|ups| - 1];
    assert UpsertsOf(ups)[..|ups| - 1] == UpsertsOf(init);
    var h1 := Hub.AbsorbOps(h, s, UpsertsOf(init));
    if i < |init| {
      UpsertsSetFlags(h, s, init, i);
      UpsertOnItem(h1, s, last);
    } else {
      UpsertsOnItems(h, s, init);
      assert Unnamed(init, last.link.value);
      assert SameAt(h.items, h1.items, last.link.value);
      UpsertSetsFlags(h1, s, last);
    }
  }

  lemma EmptiedKeepsFlags(run: Run, link: LinkId)
    requires run.Valid()
    ensures link in run.h.items <==> link in Emptied(run).items
    ensures link in run.h.items ==> Emptied(run).items[link].flags == run.h.items[link].flags
  {
    RowsAreLoaded(run);
    DropsDistinct(run.c, run.Left(), InPlace(run.Walk().entries), Filter(IsSpine, run.Rows()));
    var drops := Drops(run.c, run.Rows(), run.listed, run.readings);
    DropsKeepKeys(run.h, run.s, drops);
    hide Walked, LeftOf, Hub.Project, Hub.AbsorbOps, Drops;
    if link in run.h.items {
      var item := run.h.items[link];
      DropsOnItem(run.h, run.s, drops, link);
      if i :| 0 <= i < |drops| && Hub.BoundAt(item, run.s, drops[i].handle) {
        assert Emptied(run).items[link] == Hub.Unbound(item, run.s, drops[i].reason);
      }
    }
  }

  lemma {:induction false} DropsKeepKeys(h: Hub.HubState, s: Source, drops: seq<WriteOp>)
    requires DropEachOnce(drops)
    ensures Hub.AbsorbOps(h, s, drops).items.Keys == h.items.Keys
  {
    if drops != [] {
      DropsKeepKeys(h, s, drops[..|drops| - 1]);
    }
  }

  /** Whatever a rebuild upserts, its item ends with that upsert's flags, or its own where those are unread. */
  lemma RekeyedFlags(run: Run, i: nat)
    requires run.Valid() && i < |run.Ups()|
    ensures var p, items := run.Ups()[i], run.After().items;
      && p.link.Some? && p.link.value in items
      && items[p.link.value].flags == Brought(run.h.items, p)
  {
    hide Walked, LeftOf, Upserted, Hub.Project, Hub.AbsorbOps, Rebuild;
    RunNamesOnce(run);
    RunSplits(run);
    EmptiedKeepsFlags(run, run.Ups()[i].link.value);
    UpsertsSetFlags(Emptied(run), run.s, run.Ups(), i);
  }

  /**
    Absorbed, a rebuild leaves each carried item's marks as the two sides moved them: the
    item's own where it had changed one since the base, the listing's everywhere else.
  */
  lemma RekeyedMark(run: Run, p: Placement, i: nat, mark: string)
    requires run.Valid() && i < |run.Walk().entries| && run.Walk().entries[i].row == Some(p) && p in run.Rows()
    requires var member := run.Walk().entries[i].member;
      && p.flags.Known? && member.flags.Known? && !Revived(p, member, ReadingOf(run.readings, member.handle))
    ensures var member, items := run.Walk().entries[i].member, run.After().items;
      && p.link.Some? && p.link.value in items && items[p.link.value].flags.Known?
      && (mark in items[p.link.value].flags.marks <==>
          if (mark in p.flags.marks) != WasMarked(p, mark) then mark in p.flags.marks else mark in member.flags.marks)
  {
    hide Walked, LeftOf, Upserted, Hub.Project, Hub.Absorb, Rebuild, Carry, Revived, WasMarked;
    var e := run.Walk().entries[i];
    RowIsBound(run, p);
    UpsertsLength(run.Walk(), run.Left());
    UpsertAt(run.Walk(), run.Left(), i);
    CarriedUpsert(run.c, run.Rows(), run.listed, run.readings, i);
    CarriedMark(run.c, p, e.member, ReadingOf(run.readings, e.member.handle), mark);
    CarriedLink(run.c, p, e.member, ReadingOf(run.readings, e.member.handle));
    RekeyedFlags(run, i);
  }

  lemma CarriedLink(c: Collection, row: Placement, item: RemoteItem, reading: Option<Reading>)
    ensures Carry(c, row, item, reading).link == row.link
  {
  }
}
