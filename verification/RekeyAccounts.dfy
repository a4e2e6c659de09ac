/** Every old row and every staged edit is accounted for by a rebuild, once. */
module RekeyAccounts {
  import opened Wrappers
  import opened Text
  import opened Entities
  import opened RekeyModel
  import opened RekeyIdentity

  // ---------- One carried row ----------

  /** A staged edit rides along whole: carried live or conflicted, never pulled over. */
  lemma CarryKeepsEdit(c: Collection, row: Placement, item: RemoteItem, reading: Option<Reading>)
    requires Edited(row)
    ensures var p := Carry(c, row, item, reading);
      && p.body == row.body && p.link == row.link && p.handle == item.handle
      && (p.status.Dirty? || p.status.Conflict?)
      && (RemoteEdited(row, item, reading) ==> p.status.Conflict? && p.conflictRevision == Observed(item, reading))
  {
  }

  /**
    A carried base claims no revision it never reconciled: it keeps the revision and body it
    held, or it moves to the observed revision naming no body, the local one gone with it.
  */
  lemma CarriedBaseIsHonest(c: Collection, row: Placement, item: RemoteItem, reading: Option<Reading>)
    ensures var p := Carry(c, row, item, reading);
      && p.base.Some? && p.base.value.flags == item.flags
      && ((p.base.value.revision == row.BaseRevision() && p.base.value.body == row.BaseBody() && p.body == row.body)
          || (p.base.value.revision == Observed(item, reading) && RemoteEdited(row, item, reading)
              && p.base.value.body.None? && p.body.None?))
  {
  }

  /** A delete still pending stays pending unless the remote edited the member past its base. */
  lemma CarriedDelete(c: Collection, row: Placement, item: RemoteItem, reading: Option<Reading>)
    ensures Carry(c, row, item, reading).status.Tombstone? <==>
      row.status.Tombstone? && !RemoteEdited(row, item, reading)
  {
  }

  // ---------- Fates ----------

  /** The loaded rows a rebuild replaces, each under a handle and an identity of its own. */
  ghost predicate Loaded(rows: seq<Placement>) {
    LinksDistinct(rows) && HandlesDistinct(Filter(IsSpine, rows))
  }

  lemma CarriedByHandle(
      c: Collection, rows: seq<Placement>, listed: seq<RemoteItem>, readings: map<Handle, Reading>, p: Placement)
    requires Loaded(rows) && p in Filter(IsSpine, rows)
    ensures var w := Walked(c, rows, listed, readings);
      p.handle in CarriedHandles(w.entries) <==> CarriedIn(w.entries, p)
  {
    WalkedKeeps(c, rows, listed, readings);
    var w, spine := Walked(c, rows, listed, readings), Filter(IsSpine, rows);
    if p.handle in CarriedHandles(w.entries) {
      var e :| e in w.entries && e.row.Some? && e.row.value.handle == p.handle;
      var i :| 0 <= i < |w.entries| && w.entries[i] == e;
      assert EntryKeyed(LinksOf(Filter(IsStaged, rows)), spine, w.claimed, e);
      OneRowAHandle(spine, p, e.row.value);
    }
    if CarriedIn(w.entries, p) {
      var i :| 0 <= i < |w.entries| && w.entries[i].row == Some(p);
      assert w.entries[i] in w.entries;
    }
  }

  /** A row is restaged exactly when it holds an edit and no member carried it. */
  lemma RestagedIffLeftBehind(
      c: Collection, rows: seq<Placement>, listed: seq<RemoteItem>, readings: map<Handle, Reading>, p: Placement)
    requires Loaded(rows) && p in Filter(IsSpine, rows)
    ensures var w := Walked(c, rows, listed, readings);
      && (p in LeftOf(rows, w).rows <==> Edited(p) && !CarriedIn(w.entries, p))
      && (p.handle in LeftOf(rows, w).moved <==> p in LeftOf(rows, w).rows && p.link.Some?)
      && (p.handle in LeftOf(rows, w).carried <==> CarriedIn(w.entries, p) || p in LeftOf(rows, w).rows)
  {
    var w, spine := Walked(c, rows, listed, readings), Filter(IsSpine, rows);
    var carried := CarriedHandles(w.entries);
    CarriedByHandle(c, rows, listed, readings, p);
    LeftAllKeeps(carried, spine);
    var left := LeftOf(rows, w);
    forall q | q in left.rows && q.handle == p.handle
      ensures q == p
    {
      var i :| 0 <= i < |left.rows| && left.rows[i] == q;
      OneRowAHandle(spine, p, q);
    }
    if p in left.rows {
      var i :| 0 <= i < |left.rows| && left.rows[i] == p;
    }
  }

  // ---------- Drops ----------

  predicate Spared(left: Left, inPlace: set<Handle>, p: Placement) {
    p.handle in inPlace && p.handle !in left.moved
  }

  lemma {:induction false} DropsMembers(
      c: Collection, left: Left, inPlace: set<Handle>, spine: seq<Placement>, op: WriteOp)
    ensures op in DropsOf(c, left, inPlace, spine) <==>
      exists p :: p in spine && !Spared(left, inPlace, p) && op == Drop(c, p.handle, ReasonOf(left, p.handle))
  {
    if spine != [] {
      var init, last := spine[..|spine| - 1], spine[|spine| - 1];
      assert spine == init + [last];
      DropsMembers(c, left, inPlace, init, op);
    }
  }

  /** Drops and nothing else, no handle twice. */
  ghost predicate DropEachOnce(ops: seq<WriteOp>) {
    && (forall i :: 0 <= i < |ops| ==> ops[i].Drop?)
    && (forall i, j :: 0 <= i < j < |ops| ==> ops[i].handle != ops[j].handle)
  }

  lemma {:induction false} DropsDistinct(c: Collection, left: Left, inPlace: set<Handle>, spine: seq<Placement>)
    requires HandlesDistinct(spine)
    ensures DropEachOnce(DropsOf(c, left, inPlace, spine))
  {
    if spine != [] {
      var init, last := spine[..|spine| - 1], spine[|spine| - 1];
      DropsDistinct(c, left, inPlace, init);
      var drops, all := DropsOf(c, left, inPlace, init), DropsOf(c, left, inPlace, spine);
      if all != drops {
        assert all == drops + [Drop(c, last.handle, ReasonOf(left, last.handle))];
        forall i | 0 <= i < |drops|
          ensures all[i].Drop? && all[i].handle != last.handle
        {
          assert drops[i] in drops;
          DropsMembers(c, left, inPlace, init, drops[i]);
          var p :| p in init && drops[i] == Drop(c, p.handle, ReasonOf(left, p.handle));
          var k :| 0 <= k < |init| && init[k] == p;
          assert spine[k] == p;
        }
      }
    }
  }

  /** The drops a rebuild opens its batch with. */
  function Drops(
      c: Collection, rows: seq<Placement>, listed: seq<RemoteItem>, readings: map<Handle, Reading>): seq<WriteOp> {
    var w := Walked(c, rows, listed, readings);
    DropsOf(c, LeftOf(rows, w), InPlace(w.entries), Filter(IsSpine, rows))
  }

  /** Carried onto the very handle it held. */
  ghost predicate CarriedInPlace(entries: seq<Entry>, p: Placement) {
    exists i :: 0 <= i < |entries| && entries[i].row == Some(p) && entries[i].member.handle == p.handle
  }

  lemma InPlaceByHandle(
      c: Collection, rows: seq<Placement>, listed: seq<RemoteItem>, readings: map<Handle, Reading>, p: Placement)
    requires Loaded(rows) && p in Filter(IsSpine, rows)
    ensures var w := Walked(c, rows, listed, readings);
      p.handle in InPlace(w.entries) <==> CarriedInPlace(w.entries, p)
  {
    WalkedKeeps(c, rows, listed, readings);
    var w, spine := Walked(c, rows, listed, readings), Filter(IsSpine, rows);
    if p.handle in InPlace(w.entries) {
      var e :| e in w.entries && e.row.Some? && e.row.value.handle == e.member.handle && e.row.value.handle == p.handle;
      var i :| 0 <= i < |w.entries| && w.entries[i] == e;
      assert EntryKeyed(LinksOf(Filter(IsStaged, rows)), spine, w.claimed, e);
      OneRowAHandle(spine, p, e.row.value);
    }
    if CarriedInPlace(w.entries, p) {
      var i :| 0 <= i < |w.entries| && w.entries[i].row == Some(p) && w.entries[i].member.handle == p.handle;
      assert w.entries[i] in w.entries;
    }
  }

  /**
    What the drop of a row's handle says of it: nothing when it was carried in place, a
    rename when it was carried or restaged, and a delete exactly when it was neither.
  */
  lemma DropSaysFate(
      c: Collection, rows: seq<Placement>, listed: seq<RemoteItem>, readings: map<Handle, Reading>, p: Placement,
      reason: DropReason)
    requires Loaded(rows) && p in Filter(IsSpine, rows)
    ensures var w := Walked(c, rows, listed, readings);
      Drop(c, p.handle, reason) in Drops(c, rows, listed, readings) <==>
      match reason
      case Superseded => p in LeftOf(rows, w).rows && p.link.Some?
      case Rekeyed => (CarriedIn(w.entries, p) && !CarriedInPlace(w.entries, p))
        || (p in LeftOf(rows, w).rows && p.link.None?)
      case Deleted => !CarriedIn(w.entries, p) && p !in LeftOf(rows, w).rows
  {
    var w, spine := Walked(c, rows, listed, readings), Filter(IsSpine, rows);
    var left, inPlace := LeftOf(rows, w), InPlace(w.entries);
    RestagedIffLeftBehind(c, rows, listed, readings, p);
    InPlaceByHandle(c, rows, listed, readings, p);
    hide Walked, LeftOf, InPlace, CarriedIn;
    var op := Drop(c, p.handle, reason);
    DropsMembers(c, left, inPlace, spine, op);
    if op in Drops(c, rows, listed, readings) {
      var q :| q in spine && !Spared(left, inPlace, q) && op == Drop(c, q.handle, ReasonOf(left, q.handle));
      OneRowAHandle(spine, p, q);
    }
    assert CarriedInPlace(w.entries, p) ==> CarriedIn(w.entries, p) by {
      InPlaceIsCarried(w.entries, p);
    }
  }

  lemma InPlaceIsCarried(entries: seq<Entry>, p: Placement)
    ensures CarriedInPlace(entries, p) ==> CarriedIn(entries, p)
  {
  }

  lemma CarriedOnce(
      c: Collection, rows: seq<Placement>, listed: seq<RemoteItem>, readings: map<Handle, Reading>, i: nat, j: nat)
    requires Loaded(rows)
    requires var entries := Walked(c, rows, listed, readings).entries; i < j < |entries| && entries[i].row.Some?
    ensures var entries := Walked(c, rows, listed, readings).entries; entries[i].row != entries[j].row
  {
    WalkedKeeps(c, rows, listed, readings);
    var w, spine := Walked(c, rows, listed, readings), Filter(IsSpine, rows);
    assert EntryKeyed(LinksOf(Filter(IsStaged, rows)), spine, w.claimed, w.entries[i]);
    assert EntryKeyed(LinksOf(Filter(IsStaged, rows)), spine, w.claimed, w.entries[j]);
  }

  /**
    Every old row that is no pending create meets exactly one fate: a member carries it, or
    its edit is restaged, or its handle is dropped as deleted. No handle is dropped twice.
  */
  lemma RowsAccounted(
      c: Collection, rows: seq<Placement>, listed: seq<RemoteItem>, readings: map<Handle, Reading>, p: Placement)
    requires Loaded(rows) && p in rows && !p.status.Created?
    ensures var w, drops := Walked(c, rows, listed, readings), Drops(c, rows, listed, readings);
      var carried, restaged, gone :=
        CarriedIn(w.entries, p), p in LeftOf(rows, w).rows, Drop(c, p.handle, Deleted) in drops;
      && (carried || restaged || gone) && !(carried && restaged) && !(carried && gone) && !(restaged && gone)
      && DropEachOnce(drops)
      && (forall i, j :: 0 <= i < j < |w.entries| && w.entries[i].row == Some(p) ==> w.entries[j].row != Some(p))
  {
    var w := Walked(c, rows, listed, readings);
    assert p in Filter(IsSpine, rows);
    RestagedIffLeftBehind(c, rows, listed, readings, p);
    DropSaysFate(c, rows, listed, readings, p, Deleted);
    FilterKeepsDistinct(IsSpine, rows);
    DropsDistinct(c, LeftOf(rows, w), InPlace(w.entries), Filter(IsSpine, rows));
    assert DropEachOnce(Drops(c, rows, listed, readings));
    hide Walked, LeftOf, CarriedIn, Drops, DropEachOnce;
    forall i, j | 0 <= i < j < |w.entries| && w.entries[i].row == Some(p)
      ensures w.entries[j].row != Some(p)
    {
      CarriedOnce(c, rows, listed, readings, i, j);
    }
  }

  /** The report counts each member and each restaged edit once. */
  lemma ReportAddsUp(
      c: Collection, rows: seq<Placement>, listed: seq<RemoteItem>, readings: map<Handle, Reading>,
      checkpoint: Option<Checkpoint>)
    requires LinksDistinct(rows)
    ensures var r, w := Rebuild(c, rows, listed, readings, checkpoint), Walked(c, rows, listed, readings);
      r.rekeyed + r.pulled == |Members(listed)| + |LeftOf(rows, w).rows|
  {
    WalkedKeeps(c, rows, listed, readings);
  }

  // ---------- Staged edits ----------

  ghost predicate Bears(ups: seq<Placement>, i: nat, p: Placement) {
    i < |ups| && ups[i].link == p.link && ups[i].body == p.body
  }

  /** No staged edit is lost: one upsert bears it, and no other upsert bears its identity. */
  lemma EditsSurvive(
      c: Collection, rows: seq<Placement>, listed: seq<RemoteItem>, readings: map<Handle, Reading>, p: Placement)
      returns (i: nat)
    requires Loaded(rows) && p in Filter(IsSpine, rows) && Edited(p)
    ensures var w := Walked(c, rows, listed, readings);
      var ups := Upserted(w, LeftOf(rows, w));
      && Bears(ups, i, p) && (ups[i].status.Dirty? || ups[i].status.Conflict? || ups[i].status.Created?)
      && (p.link.Some? ==> forall j :: 0 <= j < |ups| && ups[j].link == p.link ==> j == i)
  {
    hide Walked, Filter, LeftOf, Edited;
    var w := Walked(c, rows, listed, readings);
    var left := LeftOf(rows, w);
    RestagedIffLeftBehind(c, rows, listed, readings, p);
    IdentitiesHandedOnce(c, rows, listed, readings);
    if CarriedIn(w.entries, p) {
      i :| 0 <= i < |w.entries| && w.entries[i].row == Some(p);
      CarriedUpsert(c, rows, listed, readings, i);
      CarryKeepsEdit(c, p, w.entries[i].member, ReadingOf(readings, w.entries[i].member.handle));
      UpsertAt(w, left, i);
    } else {
      var k :| 0 <= k < |left.rows| && left.rows[k] == p;
      i := |w.entries| + k;
      UpsertAt(w, left, i);
    }
  }

  lemma {:induction false} WalkUpserts(
      c: Collection, readings: map<Handle, Reading>, w: Walk, items: seq<RemoteItem>, i: nat)
    requires |w.entries| <= i < |WalkAll(c, readings, w, items).entries|
    ensures var e := WalkAll(c, readings, w, items).entries[i];
      && i - |w.entries| < |items| && e.member == items[i - |w.entries|]
      && (e.row.Some? ==> e.upsert == Carry(c, e.row.value, e.member, ReadingOf(readings, e.member.handle)))
      && (e.row.None? ==> exists key :: e.upsert == Fresh(c, e.member, ReadingOf(readings, e.member.handle), key))
    decreases |items|
  {
    if items != [] {
      var init, last := items[..|items| - 1], items[|items| - 1];
      WalkLength(c, readings, w, init);
      hide KeyOf, Carry, Fresh;
      var was := WalkAll(c, readings, w, init);
      if i < |was.entries| {
        WalkUpserts(c, readings, w, init, i);
      }
    }
  }

  lemma {:induction false} WalkLength(c: Collection, readings: map<Handle, Reading>, w: Walk, items: seq<RemoteItem>)
    ensures |WalkAll(c, readings, w, items).entries| == |w.entries| + |items|
    ensures w.entries <= WalkAll(c, readings, w, items).entries
  {
    if items != [] {
      WalkLength(c, readings, w, items[..|items| - 1]);
    }
  }

  /** What each entry of a rebuild upserts: its row carried, or its member fresh. */
  lemma CarriedUpsert(
      c: Collection, rows: seq<Placement>, listed: seq<RemoteItem>, readings: map<Handle, Reading>, i: nat)
    requires i < |Walked(c, rows, listed, readings).entries|
    ensures var e := Walked(c, rows, listed, readings).entries[i];
      && i < |Members(listed)| && e.member == Members(listed)[i]
      && (e.row.Some? ==> e.upsert == Carry(c, e.row.value, e.member, ReadingOf(readings, e.member.handle)))
      && (e.row.None? ==> exists key :: e.upsert == Fresh(c, e.member, ReadingOf(readings, e.member.handle), key))
  {
    var spine := Filter(IsSpine, rows);
    var from := Walk(LinksOf(Filter(IsStaged, rows)), RowsByLink(spine), []);
    WalkUpserts(c, readings, from, Members(listed), i);
  }
}
