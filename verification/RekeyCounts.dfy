/** The counts of a rebuild: what its report says of each row, and when its guard parks it. */
module RekeyCounts {
  import opened Wrappers
  import opened Entities
  import opened Text
  import opened RekeyModel
  import opened RekeyIdentity
  import opened RekeyAccounts
  import opened Coroutine
  import opened Runs
  import R = RekeyClass

  // ---------- The report ----------

  lemma {:induction false} CountIsHandles(entries: seq<Entry>)
    requires forall i, j :: 0 <= i < j < |entries| && entries[i].row.Some? && entries[j].row.Some? ==>
      entries[i].row.value.handle != entries[j].row.value.handle
    ensures CarriedCount(entries) == |CarriedHandles(entries)|
  {
    if entries != [] {
      var init, last := entries[..|entries| - 1], entries[|entries| - 1];
      CountIsHandles(init);
      assert entries == init + [last];
      if last.row.Some? {
        assert CarriedHandles(entries) == CarriedHandles(init) + {last.row.value.handle};
        assert last.row.value.handle !in CarriedHandles(init);
      } else {
        assert CarriedHandles(entries) == CarriedHandles(init);
      }
    }
  }

  lemma CarriedHandlesApart(
      c: Collection, rows: seq<Placement>, listed: seq<RemoteItem>, readings: map<Handle, Reading>, i: nat, j: nat)
    requires RekeyAccounts.Loaded(rows)
    requires var entries := Walked(c, rows, listed, readings).entries;
      i < j < |entries| && entries[i].row.Some? && entries[j].row.Some?
    ensures var entries := Walked(c, rows, listed, readings).entries;
      entries[i].row.value.handle != entries[j].row.value.handle
  {
    hide Walked, LinksDistinct, HandlesDistinct;
    var w, spine := Walked(c, rows, listed, readings), Filter(IsSpine, rows);
    CarriedOnce(c, rows, listed, readings, i, j);
    WalkedKeeps(c, rows, listed, readings);
    assert EntryKeyed(LinksOf(Filter(IsStaged, rows)), spine, w.claimed, w.entries[i]);
    assert EntryKeyed(LinksOf(Filter(IsStaged, rows)), spine, w.claimed, w.entries[j]);
    OneRowAHandle(spine, w.entries[i].row.value, w.entries[j].row.value);
  }

  /** The row met none of its fates but the last: no member carried it and no edit restaged it. */
  predicate Gone(left: Left, p: Placement) {
    p.handle !in left.carried
  }

  /**
    The report, count by count: `rekeyed` the old handles a member carried and the edits
    restaged, `pulled` the members that carried none, `dropped` the rows that owed something
    and are gone.
  */
  lemma ReportSplits(
      c: Collection, rows: seq<Placement>, listed: seq<RemoteItem>, readings: map<Handle, Reading>,
      checkpoint: Option<Checkpoint>)
    requires RekeyAccounts.Loaded(rows)
    ensures var r, w := Rebuild(c, rows, listed, readings, checkpoint), Walked(c, rows, listed, readings);
      var left, carried := LeftOf(rows, w), CarriedHandles(w.entries);
      && r.rekeyed == |carried| + |left.rows|
      && |carried| <= |Members(listed)| && r.pulled == |Members(listed)| - |carried|
      && r.dropped == |Filter((p: Placement) => IsSpine(p) && !p.status.Clean? && Gone(left, p), rows)|
  {
    hide Walked, LeftOf;
    var w := Walked(c, rows, listed, readings);
    var left := LeftOf(rows, w);
    WalkedKeeps(c, rows, listed, readings);
    forall i, j | 0 <= i < j < |w.entries| && w.entries[i].row.Some? && w.entries[j].row.Some?
      ensures w.entries[i].row.value.handle != w.entries[j].row.value.handle
    {
      CarriedHandlesApart(c, rows, listed, readings, i, j);
    }
    CountIsHandles(w.entries);
    FilterTwice(IsLost(left), rows, (p: Placement) => IsSpine(p) && !p.status.Clean? && Gone(left, p));
  }

  lemma {:induction false} FilterTwice(lost: Placement -> bool, rows: seq<Placement>, both: Placement -> bool)
    requires forall p :: both(p) <==> IsSpine(p) && lost(p)
    ensures Filter(lost, Filter(IsSpine, rows)) == Filter(both, rows)
  {
    if rows != [] {
      FilterTwice(lost, rows[1..], both);
      if IsSpine(rows[0]) {
        var rest := Filter(IsSpine, rows[1..]);
        assert Filter(IsSpine, rows) == [rows[0]] + rest;
        assert ([rows[0]] + rest)[1..] == rest;
      }
    }
  }

  // ---------- The guard ----------

  /** The based rows of the spine that are gone, which the guard counts. */
  function GoneBased(rows: seq<Placement>, left: Left, spine: seq<Placement>): seq<Placement> {
    Filter((p: Placement) => p.handle in BasedHandles(rows) && Gone(left, p), spine)
  }

  lemma {:induction false} FilterConcat<T(!new)>(keep: T -> bool, a: seq<T>, b: seq<T>)
    ensures Filter(keep, a + b) == Filter(keep, a) + Filter(keep, b)
  {
    if a == [] {
      assert a + b == b;
    } else {
      assert (a + b)[1..] == a[1..] + b;
      FilterConcat(keep, a[1..], b);
    }
  }

  lemma {:induction false} FilterNone<T(!new)>(keep: T -> bool, a: seq<T>)
    requires forall x :: x in a ==> !keep(x)
    ensures Filter(keep, a) == []
  {
    if a != [] {
      assert forall x :: x in a[1..] ==> x in a;
      FilterNone(keep, a[1..]);
    }
  }

  lemma {:induction false} DropsCount(
      c: Collection, rows: seq<Placement>, left: Left, inPlace: set<Handle>, spine: seq<Placement>)
    requires inPlace <= left.carried && left.moved <= left.carried
    ensures |Filter((op: WriteOp) => IsAbsence(BasedHandles(rows), op), DropsOf(c, left, inPlace, spine))| ==
      |GoneBased(rows, left, spine)|
  {
    if spine != [] {
      var init, p := spine[..|spine| - 1], spine[|spine| - 1];
      DropsCount(c, rows, left, inPlace, init);
      var absence := (op: WriteOp) => IsAbsence(BasedHandles(rows), op);
      var gone := (p: Placement) => p.handle in BasedHandles(rows) && Gone(left, p);
      assert spine == init + [p];
      FilterConcat(gone, init, [p]);
      FilterConcat(absence, DropsOf(c, left, inPlace, init), [Drop(c, p.handle, ReasonOf(left, p.handle))]);
    }
  }

  /** What the guard counts as absent: the based rows of the old spine no member and no restaging took up. */
  lemma AbsentCounts(
      c: Collection, rows: seq<Placement>, listed: seq<RemoteItem>, readings: map<Handle, Reading>,
      checkpoint: Option<Checkpoint>)
    ensures var left := LeftOf(rows, Walked(c, rows, listed, readings));
      Absent(rows, Rebuild(c, rows, listed, readings, checkpoint).ops) ==
      |GoneBased(rows, left, Filter(IsSpine, rows))|
  {
    hide Walked;
    var w, spine := Walked(c, rows, listed, readings), Filter(IsSpine, rows);
    var left := LeftOf(rows, w);
    LeftAllKeeps(CarriedHandles(w.entries), spine);
    hide LeftAll, CarriedHandles;
    var absence := (op: WriteOp) => IsAbsence(BasedHandles(rows), op);
    var drops, ups := DropsOf(c, left, InPlace(w.entries), spine), UpsertsOf(Upserted(w, left));
    InPlaceAreCarried(w.entries);
    DropsCount(c, rows, left, InPlace(w.entries), spine);
    FilterConcat(absence, drops + ups, CheckpointOps(c, checkpoint));
    FilterConcat(absence, drops, ups);
    FilterNone(absence, ups);
    FilterNone(absence, CheckpointOps(c, checkpoint));
  }

  /** The handles the guard counts against: those of the rows last reconciled. */
  lemma BasedIff(rows: seq<Placement>, handle: Handle)
    ensures handle in BasedHandles(rows) <==> exists p :: p in rows && p.handle == handle && p.base.Some?
  {
  }

  lemma InPlaceAreCarried(entries: seq<Entry>)
    ensures InPlace(entries) <= CarriedHandles(entries)
  {
  }

  /** More than half of a spine of twenty or more. */
  predicate MassAbsence(absent: nat, bound: nat) {
    bound >= 20 && absent > bound - absent
  }

  /**
    A sound last page ends a rekey in one of two ways: parked, exactly when the caller did
    not accept absences and most of a large spine is gone, or anything is gone and the listing
    named no member; else it writes.
  */
  lemma ParksIff(st: R.State, page: Page)
    requires st.phase.Enumerating? && page.complete && page.last
    ensures var taken := R.Taken(st, page);
      var left := LeftOf(st.rows, Walked(st.collection, st.rows, taken.listed, taken.readings));
      var absent, bound := |GoneBased(st.rows, left, Filter(IsSpine, st.rows))|, |BasedHandles(st.rows)|;
      var parks := !st.acceptAbsences && (MassAbsence(absent, bound) || (taken.listed == [] && absent > 0));
      var turn := R.Resumed(st, Some(Enumerate(Listed(page)))).1;
      && (Writes(turn) <==> !parks)
      && (parks ==> turn == Complete(Ok(R.NO_REPORT.(parked := Some(Parked(absent, bound))))))
  {
    hide Walked, LeftOf, Rebuild, Absent, GoneBased, BasedHandles, R.ReadAll;
    var taken := R.Taken(st, page);
    AbsentCounts(st.collection, st.rows, taken.listed, taken.readings, taken.checkpoint);
  }
}
