/** What a rebuild keeps: one identity an item, and every old row and staged edit accounted for. */
module RekeyIdentity {
  import opened Wrappers
  import opened Text
  import opened Entities
  import opened Keys
  import opened RekeyModel

  // ---------- Loaded rows ----------

  /** Each identity is loaded once. */
  ghost predicate LinksDistinct(rows: seq<Placement>) {
    forall i, j :: 0 <= i < j < |rows| && rows[i].link.Some? ==> rows[i].link != rows[j].link
  }

  ghost predicate HandlesDistinct(rows: seq<Placement>) {
    forall i, j :: 0 <= i < j < |rows| ==> rows[i].handle != rows[j].handle
  }

  lemma OneRowALink(rows: seq<Placement>, p: Placement, q: Placement)
    requires LinksDistinct(rows) && p in rows && q in rows
    ensures p.link.Some? && p.link == q.link ==> p == q
  {
    var i :| 0 <= i < |rows| && rows[i] == p;
    var j :| 0 <= j < |rows| && rows[j] == q;
  }

  lemma OneRowAHandle(rows: seq<Placement>, p: Placement, q: Placement)
    requires HandlesDistinct(rows) && p in rows && q in rows
    ensures p.handle == q.handle ==> p == q
  {
    var i :| 0 <= i < |rows| && rows[i] == p;
    var j :| 0 <= j < |rows| && rows[j] == q;
  }

  lemma {:induction false} FilterKeepsDistinct(keep: Placement -> bool, rows: seq<Placement>)
    ensures LinksDistinct(rows) ==> LinksDistinct(Filter(keep, rows))
    ensures HandlesDistinct(rows) ==> HandlesDistinct(Filter(keep, rows))
  {
    if rows != [] {
      FilterKeepsDistinct(keep, rows[1..]);
      var kept := Filter(keep, rows[1..]);
      forall i | 0 <= i < |kept|
        ensures exists j :: 1 <= j < |rows| && rows[j] == kept[i]
      {
        assert kept[i] in kept;
        var j :| 0 <= j < |rows[1..]| && rows[1..][j] == kept[i];
        assert rows[j + 1] == kept[i];
      }
    }
  }

  lemma {:induction false} RowsByLinkFinds(rows: seq<Placement>)
    requires LinksDistinct(rows)
    ensures Keyed(RowsByLink(rows))
    ensures forall k :: k in RowsByLink(rows) ==> RowsByLink(rows)[k] in rows
    ensures forall p :: p in rows && p.link.Some? ==>
      p.link.value in RowsByLink(rows) && RowsByLink(rows)[p.link.value] == p
  {
    if rows != [] {
      var init, last := rows[..|rows| - 1], rows[|rows| - 1];
      assert rows == init + [last];
      RowsByLinkFinds(init);
    }
  }

  // ---------- The key is always free ----------

  lemma UnclaimedAreFree(hint: LinkId, claimed: set<LinkId>, byLink: ByLink)
    requires Keyed(byLink)
    ensures forall p :: p in Unclaimed(hint, claimed, byLink) ==>
      p.link.Some? && p.link.value in byLink && byLink[p.link.value] == p && p.link.value !in claimed
  {
    SortBySorts(HandleOf, Filter((p: Placement) => p.link.Some? && p.link.value !in claimed, Copies(hint, byLink)));
  }

  lemma MintedAreOld(hint: LinkId, byLink: ByLink)
    requires Keyed(byLink)
    ensures forall p :: p in MintedCopies(hint, byLink) ==>
      p.link.Some? && p.link.value in byLink && byLink[p.link.value] == p
  {
    SortBySorts(HandleOf, Filter((p: Placement) => p.link != Some(hint), Copies(hint, byLink)));
  }

  lemma RecognisedIsUnclaimed(revision: Option<Revision>, body: Option<Hash>, unclaimed: seq<Placement>)
    ensures Recognised(revision, body, unclaimed).Some? ==> Recognised(revision, body, unclaimed).value in unclaimed
  {
    var byRevision := AtRevision(revision, unclaimed);
    var pool := if byRevision == [] then unclaimed else byRevision;
    var byBody := WithBody(body, pool);
    if byBody != [] {
      assert byBody[0] in byBody && byBody[0] in pool;
    } else if byRevision != [] {
      assert byRevision[0] in byRevision;
    }
  }

  lemma RecognisedIsFree(
      hint: LinkId, revision: Option<Revision>, body: Option<Hash>, claimed: set<LinkId>, byLink: ByLink)
    requires Keyed(byLink)
    ensures var r := Recognised(revision, body, Unclaimed(hint, claimed, byLink));
      r.Some? ==> r.value.link.Some? && r.value.link.value !in claimed
  {
    UnclaimedAreFree(hint, claimed, byLink);
    hide Unclaimed, Recognised;
    RecognisedIsUnclaimed(revision, body, Unclaimed(hint, claimed, byLink));
  }

  lemma FirstMintIsOld(hint: LinkId, byLink: ByLink)
    requires Keyed(byLink)
    ensures var minted := MintedCopies(hint, byLink);
      minted != [] ==> minted[0].link.Some? && minted[0].link.value in byLink
  {
    MintedAreOld(hint, byLink);
    hide MintedCopies;
    var minted := MintedCopies(hint, byLink);
    if minted != [] {
      assert minted[0] in minted;
    }
  }

  /** Whatever way it is found, a member's key is one no other claimed. */
  lemma KeyIsFree(
      hint: LinkId, handle: Handle, revision: Option<Revision>, body: Option<Hash>, claimed: set<LinkId>,
      byLink: ByLink)
    requires Keyed(byLink) && claimed !! byLink.Keys
    ensures KeyOf(hint, handle, revision, body, claimed, byLink) !in claimed
  {
    RecognisedIsFree(hint, revision, body, claimed, byLink);
    FirstMintIsOld(hint, byLink);
    hide Unclaimed, MintedCopies, Recognised, Claim, Keyed;
  }

  lemma RecognisedByRevision(revision: Revision, body: Option<Hash>, unclaimed: seq<Placement>, copy: Placement)
    requires copy in unclaimed && copy.BaseRevision() == Some(revision)
    ensures var r := Recognised(Some(revision), body, unclaimed);
      r.Some? && r.value in unclaimed && r.value.BaseRevision() == Some(revision)
  {
    var byRevision := AtRevision(Some(revision), unclaimed);
    assert copy in byRevision;
    var byBody := WithBody(body, byRevision);
    if byBody != [] {
      assert byBody[0] in byBody && byBody[0] in byRevision;
    } else {
      assert byRevision[0] in byRevision;
    }
  }

  /**
    A member that states a revision some unclaimed copy of its identity last synced is given
    such a copy, so resources a renumbering swapped under one identity keep their own state.
  */
  lemma KeyFollowsRevision(
      hint: LinkId, handle: Handle, revision: Revision, body: Option<Hash>, claimed: set<LinkId>, byLink: ByLink,
      copy: Placement)
    requires Keyed(byLink) && copy in Unclaimed(hint, claimed, byLink) && copy.BaseRevision() == Some(revision)
    ensures var key := KeyOf(hint, handle, Some(revision), body, claimed, byLink);
      key in byLink && byLink[key].BaseRevision() == Some(revision) && key !in claimed
  {
    UnclaimedAreFree(hint, claimed, byLink);
    hide Unclaimed, Recognised;
    RecognisedByRevision(revision, body, Unclaimed(hint, claimed, byLink), copy);
  }

  // ---------- The walk ----------

  ghost predicate EntryKeyed(staged: set<LinkId>, spine: seq<Placement>, claimed: set<LinkId>, e: Entry) {
    && e.upsert.handle == e.member.handle
    && (e.upsert.link.Some? ==> e.upsert.link.value in claimed && e.upsert.link.value !in staged)
    && (e.row.Some? ==> e.row.value in spine && e.row.value.link.Some? && e.upsert.link == e.row.value.link)
    && (e.row.None? && e.upsert.link.Some? ==> e.upsert.link.value !in LinksOf(spine))
  }

  ghost predicate CarriedIn(entries: seq<Entry>, p: Placement) {
    exists i :: 0 <= i < |entries| && entries[i].row == Some(p)
  }

  ghost predicate EntriesDistinct(entries: seq<Entry>) {
    forall i, j :: 0 <= i < j < |entries| && entries[i].upsert.link.Some? ==>
      entries[i].upsert.link != entries[j].upsert.link
  }

  ghost predicate RowsFound(spine: seq<Placement>, byLink: ByLink, entries: seq<Entry>) {
    forall p :: p in spine && p.link.Some? ==> p.link.value in byLink || CarriedIn(entries, p)
  }

  /** Claimed keys and the rows still to be found never meet, so no key is handed out twice. */
  ghost predicate WalkInv(staged: set<LinkId>, spine: seq<Placement>, w: Walk) {
    && Keyed(w.byLink) && w.claimed !! w.byLink.Keys && staged <= w.claimed
    && (forall k :: k in w.byLink ==> w.byLink[k] in spine)
    && (forall i :: 0 <= i < |w.entries| ==> EntryKeyed(staged, spine, w.claimed, w.entries[i]))
    && EntriesDistinct(w.entries)
    && RowsFound(spine, w.byLink, w.entries)
  }

  lemma CarriedGrows(entries: seq<Entry>, e: Entry, p: Placement)
    ensures CarriedIn(entries, p) ==> CarriedIn(entries + [e], p)
    ensures e.row == Some(p) ==> CarriedIn(entries + [e], p)
  {
    var more := entries + [e];
    if CarriedIn(entries, p) {
      var i :| 0 <= i < |entries| && entries[i].row == Some(p);
      assert more[i].row == Some(p);
    }
    assert more[|entries|] == e;
  }

  /** An old row's key is claimed or still to be found: a fresh member's key is neither. */
  lemma OldKeyIsKnown(staged: set<LinkId>, spine: seq<Placement>, w: Walk, key: LinkId)
    requires WalkInv(staged, spine, w)
    ensures key in LinksOf(spine) ==> key in w.claimed || key in w.byLink
  {
    if key in LinksOf(spine) {
      var p :| p in spine && p.link == Some(key);
      if CarriedIn(w.entries, p) {
        var i :| 0 <= i < |w.entries| && w.entries[i].row == Some(p);
        assert EntryKeyed(staged, spine, w.claimed, w.entries[i]);
      }
    }
  }

  lemma EntriesGrow(staged: set<LinkId>, spine: seq<Placement>, w: Walk, e: Entry, key: LinkId)
    requires WalkInv(staged, spine, w) && key !in w.claimed && e.upsert.link == Some(key)
    requires EntryKeyed(staged, spine, w.claimed + {key}, e)
    ensures EntriesDistinct(w.entries + [e])
    ensures forall i :: 0 <= i <= |w.entries| ==> EntryKeyed(staged, spine, w.claimed + {key}, (w.entries + [e])[i])
  {
    forall i | 0 <= i < |w.entries|
      ensures EntryKeyed(staged, spine, w.claimed + {key}, w.entries[i]) && w.entries[i].upsert.link != Some(key)
    {
      assert EntryKeyed(staged, spine, w.claimed, w.entries[i]);
    }
  }

  /** Taking one key out of the rows to be found, its row goes to the entry that took it. */
  lemma RowsStillFound(spine: seq<Placement>, byLink: ByLink, entries: seq<Entry>, e: Entry, taken: set<LinkId>)
    requires LinksDistinct(spine) && Keyed(byLink) && RowsFound(spine, byLink, entries)
    requires forall k :: k in byLink ==> byLink[k] in spine
    requires forall k :: k in taken && k in byLink ==> e.row == Some(byLink[k])
    ensures RowsFound(spine, byLink - taken, entries + [e])
  {
    forall p | p in spine && p.link.Some?
      ensures p.link.value in byLink - taken || CarriedIn(entries + [e], p)
    {
      CarriedGrows(entries, e, p);
      if p.link.value in byLink {
        OneRowALink(spine, p, byLink[p.link.value]);
      }
    }
  }

  lemma WalkStepKeeps(
      c: Collection, readings: map<Handle, Reading>, staged: set<LinkId>, spine: seq<Placement>, w: Walk,
      item: RemoteItem)
    requires LinksDistinct(spine) && WalkInv(staged, spine, w)
    ensures WalkInv(staged, spine, WalkStep(c, readings, w, item))
  {
    hide KeyOf, Carry, Fresh, CarriedIn;
    var w' := WalkStep(c, readings, w, item);
    var e := w'.entries[|w.entries|];
    var reading := ReadingOf(readings, item.handle);
    assert RowsFound(spine, w.byLink, w.entries);
    if reading.Some? {
      var key := MemberKey(w, item, reading.value);
      KeyIsFree(reading.value.link, item.handle, Or(item.revision, reading.value.revision), item.body, w.claimed,
        w.byLink);
      EntryShape(c, item, reading, key, if key in w.byLink then Some(w.byLink[key]) else None);
      RowsStillFound(spine, w.byLink, w.entries, e, {key});
      OldKeyIsKnown(staged, spine, w, key);
      EntriesGrow(staged, spine, w, e, key);
    } else {
      FreshUnread(c, item);
      RowsStillFound(spine, w.byLink, w.entries, e, {});
      assert w.byLink - {} == w.byLink;
      UnkeyedGrows(staged, spine, w, e);
    }
  }

  lemma UnkeyedGrows(staged: set<LinkId>, spine: seq<Placement>, w: Walk, e: Entry)
    requires WalkInv(staged, spine, w) && e.upsert.link.None? && e.row.None? && e.upsert.handle == e.member.handle
    ensures EntriesDistinct(w.entries + [e])
    ensures forall i :: 0 <= i <= |w.entries| ==> EntryKeyed(staged, spine, w.claimed, (w.entries + [e])[i])
  {
  }

  lemma FreshUnread(c: Collection, item: RemoteItem)
    ensures Fresh(c, item, None, None).link == None && Fresh(c, item, None, None).handle == item.handle
  {
  }

  lemma EntryShape(c: Collection, item: RemoteItem, reading: Option<Reading>, key: LinkId, row: Option<Placement>)
    requires row.Some? ==> row.value.link == Some(key)
    ensures row.Some? ==>
      Carry(c, row.value, item, reading).link == Some(key) && Carry(c, row.value, item, reading).handle == item.handle
    ensures Fresh(c, item, reading, Some(key)).link == Some(key)
      && Fresh(c, item, reading, Some(key)).handle == item.handle
  {
  }

  lemma {:induction false} WalkAllKeeps(
      c: Collection, readings: map<Handle, Reading>, staged: set<LinkId>, spine: seq<Placement>, w: Walk,
      items: seq<RemoteItem>)
    requires LinksDistinct(spine) && WalkInv(staged, spine, w)
    ensures WalkInv(staged, spine, WalkAll(c, readings, w, items))
    ensures |WalkAll(c, readings, w, items).entries| == |w.entries| + |items|
  {
    if items != [] {
      var init := items[..|items| - 1];
      WalkAllKeeps(c, readings, staged, spine, w, init);
      WalkStepKeeps(c, readings, staged, spine, WalkAll(c, readings, w, init), items[|items| - 1]);
    }
  }

  /** A row of the spine is no pending create's identity. */
  lemma SpineKeysNotPending(rows: seq<Placement>, p: Placement)
    requires LinksDistinct(rows) && p in Filter(IsSpine, rows) && p.link.Some?
    ensures p.link.value !in LinksOf(Filter(IsStaged, rows))
  {
    forall q | q in Filter(IsStaged, rows)
      ensures q.link != p.link
    {
      OneRowALink(rows, p, q);
    }
  }

  /** The walk of a whole rebuild ends with its invariant. */
  lemma WalkedKeeps(c: Collection, rows: seq<Placement>, listed: seq<RemoteItem>, readings: map<Handle, Reading>)
    requires LinksDistinct(rows)
    ensures LinksDistinct(Filter(IsSpine, rows))
    ensures WalkInv(LinksOf(Filter(IsStaged, rows)), Filter(IsSpine, rows), Walked(c, rows, listed, readings))
    ensures |Walked(c, rows, listed, readings).entries| == |Members(listed)|
  {
    var staged, spine := LinksOf(Filter(IsStaged, rows)), Filter(IsSpine, rows);
    FilterKeepsDistinct(IsSpine, rows);
    RowsByLinkFinds(spine);
    forall k | k in RowsByLink(spine)
      ensures k !in staged
    {
      SpineKeysNotPending(rows, RowsByLink(spine)[k]);
    }
    WalkAllKeeps(c, readings, staged, spine, Walk(staged, RowsByLink(spine), []), Members(listed));
  }

  // ---------- What is restaged ----------

  ghost predicate LeftInv(carried: set<Handle>, spine: seq<Placement>, left: Left) {
    && (forall i :: 0 <= i < |left.rows| ==>
        left.rows[i] in spine && Edited(left.rows[i]) && left.rows[i].handle !in carried)
    && HandlesDistinct(left.rows)
    && left.carried == carried + (set p | p in left.rows :: p.handle)
    && left.moved == (set p | p in left.rows && p.link.Some? :: p.handle)
    && (forall p :: p in spine && Edited(p) ==> p.handle in left.carried)
  }

  lemma {:induction false} LeftAllKeeps(carried: set<Handle>, spine: seq<Placement>)
    ensures LeftInv(carried, spine, LeftAll(Left(carried, {}, []), spine))
  {
    if spine != [] {
      var init, p := spine[..|spine| - 1], spine[|spine| - 1];
      assert spine == init + [p];
      LeftAllKeeps(carried, init);
      var was := LeftAll(Left(carried, {}, []), init);
      var left := LeftStep(was, p);
      if !(p.handle in was.carried || !Edited(p)) {
        assert left.rows == was.rows + [p];
        forall i | 0 <= i < |was.rows|
          ensures was.rows[i].handle != p.handle
        {
          assert was.rows[i] in was.rows;
        }
        assert left.carried == carried + (set q | q in left.rows :: q.handle);
        assert left.moved == (set q | q in left.rows && q.link.Some? :: q.handle);
      }
    }
  }

  /** A member under an old row's key carries that row. */
  lemma SharedKeyIsCarried(
      c: Collection, rows: seq<Placement>, listed: seq<RemoteItem>, readings: map<Handle, Reading>, i: nat,
      p: Placement)
    requires LinksDistinct(rows) && p in Filter(IsSpine, rows)
    requires i < |Walked(c, rows, listed, readings).entries|
    ensures var e := Walked(c, rows, listed, readings).entries[i];
      e.upsert.link.Some? && e.upsert.link == p.link ==>
        e.row == Some(p) && p.handle in CarriedHandles(Walked(c, rows, listed, readings).entries)
  {
    WalkedKeeps(c, rows, listed, readings);
    var w, spine := Walked(c, rows, listed, readings), Filter(IsSpine, rows);
    var e := w.entries[i];
    assert EntryKeyed(LinksOf(Filter(IsStaged, rows)), spine, w.claimed, e);
    if e.row.Some? {
      OneRowALink(spine, e.row.value, p);
      assert e in w.entries;
    }
  }

  /** A restaged row shares its key with no member: it would have been carried. */
  lemma RestagedKeysApart(
      c: Collection, rows: seq<Placement>, listed: seq<RemoteItem>, readings: map<Handle, Reading>, i: nat, j: nat)
    requires LinksDistinct(rows)
    requires var w := Walked(c, rows, listed, readings);
      i < |w.entries| && j < |LeftOf(rows, w).rows| && w.entries[i].upsert.link.Some?
    ensures var w := Walked(c, rows, listed, readings);
      w.entries[i].upsert.link != LeftOf(rows, w).rows[j].link
  {
    var w, spine := Walked(c, rows, listed, readings), Filter(IsSpine, rows);
    LeftAllKeeps(CarriedHandles(w.entries), spine);
    SharedKeyIsCarried(c, rows, listed, readings, i, LeftOf(rows, w).rows[j]);
  }

  lemma UpsertAt(w: Walk, left: Left, i: nat)
    requires i < |Upserted(w, left)|
    ensures |Upserted(w, left)| == |w.entries| + |left.rows|
    ensures Upserted(w, left)[i] ==
      if i < |w.entries| then w.entries[i].upsert else Restaged(left.rows[i - |w.entries|])
  {
  }

  lemma KeysApart(
      c: Collection, rows: seq<Placement>, listed: seq<RemoteItem>, readings: map<Handle, Reading>, i: nat, j: nat)
    requires LinksDistinct(rows)
    requires var w := Walked(c, rows, listed, readings);
      i < j < |Upserted(w, LeftOf(rows, w))| && Upserted(w, LeftOf(rows, w))[i].link.Some?
    ensures var w := Walked(c, rows, listed, readings);
      Upserted(w, LeftOf(rows, w))[i].link != Upserted(w, LeftOf(rows, w))[j].link
  {
    WalkedKeeps(c, rows, listed, readings);
    var w, spine := Walked(c, rows, listed, readings), Filter(IsSpine, rows);
    var left := LeftOf(rows, w);
    LeftAllKeeps(CarriedHandles(w.entries), spine);
    UpsertAt(w, left, i);
    UpsertAt(w, left, j);
    hide Walked, LeftOf, Upserted;
    if i < |w.entries| <= j {
      RestagedKeysApart(c, rows, listed, readings, i, j - |w.entries|);
    } else if |w.entries| <= i {
      OneRowALink(spine, left.rows[i - |w.entries|], left.rows[j - |w.entries|]);
    }
  }

  lemma KeyIsNotPending(
      c: Collection, rows: seq<Placement>, listed: seq<RemoteItem>, readings: map<Handle, Reading>, i: nat)
    requires LinksDistinct(rows)
    requires var w := Walked(c, rows, listed, readings);
      i < |Upserted(w, LeftOf(rows, w))| && Upserted(w, LeftOf(rows, w))[i].link.Some?
    ensures var w := Walked(c, rows, listed, readings);
      Upserted(w, LeftOf(rows, w))[i].link.value !in LinksOf(Filter(IsStaged, rows))
  {
    WalkedKeeps(c, rows, listed, readings);
    var w, spine := Walked(c, rows, listed, readings), Filter(IsSpine, rows);
    var left := LeftOf(rows, w);
    LeftAllKeeps(CarriedHandles(w.entries), spine);
    UpsertAt(w, left, i);
    hide Walked, LeftOf, Upserted;
    if i < |w.entries| {
      assert EntryKeyed(LinksOf(Filter(IsStaged, rows)), spine, w.claimed, w.entries[i]);
    } else {
      SpineKeysNotPending(rows, left.rows[i - |w.entries|]);
    }
  }

  /**
    Each identity is handed out once: the upserts of a rebuild name pairwise distinct items,
    none of them a pending create the rebuild leaves where it is.
  */
  lemma IdentitiesHandedOnce(
      c: Collection, rows: seq<Placement>, listed: seq<RemoteItem>, readings: map<Handle, Reading>)
    requires LinksDistinct(rows)
    ensures var w := Walked(c, rows, listed, readings);
      var ups := Upserted(w, LeftOf(rows, w));
      && (forall i, j :: 0 <= i < j < |ups| && ups[i].link.Some? ==> ups[i].link != ups[j].link)
      && (forall i :: 0 <= i < |ups| && ups[i].link.Some? ==> ups[i].link.value !in LinksOf(Filter(IsStaged, rows)))
  {
    hide Walked, LeftOf, Upserted;
    var w := Walked(c, rows, listed, readings);
    var ups := Upserted(w, LeftOf(rows, w));
    forall i, j | 0 <= i < j < |ups| && ups[i].link.Some?
      ensures ups[i].link != ups[j].link
    {
      KeysApart(c, rows, listed, readings, i, j);
    }
    forall i | 0 <= i < |ups| && ups[i].link.Some?
      ensures ups[i].link.value !in LinksOf(Filter(IsStaged, rows))
    {
      KeyIsNotPending(c, rows, listed, readings, i);
    }
  }
}
