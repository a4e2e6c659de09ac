/** Which key a listed member takes, case by case: a row recognised, the hint, an old mint, a new one. */
module RekeyKeys {
  import opened Wrappers
  import opened Entities
  import opened Keys
  import opened Text
  import opened RekeyModel

  /** An old row filed under the hint, or under the mint of the hint over the row's own handle. */
  ghost predicate CopyOf(hint: LinkId, byLink: ByLink, p: Placement) {
    && p.link.Some? && p.link.value in byLink && byLink[p.link.value] == p
    && (p.link.value == hint || p.link.value == "dup:" + hint + "#" + p.handle)
  }

  lemma CopiesIff(hint: LinkId, byLink: ByLink, p: Placement)
    requires Keyed(byLink)
    ensures p in Copies(hint, byLink) <==> CopyOf(hint, byLink, p)
  {
    hide Rows;
    if p in Rows(byLink) {
      var k :| k in byLink && byLink[k] == p;
    }
  }

  /** The copies a member may take up: the unclaimed ones, and no other row. */
  lemma UnclaimedIff(hint: LinkId, claimed: set<LinkId>, byLink: ByLink, p: Placement)
    requires Keyed(byLink)
    ensures p in Unclaimed(hint, claimed, byLink) <==> CopyOf(hint, byLink, p) && p.link.value !in claimed
  {
    CopiesIff(hint, byLink, p);
    hide Copies;
    SortBySorts(HandleOf, Filter((p: Placement) => p.link.Some? && p.link.value !in claimed, Copies(hint, byLink)));
  }

  predicate HoldsBody(p: Placement, body: Hash) {
    p.body == Some(body) || (p.base.Some? && p.base.value.body == Some(body))
  }

  predicate AtRevisionOf(p: Placement, revision: Option<Revision>) {
    revision.Some? && p.base.Some? && p.base.value.revision == revision
  }

  lemma FirstOf(keep: Placement -> bool, pool: seq<Placement>)
    ensures Filter(keep, pool) != [] ==> Filter(keep, pool)[0] in pool && keep(Filter(keep, pool)[0])
    ensures Filter(keep, pool) == [] <==> forall p :: p in pool ==> !keep(p)
  {
    var f := Filter(keep, pool);
    if f != [] {
      assert f[0] in f;
    }
  }

  /**
    The row recognised among the unclaimed: one at the member's revision when any is, holding
    its body when one of those does; else, with none at the revision, one that holds its body.
  */
  lemma RecognisedIff(revision: Option<Revision>, body: Option<Hash>, pool: seq<Placement>)
    ensures var r := Recognised(revision, body, pool);
      var revised := exists p :: p in pool && AtRevisionOf(p, revision);
      && (r.Some? ==> r.value in pool)
      && (revised ==> r.Some? && AtRevisionOf(r.value, revision))
      && (revised && body.Some? && (exists p :: p in pool && AtRevisionOf(p, revision) && HoldsBody(p, body.value)) ==>
          HoldsBody(r.value, body.value))
      && (!revised ==> (r.Some? <==> body.Some? && exists p :: p in pool && HoldsBody(p, body.value)))
      && (!revised && r.Some? ==> HoldsBody(r.value, body.value))
  {
    var byRevision := AtRevision(revision, pool);
    FirstOf((p: Placement) => p.BaseRevision() == revision, pool);
    var narrowed := if byRevision == [] then pool else byRevision;
    FirstOf((p: Placement) => p.BaseBody() == body || p.body == body, narrowed);
    assert forall p :: AtRevisionOf(p, revision) <==> revision.Some? && p.BaseRevision() == revision;
    assert body.Some? ==> forall p :: HoldsBody(p, body.value) <==> p.BaseBody() == body || p.body == body;
    assert revision.Some? ==> forall p :: p in byRevision <==> p in pool && AtRevisionOf(p, revision);
  }

  /** A member a row is recognised for takes that row's key. */
  lemma KeyIsRecognised(
      hint: LinkId, handle: Handle, revision: Option<Revision>, body: Option<Hash>, claimed: set<LinkId>,
        byLink: ByLink)
    requires Keyed(byLink) && Recognised(revision, body, Unclaimed(hint, claimed, byLink)).Some?
    ensures var row := Recognised(revision, body, Unclaimed(hint, claimed, byLink)).value;
      row.link == Some(KeyOf(hint, handle, revision, body, claimed, byLink)) && CopyOf(hint, byLink, row)
  {
    var unclaimed := Unclaimed(hint, claimed, byLink);
    RecognisedIff(revision, body, unclaimed);
    UnclaimedIff(hint, claimed, byLink, Recognised(revision, body, unclaimed).value);
    hide Unclaimed, Recognised;
  }

  lemma MintedIff(hint: LinkId, byLink: ByLink, p: Placement)
    requires Keyed(byLink)
    ensures p in MintedCopies(hint, byLink) <==> CopyOf(hint, byLink, p) && p.link != Some(hint)
  {
    hide Copies, CopyOf;
    CopiesIff(hint, byLink, p);
    SortBySorts(HandleOf, Filter((p: Placement) => p.link != Some(hint), Copies(hint, byLink)));
  }

  lemma MintedInOrder(hint: LinkId, byLink: ByLink)
    ensures SortedBy(HandleOf, MintedCopies(hint, byLink))
  {
    SortBySorts(HandleOf, Filter((p: Placement) => p.link != Some(hint), Copies(hint, byLink)));
  }

  /** One no row is recognised for takes the hint while free, then an old copy's mint, then a mint of its own. */
  lemma KeyOtherwise(
      hint: LinkId, handle: Handle, revision: Option<Revision>, body: Option<Hash>, claimed: set<LinkId>,
        byLink: ByLink)
    requires Keyed(byLink) && Recognised(revision, body, Unclaimed(hint, claimed, byLink)).None?
    ensures var key := KeyOf(hint, handle, revision, body, claimed, byLink);
      var minted := exists p :: CopyOf(hint, byLink, p) && p.link != Some(hint);
      && (hint !in claimed ==> key == hint)
      && (hint in claimed && minted ==>
          && key in byLink && key != hint && CopyOf(hint, byLink, byLink[key])
          && forall p :: CopyOf(hint, byLink, p) && p.link != Some(hint) ==> AtMost(byLink[key].handle, p.handle))
      && (hint in claimed && !minted ==> key == Claim(hint, handle, claimed + byLink.Keys))
  {
    hide MintedCopies, Unclaimed, Recognised, Claim;
    forall p
      ensures p in MintedCopies(hint, byLink) <==> CopyOf(hint, byLink, p) && p.link != Some(hint)
    {
      MintedIff(hint, byLink, p);
    }
    var minted := MintedCopies(hint, byLink);
    MintedInOrder(hint, byLink);
    FirstIsLeast(minted);
    if minted != [] {
      assert minted[0] in minted;
    }
  }

  lemma FirstIsLeast(rows: seq<Placement>)
    requires SortedBy(HandleOf, rows)
    ensures forall p :: p in rows ==> AtMost(rows[0].handle, p.handle)
  {
    forall p | p in rows
      ensures AtMost(rows[0].handle, p.handle)
    {
      var i :| 0 <= i < |rows| && rows[i] == p;
      LessIrreflexive(rows[0].handle);
      assert i > 0 ==> AtMost(HandleOf(rows[0]), HandleOf(rows[i]));
    }
  }

  /** The members walked: every handle listed, each once, in order, as some listing of it said. */
  lemma MembersIff(listed: seq<RemoteItem>)
    ensures forall m :: m in Members(listed) ==> m in listed
    ensures forall handle :: HasKey(MemberHandle, Members(listed), handle) <==> HasKey(MemberHandle, listed, handle)
    ensures StrictlyBy(MemberHandle, Members(listed))
  {
    var sorted := SortBy(MemberHandle, listed);
    SortBySorts(MemberHandle, listed);
    DedupByKeys(MemberHandle, sorted);
    forall handle
      ensures HasKey(MemberHandle, Members(listed), handle) <==> HasKey(MemberHandle, listed, handle)
    {
      DedupByCovers(MemberHandle, sorted, handle);
      SameKeys(sorted, listed, handle);
      SameKeys(listed, sorted, handle);
    }
  }

  lemma SameKeys(a: seq<RemoteItem>, b: seq<RemoteItem>, handle: Handle)
    requires forall m :: m in a ==> m in b
    ensures HasKey(MemberHandle, a, handle) ==> HasKey(MemberHandle, b, handle)
  {
    if i :| 0 <= i < |a| && MemberHandle(a[i]) == handle {
      assert a[i] in a && a[i] in b;
      var j :| 0 <= j < |b| && b[j] == a[i];
      assert MemberHandle(b[j]) == handle;
    }
  }
}
