/** An upgrade hands out identities once, and the order a fetch reports in leaves no trace. */
module UpgradeIdentity {
  import opened Wrappers
  import opened Text
  import opened Entities
  import opened Keys
  import opened Coroutine
  import opened UpgradeModel
  import U = UpgradeClass

  /** Rows under their own handles, each identity held once. */
  ghost predicate LoadedApart(rows: Rows) {
    && (forall h :: h in rows ==> rows[h].handle == h)
    && (forall g, h :: g in rows && h in rows && rows[g].link.Some? && rows[g].link == rows[h].link ==> g == h)
  }

  function Begun(rows: Rows, ops: seq<WriteOp>): Progress {
    Progress(rows, LinksIn(rows), ops, 0, 0)
  }

  function KeyIn(given: Given): set<LinkId> {
    if given.Own? then {} else {given.key}
  }

  /** The keys given to the first items, and those among them that landed a create. */
  function GivenKeys(c: Collection, tier: Tier, opts: Options, st: Progress, items: seq<FetchedItem>): set<LinkId> {
    if items == [] then {}
    else
      var init, last := items[..|items| - 1], items[|items| - 1];
      GivenKeys(c, tier, opts, st, init) + KeyIn(GivenTo(tier, FetchAll(c, tier, opts, st, init), last))
  }

  /** Loaded keys stay claimed; a key given is fresh, or a create's that is held no longer. */
  ghost predicate GivenOnce(loaded: Rows, st: Progress, given: set<LinkId>) {
    && st.rows.Keys <= loaded.Keys && (forall h :: h in st.rows ==> st.rows[h] == loaded[h])
    && LinksIn(loaded) <= st.claimed && given <= st.claimed
    && (forall h :: h in st.rows && st.rows[h].link.Some? ==> st.rows[h].link.value !in given)
  }

  lemma CreateIsHeld(rows: Rows, hint: LinkId, arrived: Handle)
    ensures var creates := PendingCreates(rows, hint, arrived);
      creates != [] ==> creates[0] in rows && IsPendingCreate(rows[creates[0]], hint, arrived)
  {
    var creates := PendingCreates(rows, hint, arrived);
    if creates != [] {
      assert creates[0] in creates;
    }
  }

  /** One more item: its key, if it is given one, is no earlier one's. */
  lemma StepGivesOnce(
      c: Collection, tier: Tier, opts: Options, loaded: Rows, st: Progress, given: set<LinkId>, item: FetchedItem)
    requires LoadedApart(loaded) && GivenOnce(loaded, st, given)
    ensures var g := GivenTo(tier, st, item);
      && KeyIn(g) !! given
      && (g.FreshKey? ==> g.key !in LinksIn(loaded))
      && (g.LandsCreate? ==> g.create in st.rows && IsPendingCreate(loaded[g.create], g.key, item.handle))
      && GivenOnce(loaded, FetchStep(c, tier, opts, st, item), given + KeyIn(g))
  {
    CreateIsHeld(st.rows, item.link, item.handle);
    hide PendingCreates, Claim, LandOps, ConflictStep, Afresh, Described, Hydrated, Refreshed, Keyed;
    var g, st' := GivenTo(tier, st, item), FetchStep(c, tier, opts, st, item);
    StepRows(c, tier, opts, st, item);
    if g.FreshKey? {
      assert g.key !in st.claimed;
    }
  }

  /** A step takes out at most the create it lands, and claims the key it gives. */
  lemma StepRows(c: Collection, tier: Tier, opts: Options, st: Progress, item: FetchedItem)
    ensures var g, st' := GivenTo(tier, st, item), FetchStep(c, tier, opts, st, item);
      && st'.rows == (if g.LandsCreate? then st.rows - {g.create} else st.rows)
      && st'.claimed == st.claimed + KeyIn(g)
  {
    CreateIsHeld(st.rows, item.link, item.handle);
    hide PendingCreates, Claim, LandOps, Afresh, Described, Hydrated, Refreshed, Keyed, SettleOps;
    assert st.claimed + {} == st.claimed;
  }

  lemma {:induction false} BatchGivesOnce(
      c: Collection, tier: Tier, opts: Options, rows: Rows, ops: seq<WriteOp>, items: seq<FetchedItem>)
    requires LoadedApart(rows)
    ensures GivenOnce(rows, FetchAll(c, tier, opts, Begun(rows, ops), items),
      GivenKeys(c, tier, opts, Begun(rows, ops), items))
  {
    if items != [] {
      var init, last := items[..|items| - 1], items[|items| - 1];
      BatchGivesOnce(c, tier, opts, rows, ops, init);
      hide FetchStep, GivenTo;
      StepGivesOnce(c, tier, opts, rows, FetchAll(c, tier, opts, Begun(rows, ops), init),
                    GivenKeys(c, tier, opts, Begun(rows, ops), init), last);
    }
  }

  /** What the `i`-th item in handle order is given. */
  function GivenAt(
      c: Collection, tier: Tier, opts: Options, rows: Rows, ops: seq<WriteOp>, items: seq<FetchedItem>, i: nat): Given
    requires i < |items|
  {
    GivenTo(tier, FetchAll(c, tier, opts, Begun(rows, ops), items[..i]), items[i])
  }

  lemma GivenKeysNext(
      c: Collection, tier: Tier, opts: Options, rows: Rows, ops: seq<WriteOp>, items: seq<FetchedItem>, j: nat)
    requires 0 < j <= |items|
    ensures GivenKeys(c, tier, opts, Begun(rows, ops), items[..j]) ==
      GivenKeys(c, tier, opts, Begun(rows, ops), items[..j - 1])
        + KeyIn(GivenAt(c, tier, opts, rows, ops, items, j - 1))
  {
    assert items[..j][..j - 1] == items[..j - 1];
  }

  lemma {:induction false} GivenKeysGrow(
      c: Collection, tier: Tier, opts: Options, rows: Rows, ops: seq<WriteOp>, items: seq<FetchedItem>, i: nat, j: nat)
    requires i < j <= |items|
    ensures KeyIn(GivenAt(c, tier, opts, rows, ops, items, i)) <= GivenKeys(c, tier, opts, Begun(rows, ops), items[..j])
    decreases j
  {
    hide GivenKeys, GivenAt, Begun, KeyIn;
    GivenKeysNext(c, tier, opts, rows, ops, items, j);
    if i < j - 1 {
      GivenKeysGrow(c, tier, opts, rows, ops, items, i, j - 1);
    }
  }

  /**
    The identities an upgrade gives to unlinked items are pairwise distinct, and none is a
    loaded row's but that of a pending create the item lands, no create landing twice.
  */
  lemma IdentitiesGivenOnce(
      c: Collection, tier: Tier, opts: Options, rows: Rows, ops: seq<WriteOp>, items: seq<FetchedItem>, i: nat, j: nat)
    requires LoadedApart(rows) && i < j < |items|
    ensures var a, b := GivenAt(c, tier, opts, rows, ops, items, i), GivenAt(c, tier, opts, rows, ops, items, j);
      && (!a.Own? && !b.Own? ==> a.key != b.key)
      && (a.LandsCreate? && b.LandsCreate? ==> a.create != b.create)
  {
    BatchGivesOnce(c, tier, opts, rows, ops, items[..i]);
    BatchGivesOnce(c, tier, opts, rows, ops, items[..j]);
    GivenKeysGrow(c, tier, opts, rows, ops, items, i, j);
    hide FetchStep, GivenTo, FetchAll, GivenKeys;
    StepGivesOnce(c, tier, opts, rows, FetchAll(c, tier, opts, Begun(rows, ops), items[..i]),
                  GivenKeys(c, tier, opts, Begun(rows, ops), items[..i]), items[i]);
    StepGivesOnce(c, tier, opts, rows, FetchAll(c, tier, opts, Begun(rows, ops), items[..j]),
                  GivenKeys(c, tier, opts, Begun(rows, ops), items[..j]), items[j]);
  }

  lemma GivenIsFreshOrLands(
      c: Collection, tier: Tier, opts: Options, rows: Rows, ops: seq<WriteOp>, items: seq<FetchedItem>, i: nat)
    requires LoadedApart(rows) && i < |items|
    ensures var g := GivenAt(c, tier, opts, rows, ops, items, i);
      && (g.FreshKey? ==> g.key !in LinksIn(rows))
      && (g.LandsCreate? ==> g.create in rows && IsPendingCreate(rows[g.create], g.key, items[i].handle))
  {
    BatchGivesOnce(c, tier, opts, rows, ops, items[..i]);
    hide FetchStep, GivenTo, FetchAll, GivenKeys;
    StepGivesOnce(c, tier, opts, rows, FetchAll(c, tier, opts, Begun(rows, ops), items[..i]),
                  GivenKeys(c, tier, opts, Begun(rows, ops), items[..i]), items[i]);
  }

  // ---------- The batch says what was given ----------

  /** Every upsert among the ops is of this handle, under this link. */
  ghost predicate Writes(ops: seq<WriteOp>, handle: Handle, link: Option<LinkId>) {
    forall i :: 0 <= i < |ops| && ops[i].Upsert? ==> ops[i].placement.handle == handle && ops[i].placement.link == link
  }

  /** The link an item's row is written under: the key it was given, else its own. */
  function LinkFor(given: Given, rows: Rows, handle: Handle): Option<LinkId> {
    if !given.Own? then Some(given.key) else if handle in rows then rows[handle].link else None
  }

  lemma SettleWrites(c: Collection, opts: Options, p: Placement, fetched: Hash, revision: Option<Revision>)
    ensures Writes(SettleOps(c, opts, p, fetched, revision), p.handle, p.link)
  {
  }

  lemma LandWrites(c: Collection, tier: Tier, opts: Options, create: Placement, named: Placement, item: FetchedItem)
    ensures var ops := LandOps(c, tier, opts, create, named, item);
      |ops| > 0 && ops[0] == Drop(c, create.handle, Superseded) && Writes(ops, item.handle, create.link)
  {
    var landed := Landed(tier, create, named, item);
    var read := LandedBody(tier, item);
    assert landed.handle == item.handle && landed.link == create.link;
    hide Landed, LandDiverges, LandedBody, SettleOps;
    if read.Some? {
      SettleWrites(c, opts, landed, read.value, item.revision);
    }
  }

  /** What a step adds to the batch. */
  ghost predicate Adds(st: Progress, st': Progress, handle: Handle, link: Option<LinkId>) {
    st.ops <= st'.ops && Writes(st'.ops[|st.ops|..], handle, link)
  }

  lemma ConflictAdds(c: Collection, opts: Options, st: Progress, p: Placement, item: FetchedItem)
    ensures Adds(st, ConflictStep(c, opts, st, p, item), p.handle, p.link)
  {
    if item.body.Some? {
      SettleWrites(c, opts, p, item.body.value.blob.hash, Or(item.revision, p.conflictRevision));
      hide SettleOps;
      var st' := ConflictStep(c, opts, st, p, item);
      assert st'.ops[|st.ops|..] == st'.ops[|st.ops|..][..1] + st'.ops[|st.ops|..][1..];
    }
  }

  lemma FinishAdds(st: Progress, tier: Tier, named: Placement, item: FetchedItem)
    ensures Adds(st, FinishStep(st, tier, named, item), named.handle, named.link)
  {
    var st', p := FinishStep(st, tier, named, item), Described(named, item);
    assert p.handle == named.handle && p.link == named.link;
    if tier.FullTier? && item.body.Some? {
      var q := Hydrated(p, item, item.body.value.blob.hash);
      assert q.handle == p.handle && q.link == p.link;
      hide Hydrated, Described;
      assert st'.ops[|st.ops|..] == [StoreOf(item.body.value), Upsert(q)];
    } else {
      assert st'.ops[|st.ops|..] == [Upsert(Refreshed(p))];
    }
  }

  lemma GivenRow(p: Placement, key: LinkId, item: FetchedItem)
    ensures Afresh(p, item).handle == p.handle && (Afresh(p, item).link.Some? ==> Afresh(p, item).link == p.link)
    ensures Keyed(Afresh(p, item), key, item).handle == p.handle && Keyed(Afresh(p, item), key, item).link == Some(key)
  {
  }

  /**
    Every upsert an item adds is its own row's, under the key it was given or the link it
    kept; a landing first drops the provisional handle of the create whose key it takes.
  */
  lemma StepWritesGiven(
      c: Collection, tier: Tier, opts: Options, loaded: Rows, st: Progress, given: set<LinkId>, item: FetchedItem)
    requires LoadedApart(loaded) && GivenOnce(loaded, st, given)
    ensures var g, st' := GivenTo(tier, st, item), FetchStep(c, tier, opts, st, item);
      && Adds(st, st', item.handle, LinkFor(g, st.rows, item.handle))
      && (g.LandsCreate? ==> |st'.ops| > |st.ops| && st'.ops[|st.ops|] == Drop(c, g.create, Superseded))
  {
    var g, st' := GivenTo(tier, st, item), FetchStep(c, tier, opts, st, item);
    CreateIsHeld(st.rows, item.link, item.handle);
    hide ConflictStep, FinishStep, LandOps, Afresh, Keyed, PendingCreates, Claim, Writes;
    if item.handle !in st.rows {
      NothingWrites(item.handle, LinkFor(g, st.rows, item.handle));
      assert st'.ops[|st.ops|..] == [];
    } else if tier.FullTier? && IsConflicted(st.rows[item.handle]) {
      ConflictAdds(c, opts, st, st.rows[item.handle], item);
    } else {
      var p := st.rows[item.handle];
      match g {
        case Own =>
          GivenRow(p, "", item);
          FinishAdds(st, tier, Afresh(p, item), item);
        case FreshKey(key) =>
          GivenRow(p, key, item);
          FinishAdds(st.(claimed := st.claimed + {key}), tier, Keyed(Afresh(p, item), key, item), item);
        case LandsCreate(key, create) =>
          LandWrites(c, tier, opts, st.rows[create], Afresh(p, item), item);
          assert st'.ops[|st.ops|..] == LandOps(c, tier, opts, st.rows[create], Afresh(p, item), item);
      }
    }
  }

  lemma NothingWrites(handle: Handle, link: Option<LinkId>)
    ensures Writes([], handle, link)
  {
  }

  // ---------- The whole batch ----------

  /** A fetch of loaded rows, the writes before it and the items in handle order. */
  datatype Fetching = Fetching(
      c: Collection, tier: Tier, opts: Options, rows: Rows, ops: seq<WriteOp>, items: seq<FetchedItem>)
  {
    function Before(i: nat): Progress
      requires i <= |items|
    {
      FetchAll(c, tier, opts, Begun(rows, ops), items[..i])
    }

    function Given(i: nat): Given
      requires i < |items|
    {
      GivenAt(c, tier, opts, rows, ops, items, i)
    }

    function Link(i: nat): Option<LinkId>
      requires i < |items|
    {
      LinkFor(Given(i), Before(i).rows, items[i].handle)
    }

    /** The batch, the writes before the fetch and those it adds. */
    function Batch(): seq<WriteOp> {
      Before(|items|).ops
    }
  }

  lemma FetchNext(f: Fetching, i: nat)
    requires LoadedApart(f.rows) && i < |f.items|
    ensures f.Before(i + 1) == FetchStep(f.c, f.tier, f.opts, f.Before(i), f.items[i])
    ensures Adds(f.Before(i), f.Before(i + 1), f.items[i].handle, f.Link(i))
    ensures GivenOnce(f.rows, f.Before(i), GivenKeys(f.c, f.tier, f.opts, Begun(f.rows, f.ops), f.items[..i]))
  {
    BatchGivesOnce(f.c, f.tier, f.opts, f.rows, f.ops, f.items[..i]);
    assert f.items[..i + 1][..i] == f.items[..i];
    hide FetchStep, GivenTo, GivenKeys;
    StepWritesGiven(f.c, f.tier, f.opts, f.rows, f.Before(i),
                    GivenKeys(f.c, f.tier, f.opts, Begun(f.rows, f.ops), f.items[..i]), f.items[i]);
  }

  /** Every upsert the fetch adds is one item's: its handle, under the link that item was due. */
  lemma {:induction false} UpsertComesFrom(f: Fetching, n: nat, k: nat) returns (i: nat)
    requires LoadedApart(f.rows) && n <= |f.items|
    requires |f.ops| <= k < |f.Before(n).ops| && f.Before(n).ops[k].Upsert?
    ensures i < n && f.Before(n).ops[k].placement.handle == f.items[i].handle
    ensures f.Before(n).ops[k].placement.link == f.Link(i)
    decreases n
  {
    hide FetchStep, LinkFor, GivenAt, GivenOnce, LoadedApart;
    if n > 0 {
      FetchNext(f, n - 1);
      var before, after := f.Before(n - 1).ops, f.Before(n).ops;
      if k < |before| {
        assert after[k] == before[k];
        i := UpsertComesFrom(f, n - 1, k);
      } else {
        i := n - 1;
        assert after[|before|..][k - |before|] == after[k];
      }
    }
  }

  /** A link kept or given is the loaded row's own, no loaded row's, or a landed create's. */
  lemma LinkIsDue(f: Fetching, i: nat)
    requires LoadedApart(f.rows) && i < |f.items| && f.Link(i).Some?
    ensures var g, link, handle := f.Given(i), f.Link(i).value, f.items[i].handle;
      && (g.Own? ==> handle in f.rows && f.rows[handle].link == Some(link))
      && (g.FreshKey? ==> link !in LinksIn(f.rows))
      && (g.LandsCreate? ==> g.create in f.rows && f.rows[g.create].link == Some(link))
  {
    FetchNext(f, i);
    GivenIsFreshOrLands(f.c, f.tier, f.opts, f.rows, f.ops, f.items, i);
    hide FetchAll, FetchStep, GivenTo, GivenKeys;
  }

  lemma LinksClash(f: Fetching, i: nat, j: nat)
    requires LoadedApart(f.rows) && i < |f.items| && j < |f.items|
    requires f.Link(i).Some? && f.Link(i) == f.Link(j) && i != j
    ensures || f.items[i].handle == f.items[j].handle
            || (f.Given(i).LandsCreate? && f.Given(i).create == f.items[j].handle)
            || (f.Given(j).LandsCreate? && f.Given(j).create == f.items[i].handle)
  {
    LinkIsDue(f, i);
    LinkIsDue(f, j);
    IdentitiesGivenOnce(f.c, f.tier, f.opts, f.rows, f.ops, f.items, if i < j then i else j, if i < j then j else i);
    hide FetchAll, GivenTo;
  }

  /**
    The whole batch of a fetch: two of its upserts name one item only from one handle, or
    across the landing that moves a pending create from the one to the other.
  */
  lemma BatchNamesOnce(f: Fetching, k: nat, l: nat) returns (i: nat, j: nat)
    requires LoadedApart(f.rows)
    requires |f.ops| <= k < |f.Batch()| && |f.ops| <= l < |f.Batch()|
    requires f.Batch()[k].Upsert? && f.Batch()[l].Upsert?
    requires f.Batch()[k].placement.link.Some? && f.Batch()[k].placement.link == f.Batch()[l].placement.link
    ensures i < |f.items| && j < |f.items|
    ensures f.Batch()[k].placement.handle == f.items[i].handle && f.Batch()[l].placement.handle == f.items[j].handle
    ensures || f.items[i].handle == f.items[j].handle
            || (f.Given(i).LandsCreate? && f.Given(i).create == f.items[j].handle)
            || (f.Given(j).LandsCreate? && f.Given(j).create == f.items[i].handle)
  {
    hide FetchAll, GivenAt, LinkFor, LoadedApart;
    i := UpsertComesFrom(f, |f.items|, k);
    j := UpsertComesFrom(f, |f.items|, l);
    if i != j {
      LinksClash(f, i, j);
    }
  }

  // ---------- The order of a report leaves no trace ----------

  /** The batch a fetch calls for depends on what was fetched, not on the order reported. */
  lemma WriteForgetsOrder(
      c: Collection, tier: Tier, opts: Options, rows: Rows, ops: seq<WriteOp>, a: seq<FetchedItem>,
      b: seq<FetchedItem>)
    requires DistinctBy(FetchedHandle, a) && DistinctBy(FetchedHandle, b) && SameMembers(a, b)
    ensures WriteFetched(c, tier, opts, rows, ops, a) == WriteFetched(c, tier, opts, rows, ops, b)
  {
    SortByForgetsOrder(FetchedHandle, a, b);
  }

  lemma {:induction false} UnnamedLinks(rows: Rows, items: seq<FetchedItem>)
    ensures U.FreshLinks(rows, items) == [] <==>
      forall item :: item in items ==> !(item.handle in rows && rows[item.handle].link.None?)
  {
    if items != [] {
      assert items == items[..|items| - 1] + [items[|items| - 1]];
      UnnamedLinks(rows, items[..|items| - 1]);
    }
  }

  /** Through the coroutine: the same items in another order end in the same write. */
  lemma FetchForgetsOrder(st: U.State, a: seq<FetchedItem>, b: seq<FetchedItem>, loaded: Loaded)
    requires st.phase.Fetching?
    requires DistinctBy(FetchedHandle, a) && DistinctBy(FetchedHandle, b) && SameMembers(a, b)
    ensures var (sa, ta) := U.Resumed(st, Some(Fetch(a)));
      var (sb, tb) := U.Resumed(st, Some(Fetch(b)));
      && ta.Yielded? && tb.Yielded? && (ta.want.WantsWrite? <==> tb.want.WantsWrite?)
      && (ta.want.WantsWrite? ==> ta == tb)
      && (!ta.want.WantsWrite? ==>
          && ta.want.WantsLoad? && tb.want.WantsLoad?
          && U.Resumed(sa, Some(Load(loaded))).1 == U.Resumed(sb, Some(Load(loaded))).1)
  {
    UnnamedLinks(st.rows, a);
    UnnamedLinks(st.rows, b);
    WriteForgetsOrder(st.collection, st.tier, st.opts, st.rows, st.ops, a, b);
    WriteForgetsOrder(st.collection, st.tier, st.opts, U.Beside(st.rows, loaded.placements), st.ops, a, b);
    hide WriteFetched, U.Beside, U.FreshLinks;
  }
}
