/** Flags never conflict and always converge, whatever order the sources sync in. */
module FlagConvergence {
  import opened Wrappers
  import opened Entities
  import opened FlagMerge
  import opened HubModel

  /** One source's stake in an item's flags: its base, and what its server holds. */
  datatype Side = Side(base: Flags, remote: Flags)

  datatype FlagState = FlagState(item: Flags, sides: map<Source, Side>)

  /** One source's sync: the three-way merge, written to the item, the base and the server. */
  function Step(st: FlagState, s: Source): FlagState
    requires s in st.sides
  {
    var merged := Merge(st.sides[s].base, st.item, st.sides[s].remote);
    FlagState(merged, st.sides[s := Side(merged, merged)])
  }

  ghost predicate Covers(order: seq<Source>, st: FlagState) {
    && (forall s :: s in order ==> s in st.sides)
    && (forall s :: s in st.sides ==> s in order)
  }

  function Pass(st: FlagState, order: seq<Source>): (r: FlagState)
    requires forall s :: s in order ==> s in st.sides
    ensures r.sides.Keys == st.sides.Keys
  {
    if order == [] then st
    else
      assert forall s :: s in order[..|order| - 1] ==> s in order;
      Step(Pass(st, order[..|order| - 1]), order[|order| - 1])
  }

  // ---------- The hub takes exactly this step ----------

  /** The upsert a flag sync of a bound item ends in. */
  function FlagUpsert(p: Placement, merged: Flags): Placement
    requires p.base.Some?
  {
    p.(flags := merged, base := Some(p.base.value.(flags := merged)))
  }

  predicate Based(item: Item, s: Source) {
    s in item.sources && item.sources[s].base.Some?
  }

  /** The flags of one item as the hub and the servers hold them, over its based sources. */
  function FlagsOf(item: Item, remotes: map<Source, Flags>): FlagState {
    FlagState(item.flags, map s | s in item.sources && item.sources[s].base.Some? && s in remotes ::
      Side(item.sources[s].base.value.flags, remotes[s]))
  }

  lemma RestatingBodyKeepsIt(item: Item, s: Source, p: Placement, policy: Policy)
    requires p.body == item.body
    ensures Reconcile(item, s, p, policy) == (item, NOTHING)
  {
    hide Mutable, SourceEdited, HubMoved;
  }

  /** A flag upsert writes its flags to the item and to its own base, and nothing else of either. */
  lemma FlagUpsertOnHub(h: HubState, c: Collection, link: LinkId, s: Source, merged: Flags)
    requires Idle(h) && link in h.items && !h.items[link].deleted && Based(h.items[link], s)
    ensures var item := h.items[link];
      var p := FlagUpsert(Seen(c, s, link, item).value, merged);
      var h' := Absorb(h, s, [Upsert(p)]);
      && h'.items.Keys == h.items.Keys && (forall l :: l in h.items && l != link ==> h'.items[l] == h.items[l])
      && var after := h'.items[link];
         && after.flags == (if merged.Unknown? then item.flags else merged)
         && after.body == item.body && after.conflicted == item.conflicted && !after.deleted
         && after.sources == item.sources[s := after.sources[s]]
         && Based(after, s) && after.sources[s].base.value.flags == merged
  {
    var item := h.items[link];
    assert item.sources != map[];
    var p := FlagUpsert(Seen(c, s, link, item).value, merged);
    AbsorbOne(h, s, Upsert(p));
    LiveUpsert(h, s, p);
    assert Met(h.items, h.rebinding, s, link, p) == item;
    var r := Restated(item, p);
    RestatingBodyKeepsIt(r, s, p, h.policy);
    hide Reconcile, AbsorbUpsert, AbsorbOps;
    assert Settled(item, s, p, h.policy, false, false) == (Described(r, item, p, false), NOTHING);
  }

  lemma UnknownMeetsUnknown(base: Flags, local: Flags, remote: Flags)
    ensures Merge(base, local, remote).Unknown? ==> local.Unknown?
  {
  }

  /** Absorbing one source's flag sync is one step of the convergence below. */
  lemma HubTakesTheStep(h: HubState, c: Collection, link: LinkId, s: Source, remotes: map<Source, Flags>)
    requires Idle(h) && link in h.items && !h.items[link].deleted && Based(h.items[link], s) && s in remotes
    ensures var st := FlagsOf(h.items[link], remotes);
      var merged := Merge(st.sides[s].base, st.item, st.sides[s].remote);
      var h' := Absorb(h, s, [Upsert(FlagUpsert(Seen(c, s, link, h.items[link]).value, merged))]);
      link in h'.items && FlagsOf(h'.items[link], remotes[s := merged]) == Step(st, s)
  {
    hide Absorb, Merge;
    var item := h.items[link];
    var st := FlagsOf(item, remotes);
    var merged := Merge(st.sides[s].base, st.item, st.sides[s].remote);
    FlagUpsertOnHub(h, c, link, s, merged);
    var after := Absorb(h, s, [Upsert(FlagUpsert(Seen(c, s, link, item).value, merged))]).items[link];
    UnknownMeetsUnknown(st.sides[s].base, st.item, st.sides[s].remote);
    assert after.flags == merged;
    assert FlagsOf(after, remotes[s := merged]).sides == Step(st, s).sides;
  }

  // ---------- Two passes settle everything ----------

  /** A side a sync has passed: base and server alike, and the item no less known. */
  predicate Level(st: FlagState, s: Source) {
    s in st.sides && st.sides[s].base == st.sides[s].remote && (st.sides[s].base.Known? ==> st.item.Known?)
  }

  ghost predicate Agreed(st: FlagState) {
    forall s :: s in st.sides ==> st.sides[s] == Side(st.item, st.item)
  }

  /** A level side holds no opinion of its own: the item stands. */
  lemma LevelSideFollows(st: FlagState, s: Source)
    requires Level(st, s)
    ensures Merge(st.sides[s].base, st.item, st.sides[s].remote) == st.item
  {
    if st.item.Known? && st.sides[s].base.Known? {
      var i, b := st.item.marks, st.sides[s].base.marks;
      assert i * b + (i - b) + (b - b) == i;
    }
  }

  lemma StepLevels(st: FlagState, s: Source, t: Source)
    requires s in st.sides
    ensures Level(Step(st, s), s)
    ensures Level(st, t) ==> Level(Step(st, s), t)
  {
  }

  lemma {:induction false} PassLevels(st: FlagState, order: seq<Source>, t: Source)
    requires forall s :: s in order ==> s in st.sides
    ensures t in order || Level(st, t) ==> Level(Pass(st, order), t)
  {
    if order != [] {
      var init, last := order[..|order| - 1], order[|order| - 1];
      assert order == init + [last];
      PassLevels(st, init, t);
      StepLevels(Pass(st, init), last, t);
    }
  }

  lemma {:induction false} LevelPassCopies(st: FlagState, order: seq<Source>)
    requires forall s :: s in order ==> s in st.sides
    requires forall s :: s in st.sides ==> Level(st, s)
    ensures var r := Pass(st, order);
      && r.item == st.item
      && (forall s :: s in order ==> r.sides[s] == Side(st.item, st.item))
      && (forall s :: s in st.sides && s !in order ==> r.sides[s] == st.sides[s])
  {
    if order != [] {
      var init, last := order[..|order| - 1], order[|order| - 1];
      assert order == init + [last];
      LevelPassCopies(st, init);
      PassLevels(st, init, last);
      LevelSideFollows(Pass(st, init), last);
    }
  }

  /**
    Two passes, each over every source in any order, leave every base, every server and the
    item with one set of flags, and a third changes nothing.
  */
  lemma TwoPassesConverge(st: FlagState, first: seq<Source>, second: seq<Source>, third: seq<Source>)
    requires Covers(first, st) && Covers(second, st) && Covers(third, st)
    ensures var settled := Pass(Pass(st, first), second);
      && Agreed(settled) && settled.item == Pass(st, first).item
      && Pass(settled, third) == settled
  {
    var once := Pass(st, first);
    forall s | s in once.sides
      ensures Level(once, s)
    {
      PassLevels(st, first, s);
    }
    LevelPassCopies(once, second);
    var settled := Pass(once, second);
    assert forall s :: s in settled.sides ==> Level(settled, s);
    LevelPassCopies(settled, third);
    assert Pass(settled, third).sides == settled.sides;
  }

  // ---------- From a common base, the order leaves no trace ----------

  ghost predicate FromBase(st: FlagState, base: set<string>) {
    st.item == Known(base) && forall s :: s in st.sides ==> st.sides[s].base == Known(base)
  }

  /** The source's server holds the flag otherwise than the base did. */
  predicate Flips(st: FlagState, base: set<string>, s: Source, flag: string) {
    s in st.sides && st.sides[s].remote.Known? && (flag in st.sides[s].remote.marks) != (flag in base)
  }

  ghost predicate FlippedBy(st: FlagState, base: set<string>, order: seq<Source>, flag: string) {
    exists i :: 0 <= i < |order| && Flips(st, base, order[i], flag)
  }

  lemma FlippedByOneMore(st: FlagState, base: set<string>, order: seq<Source>, last: Source, flag: string)
    ensures FlippedBy(st, base, order + [last], flag) <==>
      FlippedBy(st, base, order, flag) || Flips(st, base, last, flag)
  {
    var more := order + [last];
    if FlippedBy(st, base, order, flag) {
      var i :| 0 <= i < |order| && Flips(st, base, order[i], flag);
      assert Flips(st, base, more[i], flag);
    }
    assert more[|order|] == last;
  }

  lemma {:induction false} UnpassedSideStays(st: FlagState, order: seq<Source>, t: Source)
    requires (forall s :: s in order ==> s in st.sides) && t !in order && t in st.sides
    ensures Pass(st, order).sides[t] == st.sides[t]
  {
    if order != [] {
      var init := order[..|order| - 1];
      assert order == init + [order[|order| - 1]];
      UnpassedSideStays(st, init, t);
    }
  }

  /**
    From a common base the merged set flips a flag exactly when some source passed flipped
    it, which mentions no order: every order of a pass ends on the same set.
  */
  lemma {:induction false} FlagFlippedIffSomeoneFlipped(
      st: FlagState, base: set<string>, order: seq<Source>, flag: string)
    requires FromBase(st, base) && forall s :: s in order ==> s in st.sides
    ensures var item := Pass(st, order).item;
      item.Known? && ((flag in item.marks) <==> (flag in base) != FlippedBy(st, base, order, flag))
  {
    if order != [] {
      var init, last := order[..|order| - 1], order[|order| - 1];
      assert order == init + [last];
      FlagFlippedIffSomeoneFlipped(st, base, init, flag);
      FlippedByOneMore(st, base, init, last, flag);
      var was := Pass(st, init);
      if last in init {
        PassLevels(st, init, last);
        LevelSideFollows(was, last);
        var i :| 0 <= i < |init| && init[i] == last;
        assert Flips(st, base, last, flag) ==> FlippedBy(st, base, init, flag);
      } else {
        UnpassedSideStays(st, init, last);
      }
    }
  }

  lemma OrderLeavesNoTrace(st: FlagState, base: set<string>, a: seq<Source>, b: seq<Source>)
    requires FromBase(st, base) && Covers(a, st) && Covers(b, st)
    ensures Pass(st, a).item == Pass(st, b).item
  {
    FlagFlippedIffSomeoneFlipped(st, base, a, "");
    FlagFlippedIffSomeoneFlipped(st, base, b, "");
    forall flag
      ensures flag in Pass(st, a).item.marks <==> flag in Pass(st, b).item.marks
    {
      FlagFlippedIffSomeoneFlipped(st, base, a, flag);
      FlagFlippedIffSomeoneFlipped(st, base, b, flag);
      SameFlips(st, base, a, b, flag);
      SameFlips(st, base, b, a, flag);
    }
  }

  lemma SameFlips(st: FlagState, base: set<string>, a: seq<Source>, b: seq<Source>, flag: string)
    requires Covers(a, st) && Covers(b, st)
    ensures FlippedBy(st, base, a, flag) ==> FlippedBy(st, base, b, flag)
  {
    if i :| 0 <= i < |a| && Flips(st, base, a[i], flag) {
      assert a[i] in b;
      var j :| 0 <= j < |b| && b[j] == a[i];
      assert Flips(st, base, b[j], flag);
    }
  }

  // ---------- The same, on the hub itself ----------

  /** The hub and what each server holds of one item's flags. */
  datatype World = World(h: HubState, remotes: map<Source, Flags>)

  /** The item is live in an idle hub. */
  predicate Syncable(w: World, link: LinkId) {
    Idle(w.h) && link in w.h.items && !w.h.items[link].deleted
  }

  function FlagsIn(w: World, link: LinkId): FlagState
    requires link in w.h.items
  {
    FlagsOf(w.h.items[link], w.remotes)
  }

  /** One source's flag sync: the merge of its row, absorbed, and pushed to its server. */
  function SyncFlags(w: World, c: Collection, link: LinkId, s: Source): World
    requires Syncable(w, link) && s in FlagsIn(w, link).sides
  {
    var item := w.h.items[link];
    var merged := Merge(item.sources[s].base.value.flags, item.flags, w.remotes[s]);
    assert item.sources != map[];
    World(Absorb(w.h, s, [Upsert(FlagUpsert(Seen(c, s, link, item).value, merged))]), w.remotes[s := merged])
  }

  lemma SyncFollows(w: World, c: Collection, link: LinkId, s: Source)
    requires Syncable(w, link) && s in FlagsIn(w, link).sides
    ensures var w' := SyncFlags(w, c, link, s);
      Syncable(w', link) && FlagsIn(w', link) == Step(FlagsIn(w, link), s)
  {
    var item := w.h.items[link];
    HubTakesTheStep(w.h, c, link, s, w.remotes);
    FlagUpsertOnHub(w.h, c, link, s, Merge(item.sources[s].base.value.flags, item.flags, w.remotes[s]));
    hide AbsorbOps, Merge;
  }

  /** A run of syncs over the hub, as a run of steps. */
  ghost predicate SyncRun(worlds: seq<World>, c: Collection, link: LinkId, order: seq<Source>) {
    && |worlds| == |order| + 1 && Syncable(worlds[0], link)
    && forall i :: 0 <= i < |order| ==>
         Syncable(worlds[i], link) && order[i] in FlagsIn(worlds[i], link).sides &&
         worlds[i + 1] == SyncFlags(worlds[i], c, link, order[i])
  }

  lemma {:induction false} RunFollows(worlds: seq<World>, c: Collection, link: LinkId, order: seq<Source>)
    requires SyncRun(worlds, c, link, order)
    ensures forall s :: s in order ==> s in FlagsIn(worlds[0], link).sides
    ensures Syncable(worlds[|order|], link) && FlagsIn(worlds[|order|], link) == Pass(FlagsIn(worlds[0], link), order)
  {
    if order != [] {
      var n := |order| - 1;
      var init := order[..n];
      assert order == init + [order[n]];
      assert SyncRun(worlds[..|order|], c, link, init);
      RunFollows(worlds[..|order|], c, link, init);
      SyncFollows(worlds[n], c, link, order[n]);
    }
  }

  /** Two passes of syncs through the hub settle the item, its bindings and every server. */
  lemma HubFlagsConverge(worlds: seq<World>, c: Collection, link: LinkId, first: seq<Source>, second: seq<Source>)
    requires SyncRun(worlds, c, link, first + second)
    requires Covers(first, FlagsIn(worlds[0], link)) && Covers(second, FlagsIn(worlds[0], link))
    ensures Syncable(worlds[|first| + |second|], link) && Agreed(FlagsIn(worlds[|first| + |second|], link))
  {
    RunFollows(worlds, c, link, first + second);
    var st := FlagsIn(worlds[0], link);
    PassConcat(st, first, second);
    TwoPassesConverge(st, first, second, second);
  }

  lemma {:induction false} PassConcat(st: FlagState, a: seq<Source>, b: seq<Source>)
    requires forall s :: s in a || s in b ==> s in st.sides
    ensures (forall s :: s in a + b ==> s in st.sides) && Pass(st, a + b) == Pass(Pass(st, a), b)
    decreases |b|
  {
    if b == [] {
      assert a + b == a;
    } else {
      var init := b[..|b| - 1];
      assert (a + b)[..|a + b| - 1] == a + init;
      PassConcat(st, a, init);
    }
  }
}
