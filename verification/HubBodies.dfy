/** What becomes of a body over whole runs: kept, until a write loses it, and which writes do. */
module HubBodies {
  import opened Wrappers
  import opened Entities
  import opened HubModel
  import opened HubMerge
  import opened HubSource

  /** The body is the item's own or the divergence it has recorded. */
  predicate Bears(item: Item, body: Hash) {
    item.body == Some(body) || (item.conflicted && item.conflictBody == Some(body))
  }

  // ---------- One write ----------

  /** A live upsert of the item that loses a body it bears. */
  predicate LosesLive(h: HubState, s: Source, p: Placement, body: Hash)
    requires p.link.Some?
  {
    var met := MetBy(h, s, p);
    && p.body != Some(body) && body !in OverruleKeeps(h, s, p)
    && (SettlesOutright(h, s, p) ||
        (&& SourceEdited(met, s, p) && p.body != met.body
         && !(Mutable(met, p) &&
              if met.body == Some(body) then HubMoved(met, s) || DropsEdit(met, s, p) else Fills(met, s, p))))
  }

  /** A tombstone of the item does, when the body is the recorded one alone and no overrule keeps it. */
  predicate LosesBuried(h: HubState, s: Source, p: Placement, body: Hash)
    requires p.link.Some?
  {
    MetBy(h, s, p).body != Some(body) && body !in OverruleKeeps(h, s, p)
  }

  /** The op is a write of the item that loses the body. */
  predicate Loses(h: HubState, s: Source, op: WriteOp, link: LinkId, body: Hash) {
    && Names(op, link)
    && if op.placement.status.Tombstone?
       then LosesBuried(h, s, op.placement, body)
       else LosesLive(h, s, op.placement, body)
  }

  lemma MetBearsAsStored(h: HubState, s: Source, p: Placement)
    requires p.link.Some? && p.link.value in h.items
    ensures var met, item := MetBy(h, s, p), h.items[p.link.value];
      met.body == item.body && met.conflicted == item.conflicted && met.conflictBody == item.conflictBody
  {
  }

  /** Exactly when a live upsert keeps a body its item bears. */
  lemma LiveKeepsIff(h: HubState, s: Source, p: Placement, body: Hash)
    requires p.link.Some? && p.link.value in h.items && !p.status.Tombstone?
    requires Bears(h.items[p.link.value], body)
    ensures Keeps(h, AbsorbUpsert(h, s, p), p.link.value, body) <==> !LosesLive(h, s, p, body)
  {
    hide AbsorbUpsert, Met, Restated, KeptBodies, Mutable;
    MetBearsAsStored(h, s, p);
    var met := MetBy(h, s, p);
    if met.body == Some(body) && p.body != Some(body) {
      SharedBodyKeptIff(h, s, p, body);
    } else if met.body != Some(body) && p.body == Some(body) {
      IncomingBodyKeptIff(h, s, p, body);
    } else if met.body == Some(body) {
      RestatedBodyStays(h, s, p);
    } else {
      RecordedBodyKeptIff(h, s, p, body);
      if p.handle in h.overruling {
        OverruleKeepsRecorded(h, s, p, body);
      }
    }
  }

  /** The hub moved under the source, to another body its policy does not give up for this one. */
  predicate Contested(item: Item, s: Source, body: Hash, policy: Policy) {
    && item.body != Some(body) && HubMoved(item, s) && !(item.body.None? && SyncedBody(item, s).None?)
    && !(policy.PreferIncoming? && item.body.Some?)
  }

  /**
    Over an item in no conflict, when a live upsert's body is taken: when the item held it,
    or its source's base did not name it and no other body contests it. A contest is a conflict
    unless the policy settles it.
  */
  lemma TakenIff(h: HubState, s: Source, p: Placement, body: Hash)
    requires p.link.Some? && !p.status.Tombstone? && p.body == Some(body)
    requires !MetBy(h, s, p).conflicted && !Resolving(MetBy(h, s, p), s, p)
    ensures var met, h' := MetBy(h, s, p), AbsorbUpsert(h, s, p);
      var contested := SyncedBody(met, s) != Some(body) && Mutable(met, p) && Contested(met, s, body, h.policy);
      && p.link.value in h'.items
      && var after := h'.items[p.link.value];
         && (after.body == Some(body) <==> met.body == Some(body) || (SyncedBody(met, s) != Some(body) && !contested))
         && (after.body != Some(body) ==> after.body == met.body)
         && (after.conflicted <==> contested && (h.policy.Manual? || met.body.None?))
         && (after.conflicted ==> after.conflictBody == Some(body))
  {
    hide AbsorbUpsert, Met, Restated, Mutable;
    EndsAsWeighed(h, s, p);
    RestatingKeepsFacts(MetBy(h, s, p), s, p);
  }

  /** An upsert that states the item's own body leaves it. */
  lemma RestatedBodyStays(h: HubState, s: Source, p: Placement)
    requires p.link.Some? && !p.status.Tombstone? && p.body.Some? && MetBy(h, s, p).body == p.body
    ensures p.link.value in AbsorbUpsert(h, s, p).items && AbsorbUpsert(h, s, p).items[p.link.value].body == p.body
  {
    hide AbsorbUpsert, Met, Restated, Mutable;
    EndsAsWeighed(h, s, p);
    RestatingKeepsFacts(MetBy(h, s, p), s, p);
  }

  /** And a tombstone: the item's own body always, a recorded one exactly when an overrule keeps it. */
  lemma BuriedKeepsIff(h: HubState, s: Source, p: Placement, body: Hash)
    requires p.link.Some? && p.link.value in h.items && p.status.Tombstone?
    requires Bears(h.items[p.link.value], body)
    ensures Keeps(h, AbsorbUpsert(h, s, p), p.link.value, body) <==> !LosesBuried(h, s, p, body)
  {
    hide Met, KeptBodies;
    MetBearsAsStored(h, s, p);
    var n, h', kept := |h.overruled|, AbsorbUpsert(h, s, p), OverruleKeeps(h, s, p);
    assert |h'.overruled| == n + |kept|;
    assert forall i :: 0 <= i < |kept| ==>
      h'.overruled[n + i].link == p.link.value && h'.overruled[n + i].body == kept[i];
  }

  /** The list of bodies set aside only grows, and a write adds to it for its own item alone. */
  lemma OpSetsAside(h: HubState, s: Source, op: WriteOp, link: LinkId)
    ensures h.overruled <= AbsorbOp(h, s, op).overruled
    ensures !Names(op, link) ==> forall body: Hash :: !KeptAside(h, AbsorbOp(h, s, op), link, body)
  {
    hide Settled, Met, KeptBodies, LiveBinding;
  }

  /** A write of another item leaves this one's bodies where they are. */
  lemma OthersLeaveBodies(h: HubState, s: Source, op: WriteOp, link: LinkId)
    requires link in h.items && !Names(op, link)
    ensures var h' := AbsorbOp(h, s, op);
      && link in h'.items && h'.items[link].body == h.items[link].body
      && h'.items[link].conflicted == h.items[link].conflicted
      && h'.items[link].conflictBody == h.items[link].conflictBody
  {
    match op {
      case Upsert(p) =>
        if p.link.Some? {
          UpsertBinds(h, s, p);
        }
      case _ =>
    }
    hide AbsorbUpsert;
  }

  lemma SetAsideSince(from: HubState, h: HubState, h': HubState, link: LinkId, body: Hash)
    requires from.overruled <= h.overruled <= h'.overruled
    ensures KeptAside(from, h', link, body) <==> KeptAside(from, h, link, body) || KeptAside(h, h', link, body)
  {
    if i :| |from.overruled| <= i < |h.overruled| && h.overruled[i].link == link && h.overruled[i].body == body {
      assert h'.overruled[i] == h.overruled[i];
    }
    if i :| |from.overruled| <= i < |h'.overruled| && h'.overruled[i].link == link && h'.overruled[i].body == body {
      assert i < |h.overruled| ==> h.overruled[i] == h'.overruled[i];
    }
  }

  /** One op, any source: a body kept since `from` stays kept, unless the op loses it and it was never set aside. */
  lemma OpKeepsIff(from: HubState, h: HubState, s: Source, op: WriteOp, link: LinkId, body: Hash)
    requires from.overruled <= h.overruled && link in h.items && Keeps(from, h, link, body)
    ensures var h' := AbsorbOp(h, s, op);
      && from.overruled <= h'.overruled && link in h'.items
      && (Keeps(from, h', link, body) <==> KeptAside(from, h, link, body) || !Loses(h, s, op, link, body))
  {
    hide AbsorbUpsert, LosesLive, LosesBuried, KeptAside;
    var h' := AbsorbOp(h, s, op);
    OpSetsAside(h, s, op, link);
    SetAsideSince(from, h, h', link, body);
    if Names(op, link) {
      UpsertBinds(h, s, op.placement);
      if Bears(h.items[link], body) {
        if op.placement.status.Tombstone? {
          BuriedKeepsIff(h, s, op.placement, body);
        } else {
          LiveKeepsIff(h, s, op.placement, body);
        }
      }
    } else {
      OthersLeaveBodies(h, s, op, link);
    }
  }

  // ---------- Whole runs ----------

  /** The hub once the first `n` ops are folded in. */
  function Folded(h: HubState, s: Source, ops: seq<WriteOp>, n: nat): HubState
    requires n <= |ops|
  {
    AbsorbOps(h, s, ops[..n])
  }

  /** None of the first `n` ops loses the body while it is set aside nowhere. */
  ghost predicate Unlost(from: HubState, h: HubState, s: Source, ops: seq<WriteOp>, n: nat, link: LinkId, body: Hash)
    requires n <= |ops|
  {
    forall i :: 0 <= i < n ==>
      KeptAside(from, Folded(h, s, ops, i), link, body) || !Loses(Folded(h, s, ops, i), s, ops[i], link, body)
  }

  ghost predicate KeptThrough(
      from: HubState, h: HubState, s: Source, ops: seq<WriteOp>, n: nat, link: LinkId, body: Hash)
    requires n <= |ops|
  {
    forall i :: 0 <= i <= n ==> Keeps(from, Folded(h, s, ops, i), link, body)
  }

  lemma FoldNext(h: HubState, s: Source, ops: seq<WriteOp>, n: nat)
    requires n < |ops|
    ensures Folded(h, s, ops, n + 1) == AbsorbOp(Folded(h, s, ops, n), s, ops[n])
  {
    assert ops[..n + 1][..n] == ops[..n];
  }

  lemma {:induction false} FoldGrows(from: HubState, h: HubState, s: Source, ops: seq<WriteOp>, n: nat, link: LinkId)
    requires n <= |ops| && from.overruled <= h.overruled && link in h.items
    ensures from.overruled <= Folded(h, s, ops, n).overruled && link in Folded(h, s, ops, n).items
  {
    if n > 0 {
      hide AbsorbOp;
      FoldGrows(from, h, s, ops, n - 1, link);
      FoldNext(h, s, ops, n - 1);
      OpSetsAside(Folded(h, s, ops, n - 1), s, ops[n - 1], link);
      ItemsStay(Folded(h, s, ops, n - 1), s, ops[n - 1], link);
    }
  }

  lemma ItemsStay(h: HubState, s: Source, op: WriteOp, link: LinkId)
    requires link in h.items
    ensures link in AbsorbOp(h, s, op).items
  {
    hide Settled, Met, KeptEntries, LiveBinding;
  }

  lemma {:induction false} BatchKeepsIff(
      from: HubState, h: HubState, s: Source, ops: seq<WriteOp>, n: nat, link: LinkId, body: Hash)
    requires n <= |ops| && from.overruled <= h.overruled && link in h.items && Keeps(from, h, link, body)
    ensures KeptThrough(from, h, s, ops, n, link, body) <==> Unlost(from, h, s, ops, n, link, body)
  {
    hide AbsorbOps, AbsorbOp, Loses, Keeps, KeptAside;
    if n > 0 {
      BatchKeepsIff(from, h, s, ops, n - 1, link, body);
      FoldGrows(from, h, s, ops, n - 1, link);
      FoldNext(h, s, ops, n - 1);
      if Keeps(from, Folded(h, s, ops, n - 1), link, body) {
        OpKeepsIff(from, Folded(h, s, ops, n - 1), s, ops[n - 1], link, body);
      }
    } else {
      AbsorbNone(h, s);
      assert ops[..0] == [];
    }
  }

  /** A batch of one source's writes. */
  datatype Batch = Batch(s: Source, ops: seq<WriteOp>)

  function AbsorbRun(h: HubState, run: seq<Batch>): HubState {
    if run == [] then h
    else Absorb(AbsorbRun(h, run[..|run| - 1]), run[|run| - 1].s, run[|run| - 1].ops)
  }

  /** The body is kept at every moment of the run. */
  ghost predicate AlwaysKept(from: HubState, h: HubState, run: seq<Batch>, link: LinkId, body: Hash) {
    forall k :: 0 <= k < |run| ==>
      KeptThrough(from, AbsorbRun(h, run[..k]), run[k].s, run[k].ops, |run[k].ops|, link, body)
  }

  /** No write of the run loses it while it is set aside nowhere. */
  ghost predicate NeverLost(from: HubState, h: HubState, run: seq<Batch>, link: LinkId, body: Hash) {
    forall k :: 0 <= k < |run| ==>
      Unlost(from, AbsorbRun(h, run[..k]), run[k].s, run[k].ops, |run[k].ops|, link, body)
  }

  lemma RunNext(from: HubState, h: HubState, run: seq<Batch>, link: LinkId, body: Hash)
    requires run != []
    ensures var init, last := run[..|run| - 1], run[|run| - 1];
      var h1 := AbsorbRun(h, init);
      && (AlwaysKept(from, h, run, link, body) <==>
          AlwaysKept(from, h, init, link, body) && KeptThrough(from, h1, last.s, last.ops, |last.ops|, link, body))
      && (NeverLost(from, h, run, link, body) <==>
          NeverLost(from, h, init, link, body) && Unlost(from, h1, last.s, last.ops, |last.ops|, link, body))
  {
    hide AbsorbRun, KeptThrough, Unlost;
    var init := run[..|run| - 1];
    assert forall k :: 0 <= k < |init| ==> init[k] == run[k] && init[..k] == run[..k];
    assert run[..|init|] == init;
  }

  lemma BatchEndKeeps(from: HubState, h: HubState, b: Batch, link: LinkId, body: Hash)
    requires from.overruled <= h.overruled && link in h.items
    ensures var h' := Absorb(h, b.s, b.ops);
      && from.overruled <= h'.overruled && link in h'.items
      && (KeptThrough(from, h, b.s, b.ops, |b.ops|, link, body) ==> Keeps(from, h', link, body))
  {
    hide AbsorbOps, KeptAside;
    assert b.ops[..|b.ops|] == b.ops;
    FoldGrows(from, h, b.s, b.ops, |b.ops|, link);
    EndKeeps(from, AbsorbOps(h, b.s, b.ops), link, body);
  }

  lemma EndKeeps(from: HubState, h: HubState, link: LinkId, body: Hash)
    ensures Keeps(from, Ended(h), link, body) == Keeps(from, h, link, body)
  {
    assert Ended(h).overruled == h.overruled;
  }

  /**
    Over every run of batches by any sources, a body kept at its start is kept at every moment
    of it if and only if no write of the run loses it; and then it is kept at its end.
  */
  lemma {:induction false} BodyKeptIff(from: HubState, h: HubState, run: seq<Batch>, link: LinkId, body: Hash)
    requires from.overruled <= h.overruled && link in h.items && Keeps(from, h, link, body)
    ensures var h' := AbsorbRun(h, run);
      && from.overruled <= h'.overruled && link in h'.items
      && (AlwaysKept(from, h, run, link, body) <==> NeverLost(from, h, run, link, body))
      && (AlwaysKept(from, h, run, link, body) ==> Keeps(from, h', link, body))
  {
    if run != [] {
      hide Absorb, KeptThrough, Unlost, Keeps, AlwaysKept, NeverLost;
      var init, last := run[..|run| - 1], run[|run| - 1];
      BodyKeptIff(from, h, init, link, body);
      RunNext(from, h, run, link, body);
      var h1 := AbsorbRun(h, init);
      BatchEndKeeps(from, h1, last, link, body);
      if AlwaysKept(from, h, init, link, body) {
        BatchKeepsIff(from, h1, last.s, last.ops, |last.ops|, link, body);
      }
    }
  }

  /**
    A body an edit brings in is kept at every moment after it exactly while no write of the
    run, a strictly later one, loses it.
  */
  lemma BroughtInIsKeptIff(h: HubState, s: Source, p: Placement, body: Hash, run: seq<Batch>)
    requires Idle(h) && p.link.Some? && !p.status.Tombstone? && p.body == Some(body)
    requires p.link.value in h.items ==> SourceEdited(MetBy(h, s, p), s, p)
    ensures var h1 := Absorb(h, s, [Upsert(p)]);
      && Keeps(h, h1, p.link.value, body)
      && (AlwaysKept(h, h1, run, p.link.value, body) <==> NeverLost(h, h1, run, p.link.value, body))
  {
    hide Absorb, Keeps, AlwaysKept, NeverLost, SourceEdited, MetBy;
    OneUpsert(h, s, p);
    var h1 := AbsorbUpsert(h, s, p);
    BroughtInIsKept(h, s, p, body);
    EndKeeps(h, h1, p.link.value, body);
    OpSetsAside(h, s, Upsert(p), p.link.value);
    BodyKeptIff(h, Ended(h1), run, p.link.value, body);
  }

  lemma BroughtInIsKept(h: HubState, s: Source, p: Placement, body: Hash)
    requires p.link.Some? && !p.status.Tombstone? && p.body == Some(body)
    requires p.link.value in h.items ==> SourceEdited(MetBy(h, s, p), s, p)
    ensures p.link.value in AbsorbUpsert(h, s, p).items && Keeps(h, AbsorbUpsert(h, s, p), p.link.value, body)
  {
    hide AbsorbUpsert, SourceEdited;
    EndsAsWeighed(h, s, p);
    if MetBy(h, s, p).body == Some(body) {
      RestatedBodyStays(h, s, p);
    } else {
      IncomingBodyKeptIff(h, s, p, body);
    }
  }
}
