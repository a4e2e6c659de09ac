/** Whether a single source can come to disagree with itself, and exactly when. */
module HubSource {
  import opened Wrappers
  import opened Entities
  import opened HubModel
  import opened HubMerge

  // ---------- Which drops a batch takes up again ----------

  /** How a source stands to one item within a batch. */
  datatype Track = Unheld | Held(handle: Handle) | LetGo

  function TrackOf(h: HubState, s: Source, link: LinkId): Track {
    if link in h.items && s in h.items[link].sources then Held(h.items[link].sources[s].handle)
    else if link in h.rebinding then LetGo
    else Unheld
  }

  predicate Names(op: WriteOp, link: LinkId) {
    op.Upsert? && op.placement.link == Some(link)
  }

  function Tracked(t: Track, op: WriteOp, link: LinkId): Track {
    match op
    case Upsert(p) => if p.link == Some(link) then Held(p.handle) else t
    case Drop(_, handle, reason) => if t != Held(handle) then t else if reason.Deleted? then Unheld else LetGo
    case _ => t
  }

  function TrackAll(t: Track, ops: seq<WriteOp>, link: LinkId): Track {
    if ops == [] then t else Tracked(TrackAll(t, ops[..|ops| - 1], link), ops[|ops| - 1], link)
  }

  /** A binding set aside is bound no more. */
  ghost predicate SetAsideIsUnbound(h: HubState, s: Source) {
    forall l :: l in h.rebinding ==> l in h.items && s !in h.items[l].sources
  }

  lemma UpsertTracks(h: HubState, s: Source, p: Placement, link: LinkId)
    requires SetAsideIsUnbound(h, s)
    ensures var h' := AbsorbUpsert(h, s, p);
      SetAsideIsUnbound(h', s) && TrackOf(h', s, link) == Tracked(TrackOf(h, s, link), Upsert(p), link)
  {
    if p.link.Some? {
      UpsertBinds(h, s, p);
      hide AbsorbUpsert;
    }
  }

  /** An upsert binds its own item under its handle and leaves the others alone. */
  lemma UpsertBinds(h: HubState, s: Source, p: Placement)
    requires p.link.Some?
    ensures var link, h' := p.link.value, AbsorbUpsert(h, s, p);
      && h'.rebinding == h.rebinding - {link} && h'.items.Keys == h.items.Keys + {link}
      && (forall l :: l in h.items && l != link ==> h'.items[l] == h.items[l])
      && BoundAt(h'.items[link], s, p.handle)
  {
    hide Settled, Met, KeptEntries, LostEntry;
  }

  lemma DropTracks(h: HubState, s: Source, handle: Handle, reason: DropReason, link: LinkId)
    requires SetAsideIsUnbound(h, s)
    ensures var h' := AbsorbDrop(h, s, handle, reason);
      && SetAsideIsUnbound(h', s)
      && TrackOf(h', s, link) == Tracked(TrackOf(h, s, link), Drop("", handle, reason), link)
  {
  }

  /** The hub's own account of a source's bindings is the track of the ops, link by link. */
  lemma {:induction false} OpsTrack(h: HubState, s: Source, ops: seq<WriteOp>, link: LinkId)
    requires SetAsideIsUnbound(h, s)
    ensures var h' := AbsorbOps(h, s, ops);
      SetAsideIsUnbound(h', s) && TrackOf(h', s, link) == TrackAll(TrackOf(h, s, link), ops, link)
  {
    if ops != [] {
      hide AbsorbUpsert, AbsorbDrop, SetAsideIsUnbound;
      var init, op := ops[..|ops| - 1], ops[|ops| - 1];
      OpsTrack(h, s, init, link);
      var h1 := AbsorbOps(h, s, init);
      match op {
        case Upsert(p) => UpsertTracks(h1, s, p, link);
        case Drop(_, handle, reason) => DropTracks(h1, s, handle, reason, link);
        case Overrule(_, handle) => SameBindingsSameTrack(h1, h1.(overruling := h1.overruling + {handle}), s, link);
        case Settle(_, handle) => SameBindingsSameTrack(h1, h1.(settling := h1.settling + {handle}), s, link);
        case _ =>
      }
    }
  }

  lemma SameBindingsSameTrack(h: HubState, h': HubState, s: Source, link: LinkId)
    requires h'.items == h.items && h'.rebinding == h.rebinding && SetAsideIsUnbound(h, s)
    ensures SetAsideIsUnbound(h', s) && TrackOf(h', s, link) == TrackOf(h, s, link)
  {
  }

  /** The `i`-th op is a licensed drop that lets go of the item. */
  predicate LetsGo(t: Track, ops: seq<WriteOp>, i: nat, link: LinkId)
    requires i < |ops|
  {
    ops[i].Drop? && !ops[i].reason.Deleted? && TrackAll(t, ops[..i], link) == Held(ops[i].handle)
  }

  ghost predicate NamedAfter(ops: seq<WriteOp>, i: nat, link: LinkId) {
    exists k :: i < k < |ops| && Names(ops[k], link)
  }

  /** Every licensed drop that lets go of the item is followed by an upsert of it. */
  ghost predicate TakenUp(t: Track, ops: seq<WriteOp>, link: LinkId) {
    forall i :: 0 <= i < |ops| && LetsGo(t, ops, i, link) ==> NamedAfter(ops, i, link)
  }

  lemma OneMoreOp(t: Track, ops: seq<WriteOp>, i: nat, link: LinkId)
    requires i < |ops| - 1
    ensures LetsGo(t, ops, i, link) <==> LetsGo(t, ops[..|ops| - 1], i, link)
    ensures NamedAfter(ops, i, link) <==> NamedAfter(ops[..|ops| - 1], i, link) || Names(ops[|ops| - 1], link)
  {
    var init, n := ops[..|ops| - 1], |ops| - 1;
    assert ops[..i] == init[..i];
    hide TrackAll, Names;
    if k :| i < k < |init| && Names(init[k], link) {
      assert Names(ops[k], link);
    }
    if k :| i < k < |ops| && Names(ops[k], link) {
      assert k < n ==> Names(init[k], link);
    }
  }

  lemma TakenUpNext(t: Track, ops: seq<WriteOp>, link: LinkId)
    requires ops != []
    ensures TakenUp(t, ops, link) <==>
      && !LetsGo(t, ops, |ops| - 1, link)
      && (TakenUp(t, ops[..|ops| - 1], link) || Names(ops[|ops| - 1], link))
  {
    hide LetsGo, NamedAfter, Names;
    var init, n := ops[..|ops| - 1], |ops| - 1;
    forall i | 0 <= i < n
      ensures LetsGo(t, ops, i, link) <==> LetsGo(t, init, i, link)
      ensures NamedAfter(ops, i, link) <==> NamedAfter(init, i, link) || Names(ops[n], link)
    {
      OneMoreOp(t, ops, i, link);
    }
    NothingAfterLast(ops, link);
    NamingIsNoDrop(t, ops, link);
  }

  lemma NothingAfterLast(ops: seq<WriteOp>, link: LinkId)
    requires ops != []
    ensures !NamedAfter(ops, |ops| - 1, link)
  {
  }

  lemma NamingIsNoDrop(t: Track, ops: seq<WriteOp>, link: LinkId)
    requires ops != []
    ensures Names(ops[|ops| - 1], link) ==> !LetsGo(t, ops, |ops| - 1, link)
  {
  }

  lemma {:induction false} TakenUpIff(t: Track, ops: seq<WriteOp>, link: LinkId)
    requires !t.LetGo?
    ensures TakenUp(t, ops, link) <==> !TrackAll(t, ops, link).LetGo?
  {
    if ops != [] {
      TakenUpNext(t, ops, link);
      TakenUpIff(t, ops[..|ops| - 1], link);
      hide TakenUp;
    }
  }

  /** The batch takes up every item its licensed drops let go of, as the hub before it binds them. */
  ghost predicate ClosedBatch(h: HubState, s: Source, ops: seq<WriteOp>) {
    forall link :: TakenUp(TrackOf(h, s, link), ops, link)
  }

  /** Read off the batch and the items before it, this is the hub ending with nothing set aside. */
  lemma ClosedBatchIff(h: HubState, s: Source, ops: seq<WriteOp>)
    requires Idle(h)
    ensures ClosedBatch(h, s, ops) <==> AbsorbOps(h, s, ops).rebinding == map[]
  {
    hide AbsorbOps, TakenUp, TrackAll;
    var h' := AbsorbOps(h, s, ops);
    forall link
      ensures TakenUp(TrackOf(h, s, link), ops, link) <==> link !in h'.rebinding
    {
      OpsTrack(h, s, ops, link);
      TakenUpIff(TrackOf(h, s, link), ops, link);
    }
    assert h'.rebinding == map[] <==> forall link :: link !in h'.rebinding;
  }

  // ---------- Runs whose batches are closed ----------

  predicate Bodyless(base: Option<Base>) {
    base.None? || base.value.body.None?
  }

  /** A live upsert, a licensed drop, or an op the hub only passes by. */
  predicate OwnOp(op: WriteOp) {
    match op
    case Upsert(p) => !p.status.Tombstone? && (p.body.None? ==> Bodyless(p.base))
    case Drop(_, _, reason) => !reason.Deleted?
    case _ => true
  }

  ghost predicate OwnOps(ops: seq<WriteOp>) {
    forall i :: 0 <= i < |ops| ==> OwnOp(ops[i])
  }

  /** The binding agreed on the body the item holds, or pins none while it holds none. */
  predicate Consistent(item: Item, binding: Binding) {
    if item.body.Some? then binding.sharedBody == item.body else Bodyless(binding.base)
  }

  predicate OwnItem(item: Item, s: Source, link: LinkId, rebinding: map<LinkId, Binding>) {
    && item.sources.Keys <= {s}
    && !item.conflicted
    && if s in item.sources then Consistent(item, item.sources[s])
       else link in rebinding && Consistent(item, rebinding[link])
  }

  ghost predicate OwnHub(h: HubState, s: Source) {
    && h.diverged == []
    && h.rebinding.Keys <= h.items.Keys
    && forall l :: l in h.items ==> OwnItem(h.items[l], s, l, h.rebinding)
  }

  lemma OwnUpsertSettles(item: Item, s: Source, p: Placement, policy: Policy, overruling: bool, settling: bool)
    requires item.sources.Keys <= {s} && !item.conflicted
    requires if s in item.sources then Consistent(item, item.sources[s]) else item.body == p.body
    requires p.body.None? ==> Bodyless(p.base)
    ensures var (after, verdict) := Settled(item, s, p, policy, overruling, settling);
      && !verdict.diverged && !after.conflicted && after.sources == item.sources
      && Consistent(after, LiveBinding(after, s, p))
  {
    RestatingKeepsFacts(item, s, p);
    var r := Restated(item, p);
    assert !(Mutable(r, p) && Diverges(r, s, p)) by {
      if s in item.sources && item.body.Some? {
        assert !HubMoved(r, s);
      }
    }
    var (decided, verdict) := Reconcile(r, s, p, policy);
    assert !decided.conflicted && !verdict.diverged;
  }

  lemma OwnMet(h: HubState, s: Source, p: Placement)
    requires OwnHub(h, s) && OwnOp(Upsert(p)) && p.link.Some?
    ensures var met := MetBy(h, s, p);
      && met.sources.Keys <= {s} && !met.conflicted
      && if s in met.sources then Consistent(met, met.sources[s]) else met.body == p.body
  {
  }

  lemma OwnReplaced(h: HubState, h': HubState, s: Source, link: LinkId, after: Item, binding: Binding)
    requires OwnHub(h, s) && after.sources.Keys <= {s} && !after.conflicted && Consistent(after, binding)
    requires h'.items == h.items[link := Bind(after, s, binding)] && h'.rebinding == h.rebinding - {link}
      && h'.diverged == []
    ensures OwnHub(h', s)
  {
    assert Consistent(Bind(after, s, binding), binding);
    hide Consistent;
    forall l | l in h'.items
      ensures OwnItem(h'.items[l], s, l, h'.rebinding)
    {
      assert l != link ==> h'.items[l] == h.items[l];
    }
  }

  lemma OwnUpsert(h: HubState, s: Source, p: Placement)
    requires OwnHub(h, s) && OwnOp(Upsert(p))
    ensures OwnHub(AbsorbUpsert(h, s, p), s)
  {
    if p.link.Some? {
      hide Settled, LiveBinding, Consistent, Met, AbsorbUpsert, OwnItem;
      var overruling, settling := p.handle in h.overruling, p.handle in h.settling;
      OwnMet(h, s, p);
      OwnUpsertSettles(MetBy(h, s, p), s, p, h.policy, overruling, settling);
      LiveUpsert(h, s, p);
      var after := Settled(MetBy(h, s, p), s, p, h.policy, overruling, settling).0;
      OwnReplaced(h, AbsorbUpsert(h, s, p), s, p.link.value, after, LiveBinding(after, s, p));
    }
  }

  lemma OwnDrop(h: HubState, s: Source, handle: Handle, reason: DropReason)
    requires OwnHub(h, s) && !reason.Deleted?
    ensures OwnHub(AbsorbDrop(h, s, handle, reason), s)
  {
  }

  lemma {:induction false} OwnBatch(h: HubState, s: Source, ops: seq<WriteOp>)
    requires OwnHub(h, s) && OwnOps(ops)
    ensures OwnHub(AbsorbOps(h, s, ops), s)
  {
    if ops != [] {
      var init, op := ops[..|ops| - 1], ops[|ops| - 1];
      OwnBatch(h, s, init);
      var h1 := AbsorbOps(h, s, init);
      match op {
        case Upsert(p) => OwnUpsert(h1, s, p);
        case Drop(_, handle, reason) => OwnDrop(h1, s, handle, reason);
        case _ =>
      }
    }
  }

  function AbsorbBatches(h: HubState, s: Source, batches: seq<seq<WriteOp>>): HubState {
    if batches == [] then h
    else Absorb(AbsorbBatches(h, s, batches[..|batches| - 1]), s, batches[|batches| - 1])
  }

  /** Every batch of the run is closed. */
  ghost predicate Closed(h: HubState, s: Source, batches: seq<seq<WriteOp>>) {
    forall k :: 0 <= k < |batches| ==> ClosedBatch(AbsorbBatches(h, s, batches[..k]), s, batches[k])
  }

  /**
    Over every run of one source's live upserts and licensed moves, no item is ever in a
    cross-source conflict and no upsert is ever recorded as diverged.
  */
  lemma {:induction false} SourceNeverDisagreesWithItself(h: HubState, s: Source, batches: seq<seq<WriteOp>>)
    requires OwnHub(h, s) && Idle(h) && Closed(h, s, batches)
    requires forall k :: 0 <= k < |batches| ==> OwnOps(batches[k])
    ensures var h' := AbsorbBatches(h, s, batches);
      OwnHub(h', s) && Idle(h') && h'.diverged == [] && forall l :: l in h'.items ==> !h'.items[l].conflicted
  {
    if batches != [] {
      var init, last := batches[..|batches| - 1], batches[|batches| - 1];
      assert forall k :: 0 <= k < |init| ==> init[k] == batches[k] && init[..k] == batches[..k];
      SourceNeverDisagreesWithItself(h, s, init);
      var h1 := AbsorbBatches(h, s, init);
      assert batches[..|init|] == init && ClosedBatch(h1, s, last);
      ClosedBatchIff(h1, s, last);
      OwnBatch(h1, s, last);
      hide AbsorbOps, ClosedBatch, OwnItem;
    }
  }

  /** A fresh hub is where such a run starts. */
  lemma FreshHubIsOwn(policy: Policy, s: Source)
    ensures OwnHub(HubState(map[], policy, [], [], [], map[], {}, {}), s)
  {
  }

  // ---------- Every run, closed or not: exactly when a source disagrees with itself ----------

  /** The binding agreed on no body, shared or synced. */
  predicate Blank(binding: Binding) {
    binding.sharedBody.None? && Bodyless(binding.base)
  }

  /** The item of one source, in agreement with it or out of touch. */
  predicate LooseItem(item: Item, s: Source, link: LinkId, rebinding: map<LinkId, Binding>) {
    && item.sources.Keys <= {s} && !item.conflicted
    && (s in item.sources ==> InTouch(item, item.sources[s]))
    && (link in rebinding ==> InTouch(item, rebinding[link]))
  }

  predicate InTouch(item: Item, binding: Binding) {
    Consistent(item, binding) || Blank(binding)
  }

  ghost predicate LooseHub(h: HubState, s: Source) {
    && h.rebinding.Keys <= h.items.Keys
    && forall l :: l in h.items ==> LooseItem(h.items[l], s, l, h.rebinding)
  }

  /**
    The upsert a source disputes its own item with: it agreed on no body of the item, which
    holds one, and it brings another under the manual policy, or withdraws a conflict body-less.
  */
  predicate DisputesItem(item: Item, s: Source, p: Placement, policy: Policy) {
    && (s in item.sources ==> Blank(item.sources[s]))
    && Mutable(item, p) && item.body.Some? && p.body != item.body
    && (if p.body.Some? then policy.Manual? else Resolving(item, s, p))
  }

  predicate Disputes(h: HubState, s: Source, p: Placement) {
    p.link.Some? && DisputesItem(MetBy(h, s, p), s, p, h.policy)
  }

  lemma LooseDivergesIff(item: Item, s: Source, p: Placement, policy: Policy)
    requires !item.conflicted && (s in item.sources ==> InTouch(item, item.sources[s]))
    ensures var (decided, verdict) := Reconcile(item, s, p, policy);
      verdict.diverged == decided.conflicted == DisputesItem(item, s, p, policy)
  {
    hide Mutable;
  }

  lemma LooseSettles(item: Item, s: Source, p: Placement, policy: Policy, overruling: bool, settling: bool)
    requires item.sources.Keys <= {s} && !item.conflicted
    requires s in item.sources ==> InTouch(item, item.sources[s])
    requires p.body.None? ==> Bodyless(p.base)
    ensures var (after, verdict) := Settled(item, s, p, policy, overruling, settling);
      && verdict.diverged == after.conflicted == DisputesItem(item, s, p, policy)
      && after.sources == item.sources
      && (!after.conflicted ==> InTouch(after, LiveBinding(after, s, p)))
  {
    hide Mutable, Restated;
    RestatingKeepsFacts(item, s, p);
    LooseDivergesIff(Restated(item, p), s, p, policy);
  }

  lemma LooseReplaced(h: HubState, h': HubState, s: Source, link: LinkId, after: Item, binding: Binding)
    requires LooseHub(h, s) && after.sources.Keys <= {s} && !after.conflicted && InTouch(after, binding)
    requires h'.items == h.items[link := Bind(after, s, binding)] && h'.rebinding == h.rebinding - {link}
    ensures LooseHub(h', s)
  {
    assert InTouch(Bind(after, s, binding), binding);
    hide InTouch;
    forall l | l in h'.items
      ensures LooseItem(h'.items[l], s, l, h'.rebinding)
    {
      assert l != link ==> h'.items[l] == h.items[l];
    }
  }

  lemma LooseMet(h: HubState, s: Source, p: Placement)
    requires LooseHub(h, s) && p.link.Some?
    ensures var met := MetBy(h, s, p);
      met.sources.Keys <= {s} && !met.conflicted && (s in met.sources ==> InTouch(met, met.sources[s]))
  {
  }

  /** One live upsert sets the source against itself exactly when it disputes its own item. */
  lemma UpsertDisputesIff(h: HubState, s: Source, p: Placement)
    requires LooseHub(h, s) && OwnOp(Upsert(p))
    ensures var h' := AbsorbUpsert(h, s, p);
      && h'.diverged == h.diverged + (if Disputes(h, s, p) then [p.handle] else [])
      && (p.link.Some? ==> p.link.value in h'.items && h'.items[p.link.value].conflicted == Disputes(h, s, p))
      && (!Disputes(h, s, p) ==> LooseHub(h', s))
  {
    if p.link.Some? {
      hide Settled, LiveBinding, InTouch, Met, AbsorbUpsert, LooseItem, DisputesItem;
      var overruling, settling := p.handle in h.overruling, p.handle in h.settling;
      LooseMet(h, s, p);
      LooseSettles(MetBy(h, s, p), s, p, h.policy, overruling, settling);
      LiveUpsert(h, s, p);
      var after := Settled(MetBy(h, s, p), s, p, h.policy, overruling, settling).0;
      if !Disputes(h, s, p) {
        LooseReplaced(h, AbsorbUpsert(h, s, p), s, p.link.value, after, LiveBinding(after, s, p));
      }
    }
  }

  lemma LooseDrop(h: HubState, s: Source, handle: Handle, reason: DropReason)
    requires LooseHub(h, s)
    ensures LooseHub(AbsorbDrop(h, s, handle, reason), s)
  {
  }

  /** No upsert of the batch disputes the item it meets. */
  ghost predicate Peaceful(h: HubState, s: Source, ops: seq<WriteOp>) {
    forall i :: 0 <= i < |ops| && ops[i].Upsert? ==> !Disputes(AbsorbOps(h, s, ops[..i]), s, ops[i].placement)
  }

  lemma PeacefulNext(h: HubState, s: Source, ops: seq<WriteOp>)
    requires ops != []
    ensures var init, op := ops[..|ops| - 1], ops[|ops| - 1];
      Peaceful(h, s, ops) <==> Peaceful(h, s, init) && !(op.Upsert? && Disputes(AbsorbOps(h, s, init), s, op.placement))
  {
    hide Disputes, AbsorbOps;
    var init := ops[..|ops| - 1];
    assert forall i :: 0 <= i < |init| ==> init[..i] == ops[..i] && init[i] == ops[i];
  }

  lemma OpNeverForgets(h: HubState, s: Source, op: WriteOp)
    ensures h.diverged <= AbsorbOp(h, s, op).diverged
  {
    hide Settled, Met, KeptEntries, LiveBinding;
  }

  lemma {:induction false} BatchDisagreesIff(h: HubState, s: Source, ops: seq<WriteOp>)
    requires LooseHub(h, s) && OwnOps(ops)
    ensures var h' := AbsorbOps(h, s, ops);
      && h.diverged <= h'.diverged && (h'.diverged == h.diverged <==> Peaceful(h, s, ops))
      && (Peaceful(h, s, ops) ==> LooseHub(h', s))
  {
    if ops != [] {
      hide AbsorbUpsert, AbsorbDrop, LooseItem, Disputes, Peaceful;
      var init, op := ops[..|ops| - 1], ops[|ops| - 1];
      BatchDisagreesIff(h, s, init);
      PeacefulNext(h, s, ops);
      var h1 := AbsorbOps(h, s, init);
      OpNeverForgets(h1, s, op);
      if Peaceful(h, s, init) {
        match op {
          case Upsert(p) => UpsertDisputesIff(h1, s, p);
          case Drop(_, handle, reason) => LooseDrop(h1, s, handle, reason);
          case _ =>
        }
      }
    } else {
      assert Peaceful(h, s, ops);
    }
  }

  /** No upsert of the run does. */
  ghost predicate PeacefulRun(h: HubState, s: Source, batches: seq<seq<WriteOp>>) {
    forall k :: 0 <= k < |batches| ==> Peaceful(AbsorbBatches(h, s, batches[..k]), s, batches[k])
  }

  lemma PeacefulRunNext(h: HubState, s: Source, batches: seq<seq<WriteOp>>)
    requires batches != []
    ensures var init, last := batches[..|batches| - 1], batches[|batches| - 1];
      PeacefulRun(h, s, batches) <==> PeacefulRun(h, s, init) && Peaceful(AbsorbBatches(h, s, init), s, last)
  {
    hide Peaceful, AbsorbBatches;
    var init := batches[..|batches| - 1];
    assert forall k :: 0 <= k < |init| ==> init[k] == batches[k] && init[..k] == batches[..k];
    assert batches[..|init|] == init;
  }

  lemma {:induction false} RunNeverForgets(h: HubState, s: Source, ops: seq<WriteOp>)
    ensures h.diverged <= AbsorbOps(h, s, ops).diverged
  {
    if ops != [] {
      RunNeverForgets(h, s, ops[..|ops| - 1]);
      OpNeverForgets(AbsorbOps(h, s, ops[..|ops| - 1]), s, ops[|ops| - 1]);
    }
  }

  /**
    Over every run of one source's live upserts and licensed drops, whatever its batches
    leave open, a divergence is recorded if and only if some upsert of it disputes its own
    item; and while none does, no item is in conflict.
  */
  lemma {:induction false} SourceDisagreesIff(h: HubState, s: Source, batches: seq<seq<WriteOp>>)
    requires LooseHub(h, s) && forall k :: 0 <= k < |batches| ==> OwnOps(batches[k])
    ensures var h' := AbsorbBatches(h, s, batches);
      && h.diverged <= h'.diverged && (h'.diverged == h.diverged <==> PeacefulRun(h, s, batches))
      && (PeacefulRun(h, s, batches) ==> LooseHub(h', s) && forall l :: l in h'.items ==> !h'.items[l].conflicted)
  {
    if batches != [] {
      hide AbsorbOps, LooseHub, Peaceful, PeacefulRun, OwnOps;
      var init, last := batches[..|batches| - 1], batches[|batches| - 1];
      SourceDisagreesIff(h, s, init);
      var h1 := AbsorbBatches(h, s, init);
      RunNeverForgets(h1, s, last);
      PeacefulRunNext(h, s, batches);
      if PeacefulRun(h, s, init) {
        BatchDisagreesIff(h1, s, last);
        if Peaceful(h1, s, last) {
          LooseEnded(AbsorbOps(h1, s, last), s);
        }
      }
    }
    LooseIsUnconflicted(AbsorbBatches(h, s, batches), s);
  }

  lemma LooseEnded(h: HubState, s: Source)
    requires LooseHub(h, s)
    ensures LooseHub(Ended(h), s)
  {
  }

  lemma LooseIsUnconflicted(h: HubState, s: Source)
    ensures LooseHub(h, s) ==> forall l :: l in h.items ==> !h.items[l].conflicted
  {
  }

  lemma OwnIsLoose(h: HubState, s: Source)
    requires OwnHub(h, s) && Idle(h)
    ensures LooseHub(h, s)
  {
  }

  /** From a hub in agreement with its one source, so a fresh one: no divergence exactly while nothing is disputed. */
  lemma OwnSourceDisagreesIff(h: HubState, s: Source, batches: seq<seq<WriteOp>>)
    requires OwnHub(h, s) && Idle(h) && forall k :: 0 <= k < |batches| ==> OwnOps(batches[k])
    ensures AbsorbBatches(h, s, batches).diverged == [] <==> PeacefulRun(h, s, batches)
  {
    hide PeacefulRun, OwnItem, LooseHub, AbsorbBatches, OwnOps;
    OwnIsLoose(h, s);
    SourceDisagreesIff(h, s, batches);
  }

  lemma {:induction false} PolicyStays(h: HubState, s: Source, ops: seq<WriteOp>)
    ensures AbsorbOps(h, s, ops).policy == h.policy
  {
    if ops != [] {
      hide Settled, Met, KeptEntries, LiveBinding;
      PolicyStays(h, s, ops[..|ops| - 1]);
    }
  }

  lemma {:induction false} PolicyStaysOverRun(h: HubState, s: Source, batches: seq<seq<WriteOp>>)
    ensures AbsorbBatches(h, s, batches).policy == h.policy
  {
    if batches != [] {
      PolicyStaysOverRun(h, s, batches[..|batches| - 1]);
      PolicyStays(AbsorbBatches(h, s, batches[..|batches| - 1]), s, batches[|batches| - 1]);
    }
  }

  /** A run whose upserts all carry a body. */
  ghost predicate Bodied(batches: seq<seq<WriteOp>>) {
    forall k, i :: 0 <= k < |batches| && 0 <= i < |batches[k]| && batches[k][i].Upsert? ==>
      batches[k][i].placement.body.Some?
  }

  /** Under either prefer policy a source whose upserts carry bodies never disagrees with itself, closed or not. */
  lemma PreferredNeverDisagrees(h: HubState, s: Source, batches: seq<seq<WriteOp>>)
    requires LooseHub(h, s) && forall k :: 0 <= k < |batches| ==> OwnOps(batches[k])
    requires !h.policy.Manual? && Bodied(batches)
    ensures AbsorbBatches(h, s, batches).diverged == h.diverged
  {
    hide AbsorbOps, LooseHub, OwnOps, AbsorbBatches, MetBy, Mutable;
    SourceDisagreesIff(h, s, batches);
    forall k | 0 <= k < |batches|
      ensures Peaceful(AbsorbBatches(h, s, batches[..k]), s, batches[k])
    {
      var h1 := AbsorbBatches(h, s, batches[..k]);
      PolicyStaysOverRun(h, s, batches[..k]);
      forall i | 0 <= i < |batches[k]| && batches[k][i].Upsert?
        ensures !Disputes(AbsorbOps(h1, s, batches[k][..i]), s, batches[k][i].placement)
      {
        PolicyStays(h1, s, batches[k][..i]);
      }
    }
  }

  // ---------- A rename split over two batches ----------

  /**
    A live upsert of an item its source does not bind, with nothing set aside for it,
    conflicts exactly when both bodies are known and differ, the content is mutable and the
    policy manual.
  */
  lemma UnboundUpsertConflictsIff(h: HubState, s: Source, p: Placement)
    requires p.link.Some? && p.link.value in h.items && !p.status.Tombstone?
    requires var item := h.items[p.link.value]; s !in item.sources && !item.conflicted
    requires p.link.value !in h.rebinding
    ensures var item := h.items[p.link.value];
      AbsorbUpsert(h, s, p).items[p.link.value].conflicted <==>
      Mutable(item, p) && h.policy.Manual? && item.body.Some? && p.body.Some? && p.body != item.body
  {
    hide AbsorbUpsert, Restated, Mutable;
    EndsAsWeighed(h, s, p);
    RestatingKeepsFacts(h.items[p.link.value], s, p);
    LooseDivergesIff(Restated(h.items[p.link.value], p), s, p, h.policy);
  }

  /** What a licensed drop in a batch of its own leaves: the item unbound, the binding forgotten. */
  lemma LetGoInOneBatch(h: HubState, s: Source, c: Collection, link: LinkId, reason: DropReason)
    requires Idle(h) && link in h.items && s in h.items[link].sources && !reason.Deleted?
    ensures var item, h1 := h.items[link], Absorb(h, s, [Drop(c, h.items[link].sources[s].handle, reason)]);
      && Idle(h1) && h1.policy == h.policy && link in h1.items
      && h1.items[link] == item.(sources := item.sources - {s})
  {
    AbsorbOne(h, s, Drop(c, h.items[link].sources[s].handle, reason));
  }

  /**
    A rename whose drop and upsert land in two batches: the source comes back as a stranger,
    and the edit riding on the rename conflicts exactly when the content is mutable, the
    policy manual and the two bodies known and different. In one batch it never does.
  */
  lemma SplitRenameConflictsIff(h: HubState, s: Source, c: Collection, link: LinkId, reason: DropReason, p: Placement)
    requires Idle(h) && link in h.items && h.items[link].sources.Keys == {s} && !h.items[link].conflicted
    requires !reason.Deleted? && p.link == Some(link) && !p.status.Tombstone?
    ensures var item := h.items[link];
      var h1 := Absorb(h, s, [Drop(c, item.sources[s].handle, reason)]);
      var h2 := Absorb(h1, s, [Upsert(p)]);
      && link in h2.items
      && (h2.items[link].conflicted <==>
          Revised(p.base) && h.policy.Manual? && item.body.Some? && p.body.Some? && p.body != item.body)
  {
    LetGoInOneBatch(h, s, c, link, reason);
    hide Absorb;
    var h1 := Absorb(h, s, [Drop(c, h.items[link].sources[s].handle, reason)]);
    assert h1.items[link].sources == map[];
    OneUpsert(h1, s, p);
    UnboundUpsertConflictsIff(h1, s, p);
    EndsAsWeighed(h1, s, p);
  }

  /** Such a rename at one input. */
  lemma SplitRenameConflicts(s: Source, link: LinkId) returns (h: HubState, dropped: seq<WriteOp>, moved: seq<WriteOp>)
    ensures OwnHub(h, s) && Idle(h) && OwnOps(dropped) && OwnOps(moved)
    ensures var h' := Absorb(Absorb(h, s, dropped), s, moved);
      link in h'.items && h'.items[link].conflicted
  {
    hide Absorb;
    var base := Base(NO_FLAGS, Some("r"), Some("a"));
    var binding := Binding("1", Some(base), false, None, None, Some("a"));
    var item := Item(NO_FLAGS, Some("a"), None, "", Full, false, false, None, map[s := binding]);
    h := HubState(map[link := item], Manual, [], [], [], map[], {}, {});
    var edit := Placement("c", "2", Some(link), Some("b"), Full, None, "", NO_FLAGS, Dirty, None, None, Some(base),
      None);
    dropped, moved := [Drop("c", "1", Rekeyed)], [Upsert(edit)];
    assert h.items[link].sources.Keys == {s};
    SplitRenameConflictsIff(h, s, "c", link, Rekeyed, edit);
  }
}
