/** What the cross-source merge keeps, body by body, and the runs in which it does not. */
module HubMerge {
  import opened Wrappers
  import opened Entities
  import opened HubModel

  // ---------- No body is lost to a merge ----------

  ghost predicate KeptAside(before: HubState, after: HubState, link: LinkId, body: Hash) {
    exists i :: |before.overruled| <= i < |after.overruled| && after.overruled[i].link == link
      && after.overruled[i].body == body
  }

  /** The body is still the item's, its recorded divergence, or one set aside by this write. */
  ghost predicate Keeps(before: HubState, after: HubState, link: LinkId, body: Hash) {
    || (link in after.items && after.items[link].body == Some(body))
    || (link in after.items && after.items[link].conflicted && after.items[link].conflictBody == Some(body))
    || KeptAside(before, after, link, body)
  }

  /** A live upsert of an item of mutable content. */
  predicate LiveMerge(h: HubState, s: Source, p: Placement) {
    && p.link.Some?
    && !p.status.Tombstone?
    && Mutable(MetBy(h, s, p), p)
  }

  function MetBy(h: HubState, s: Source, p: Placement): Item
    requires p.link.Some?
  {
    Met(h.items, h.rebinding, s, p.link.value, p)
  }

  lemma RestatingKeepsFacts(item: Item, s: Source, p: Placement)
    ensures var r := Restated(item, p);
      && r.body == item.body && r.sources == item.sources && !r.deleted
      && r.conflicted == item.conflicted && r.conflictBody == item.conflictBody
      && Mutable(r, p) == Mutable(item, p) && Fills(r, s, p) == Fills(item, s, p)
      && Diverges(r, s, p) == Diverges(item, s, p)
      && SourceEdited(r, s, p) == SourceEdited(item, s, p) && DropsEdit(r, s, p) == DropsEdit(item, s, p)
  {
    var r := Restated(item, p);
    assert r.sources == item.sources;
    assert Mutable(r, p) <==> Mutable(item, p);
  }

  function Weighing(h: HubState, s: Source, p: Placement): (Item, Verdict)
    requires p.link.Some?
  {
    Decide(Restated(MetBy(h, s, p), p), s, p, h.policy, p.handle in h.settling)
  }

  /** The bodies an overrule announced for the upsert keeps. */
  function OverruleKeeps(h: HubState, s: Source, p: Placement): seq<Hash>
    requires p.link.Some?
  {
    if p.handle in h.overruling && p.link.value in h.items then KeptBodies(h.items[p.link.value], s, p) else []
  }

  /** What a live upsert sets aside: the bodies its overrule keeps and its merge's loser, no other. */
  lemma KeptAsideIff(h: HubState, s: Source, p: Placement, body: Hash)
    requires p.link.Some? && !p.status.Tombstone?
    ensures KeptAside(h, AbsorbUpsert(h, s, p), p.link.value, body) <==>
      || body in OverruleKeeps(h, s, p)
      || (Weighing(h, s, p).1.lost.Some? && Weighing(h, s, p).1.lost.value.body == body)
  {
    hide Met, Decide, Restated, Described, LiveBinding, KeptBodies;
    var link, n, h' := p.link.value, |h.overruled|, AbsorbUpsert(h, s, p);
    var kept, lost := OverruleKeeps(h, s, p), Weighing(h, s, p).1.lost;
    assert |h'.overruled| == n + |kept| + (if lost.Some? then 1 else 0);
    assert forall i :: 0 <= i < |kept| ==> h'.overruled[n + i].link == link && h'.overruled[n + i].body == kept[i];
    assert lost.Some? ==> h'.overruled[n + |kept|].link == link && h'.overruled[n + |kept|].body == lost.value.body;
  }

  lemma NoLoserNoEntry(h: HubState, s: Source, p: Placement)
    requires p.link.Some? && !p.status.Tombstone?
    ensures p.handle !in h.overruling && Weighing(h, s, p).1.lost.None? ==>
      AbsorbUpsert(h, s, p).overruled == h.overruled
  {
    hide Met, Decide, Restated, LiveBinding, KeptEntries;
    assert h.overruled + [] == h.overruled;
  }

  /** The body and the conflict a live upsert leaves are the merge's, but for what an overrule settles. */
  lemma EndsAsWeighed(h: HubState, s: Source, p: Placement)
    requires p.link.Some? && !p.status.Tombstone?
    ensures var h', decided := AbsorbUpsert(h, s, p), Overruling(Weighing(h, s, p).0, p, p.handle in h.overruling);
      && p.link.value in h'.items && h'.items[p.link.value].body == decided.body
      && h'.items[p.link.value].conflicted == decided.conflicted
      && h'.items[p.link.value].conflictBody == decided.conflictBody
  {
    hide Met, Decide, Restated, LiveBinding, KeptEntries;
  }

  /** A versioned base is written as it is. */
  lemma UpsertRebases(h: HubState, s: Source, p: Placement)
    requires p.link.Some? && !p.status.Tombstone? && Revised(p.base)
    ensures var h' := AbsorbUpsert(h, s, p); p.link.value in h'.items && BaseOf(h'.items[p.link.value], s) == p.base
  {
    hide Settled, Met, KeptEntries, LostEntry;
  }

  /** A person's edit settles the item's conflict outright. */
  predicate SettlesOutright(h: HubState, s: Source, p: Placement)
    requires p.link.Some?
  {
    p.handle in h.settling && MetBy(h, s, p).conflicted && p.body.Some?
  }

  lemma RecordedIsStored(h: HubState, s: Source, p: Placement)
    requires p.link.Some? && MetBy(h, s, p).conflicted
    ensures p.link.value in h.items && h.items[p.link.value].conflicted
    ensures h.items[p.link.value].conflictBody == MetBy(h, s, p).conflictBody
  {
  }

  /** An overrule keeps the recorded divergence its edit does not adopt. */
  lemma OverruleKeepsRecorded(h: HubState, s: Source, p: Placement, recorded: Hash)
    requires p.link.Some? && MetBy(h, s, p).conflicted && MetBy(h, s, p).conflictBody == Some(recorded)
    requires p.handle in h.overruling && p.body != Some(recorded)
    ensures recorded in OverruleKeeps(h, s, p)
  {
    RecordedIsStored(h, s, p);
  }

  /**
    A recorded divergence: it survives a live upsert exactly when an overrule announced it,
    or nothing settled it outright and the upsert filled the item or moved no body.
  */
  lemma RecordedBodyKeptIff(h: HubState, s: Source, p: Placement, recorded: Hash)
    requires p.link.Some? && !p.status.Tombstone?
    requires MetBy(h, s, p).conflicted && MetBy(h, s, p).conflictBody == Some(recorded)
    requires Some(recorded) != p.body && Some(recorded) != MetBy(h, s, p).body
    ensures var met := MetBy(h, s, p);
      Keeps(h, AbsorbUpsert(h, s, p), p.link.value, recorded) <==>
      || p.handle in h.overruling
      || (!SettlesOutright(h, s, p) &&
          ((Mutable(met, p) && Fills(met, s, p)) || !SourceEdited(met, s, p) || p.body == met.body))
  {
    hide AbsorbUpsert, Met, Restated, KeptBodies, Mutable;
    RestatingKeepsFacts(MetBy(h, s, p), s, p);
    EndsAsWeighed(h, s, p);
    KeptAsideIff(h, s, p, recorded);
    if p.handle in h.overruling {
      OverruleKeepsRecorded(h, s, p, recorded);
    }
  }

  /**
    The shared body: it survives exactly when the upsert moved no body, diverged from it,
    dropped a local edit it then kept, or an overrule kept it.
  */
  lemma SharedBodyKeptIff(h: HubState, s: Source, p: Placement, shared: Hash)
    requires p.link.Some? && !p.status.Tombstone?
    requires MetBy(h, s, p).body == Some(shared) && p.body != Some(shared)
    ensures var met := MetBy(h, s, p);
      Keeps(h, AbsorbUpsert(h, s, p), p.link.value, shared) <==>
      || shared in OverruleKeeps(h, s, p)
      || (!SettlesOutright(h, s, p) &&
          (!SourceEdited(met, s, p) || (Mutable(met, p) && (HubMoved(met, s) || DropsEdit(met, s, p)))))
  {
    hide AbsorbUpsert, Met, Restated, KeptBodies, Mutable, OverruleKeeps;
    RestatingKeepsFacts(MetBy(h, s, p), s, p);
    EndsAsWeighed(h, s, p);
    KeptAsideIff(h, s, p, shared);
  }

  /**
    The incoming body: it is kept exactly when its source edited, a person settled with it,
    or it is the divergence the item had recorded.
  */
  lemma IncomingBodyKeptIff(h: HubState, s: Source, p: Placement, incoming: Hash)
    requires p.link.Some? && !p.status.Tombstone?
    requires p.body == Some(incoming) && MetBy(h, s, p).body != Some(incoming)
    ensures Keeps(h, AbsorbUpsert(h, s, p), p.link.value, incoming) <==>
      || SettlesOutright(h, s, p) || SourceEdited(MetBy(h, s, p), s, p)
      || (MetBy(h, s, p).conflicted && MetBy(h, s, p).conflictBody == Some(incoming))
  {
    hide AbsorbUpsert, Met, Restated, Mutable;
    RestatingKeepsFacts(MetBy(h, s, p), s, p);
    EndsAsWeighed(h, s, p);
    KeptAsideIff(h, s, p, incoming);
  }

  /**
    Where a live upsert fills an emptied item or diverges from it, nothing is lost whatever
    the policy: each body weighed ends somewhere to be found.
  */
  lemma MergeLosesNeither(h: HubState, s: Source, p: Placement)
    requires LiveMerge(h, s, p) && p.handle !in h.settling
    requires Fills(MetBy(h, s, p), s, p) || Diverges(MetBy(h, s, p), s, p)
    ensures var met, h' := MetBy(h, s, p), AbsorbUpsert(h, s, p);
      && (met.body.Some? ==> Keeps(h, h', p.link.value, met.body.value))
      && (p.body.Some? ==> Keeps(h, h', p.link.value, p.body.value))
      && (Fills(met, s, p) && met.conflicted && met.conflictBody.Some? ==>
          Keeps(h, h', p.link.value, met.conflictBody.value))
  {
    hide AbsorbUpsert, Met, Restated, KeptBodies, Mutable;
    var met := MetBy(h, s, p);
    RestatingKeepsFacts(met, s, p);
    EndsAsWeighed(h, s, p);
    forall body: Hash
      ensures var lost := Weighing(h, s, p).1.lost;
        lost.Some? && lost.value.body == body ==>
          KeptAside(h, AbsorbUpsert(h, s, p), p.link.value, body)
    {
      KeptAsideIff(h, s, p, body);
    }
    if Fills(met, s, p) && met.conflicted && met.conflictBody.Some? && met.conflictBody != p.body {
      RecordedBodyKeptIff(h, s, p, met.conflictBody.value);
    }
  }

  // ---------- Two sources, two edits ----------

  /** `s` holds the item at `body` and both it and the hub agree on that. */
  predicate AgreesOn(item: Item, s: Source, body: Hash) {
    && s in item.sources
    && Revised(item.sources[s].base)
    && !item.sources[s].conflicted
    && item.sources[s].base.value.body == Some(body)
    && item.sources[s].sharedBody == Some(body)
  }

  /** A source, the upsert it stages, and the body the upsert brings. */
  datatype Edit = Edit(s: Source, p: Placement, body: Hash)

  /** A local edit of the item made through its source: a new body over an untouched base. */
  predicate EditOf(h: HubState, link: LinkId, e: Edit)
    requires link in h.items && e.s in h.items[link].sources
  {
    var binding := h.items[link].sources[e.s];
    && e.p.link == Some(link) && e.p.status.Dirty? && e.p.body == Some(e.body)
    && e.p.handle == binding.handle && e.p.base == binding.base
    && e.p.conflictRevision.None?
  }

  /** What two edits over one body end as, the first folded in before the second. */
  ghost predicate EndsAs(before: HubState, after: HubState, link: LinkId, first: Hash, second: Hash) {
    link in after.items && before.overruled <= after.overruled &&
    var item, lost := after.items[link], after.overruled[|before.overruled|..];
    match before.policy
    case Manual => item.body == Some(first) && item.conflicted && item.conflictBody == Some(second) && lost == []
    case PreferIncoming =>
      item.body == Some(second) && !item.conflicted && |lost| == 1 && lost[0].body == first && lost[0].link == link
    case PreferExisting =>
      item.body == Some(first) && !item.conflicted && |lost| == 1 && lost[0].body == second && lost[0].link == link
  }

  /** `link` is live and agreed on `body` by two sources, each with an edit of its own. */
  predicate TwoEdits(h: HubState, link: LinkId, a: Edit, b: Edit, body: Hash) {
    && Idle(h) && link in h.items && !h.items[link].deleted && !h.items[link].conflicted
    && h.items[link].body == Some(body) && a.s != b.s
    && AgreesOn(h.items[link], a.s, body) && AgreesOn(h.items[link], b.s, body)
    && EditOf(h, link, a) && EditOf(h, link, b)
    && a.body != body && b.body != body && a.body != b.body
  }

  function AfterEdit(h: HubState, e: Edit): HubState {
    Absorb(h, e.s, [Upsert(e.p)])
  }

  lemma FirstEditIsAdopted(h: HubState, link: LinkId, e: Edit, body: Hash)
    requires Idle(h) && link in h.items && !h.items[link].deleted && !h.items[link].conflicted
    requires h.items[link].body == Some(body) && AgreesOn(h.items[link], e.s, body)
    requires EditOf(h, link, e) && e.body != body
    ensures var h' := AfterEdit(h, e);
      && Idle(h') && h'.policy == h.policy && h'.overruled == h.overruled && link in h'.items
      && var item := h'.items[link];
         && item.body == Some(e.body) && !item.conflicted && !item.deleted
         && SameOthers(h.items[link], item, e.s)
         && e.s in item.sources && item.sources[e.s] == h.items[link].sources[e.s].(
              conflictRevision := None, conflictBody := None, sharedBody := Some(e.body))
  {
    OneUpsert(h, e.s, e.p);
    RestatingKeepsFacts(h.items[link], e.s, e.p);
    assert Reconcile(Restated(h.items[link], e.p), e.s, e.p, h.policy) ==
      (Adopt(Restated(h.items[link], e.p), Some(e.body)), NOTHING);
  }

  lemma OneUpsert(h: HubState, s: Source, p: Placement)
    requires Idle(h)
    ensures Absorb(h, s, [Upsert(p)]) == Ended(AbsorbUpsert(h, s, p))
  {
    AbsorbOne(h, s, Upsert(p));
  }

  lemma DivergeIsSettled(item: Item, s: Source, p: Placement, policy: Policy)
    requires Diverges(item, s, p) && Mutable(item, p)
    ensures var (decided, verdict) := Diverge(Restated(item, p), p.body, policy);
      Settled(item, s, p, policy, false, false) == (Described(decided, item, p, verdict.keptShared), verdict)
  {
    hide Mutable, Described, Restated;
    RestatingKeepsFacts(item, s, p);
  }

  /** An edit of a source the item moved away from ends as the policy states. */
  lemma LateEditDiverges(h: HubState, link: LinkId, e: Edit)
    requires Idle(h) && link in h.items && !h.items[link].deleted && h.items[link].body.Some?
    requires e.s in h.items[link].sources && EditOf(h, link, e)
    requires Diverges(h.items[link], e.s, e.p) && Mutable(h.items[link], e.p)
    ensures var h' := AfterEdit(h, e);
      && Idle(h') && h'.policy == h.policy && link in h'.items && !h'.items[link].deleted
      && EndsAs(h, h', link, h.items[link].body.value, e.body)
      && SameOthers(h.items[link], h'.items[link], e.s)
  {
    hide Reconcile, Restated, LiveBinding, KeptEntries, Diverges, Mutable;
    OneUpsert(h, e.s, e.p);
    DivergeIsSettled(h.items[link], e.s, e.p, h.policy);
    RestatingKeepsFacts(h.items[link], e.s, e.p);
  }

  lemma SecondIsLate(h: HubState, link: LinkId, a: Edit, b: Edit, body: Hash)
    requires TwoEdits(h, link, a, b, body)
    ensures var h1 := AfterEdit(h, a);
      && link in h1.items && b.s in h1.items[link].sources && EditOf(h1, link, b)
      && Diverges(h1.items[link], b.s, b.p) && Mutable(h1.items[link], b.p)
  {
    hide Absorb;
    FirstEditIsAdopted(h, link, a, body);
    assert b.s in AfterEdit(h, a).items[link].sources;
  }

  lemma TwoEditsInOrder(h: HubState, link: LinkId, a: Edit, b: Edit, body: Hash)
    requires TwoEdits(h, link, a, b, body)
    ensures EndsAs(h, AfterEdit(AfterEdit(h, a), b), link, a.body, b.body)
  {
    hide Absorb, Diverges, Mutable;
    FirstEditIsAdopted(h, link, a, body);
    SecondIsLate(h, link, a, b, body);
    LateEditDiverges(AfterEdit(h, a), link, b);
  }

  /** Either order of the two edits ends as the policy states, no body lost in any. */
  lemma TwoEditsEitherOrder(h: HubState, link: LinkId, a: Edit, b: Edit, body: Hash)
    requires TwoEdits(h, link, a, b, body)
    ensures EndsAs(h, AfterEdit(AfterEdit(h, a), b), link, a.body, b.body)
    ensures EndsAs(h, AfterEdit(AfterEdit(h, b), a), link, b.body, a.body)
  {
    TwoEditsInOrder(h, link, a, b, body);
    TwoEditsInOrder(h, link, b, a, body);
  }

  // ---------- Two runs that lose a recorded body ----------

  /** The hub the two edits leave under the manual policy, the second one recorded. */
  lemma RecordedAfterTwo(h: HubState, link: LinkId, a: Edit, b: Edit, body: Hash)
    requires TwoEdits(h, link, a, b, body) && h.policy.Manual?
    ensures var h2, was := AfterEdit(AfterEdit(h, a), b), h.items[link];
      && Idle(h2) && h2.policy.Manual? && link in h2.items
      && var item := h2.items[link];
         && item.body == Some(a.body) && item.conflicted && item.conflictBody == Some(b.body) && !item.deleted
         && a.s in item.sources && item.sources[a.s].base == was.sources[a.s].base
         && item.sources[a.s].handle == was.sources[a.s].handle
         && item.sources[a.s].sharedBody == Some(a.body) && !item.sources[a.s].conflicted
         && forall t :: t != a.s && t != b.s && t in was.sources ==>
             t in item.sources && item.sources[t] == was.sources[t]
  {
    hide Absorb, Diverges, Mutable;
    FirstEditIsAdopted(h, link, a, body);
    SecondIsLate(h, link, a, b, body);
    LateEditDiverges(AfterEdit(h, a), link, b);
  }

  /** The first source edits again over its own body: a fast-forward, and the other's body is gone. */
  lemma FastForwardLosesRecorded(h: HubState, link: LinkId, a: Edit, b: Edit, body: Hash, again: Edit)
    requires TwoEdits(h, link, a, b, body) && h.policy.Manual?
    requires var h2 := AfterEdit(AfterEdit(h, a), b);
      link in h2.items && again.s == a.s && a.s in h2.items[link].sources && EditOf(h2, link, again)
    requires again.body !in {body, a.body, b.body}
    ensures var h2 := AfterEdit(AfterEdit(h, a), b);
      !Keeps(h2, AfterEdit(h2, again), link, b.body)
  {
    hide Absorb;
    RecordedAfterTwo(h, link, a, b, body);
    var h2 := AfterEdit(AfterEdit(h, a), b);
    OneUpsert(h2, a.s, again.p);
    RecordedBodyKeptIff(h2, a.s, again.p, b.body);
  }

  /** A third source edits too: its divergence takes the recorded one's place. */
  lemma ThirdEditLosesRecorded(h: HubState, link: LinkId, a: Edit, b: Edit, body: Hash, third: Edit)
    requires TwoEdits(h, link, a, b, body) && h.policy.Manual?
    requires third.s != a.s && third.s != b.s && AgreesOn(h.items[link], third.s, body)
    requires EditOf(h, link, third) && third.body !in {body, a.body, b.body}
    ensures var h2 := AfterEdit(AfterEdit(h, a), b);
      !Keeps(h2, AfterEdit(h2, third), link, b.body)
  {
    hide Absorb;
    RecordedAfterTwo(h, link, a, b, body);
    var h2 := AfterEdit(AfterEdit(h, a), b);
    OneUpsert(h2, third.s, third.p);
    assert EditOf(h2, link, third);
    RecordedBodyKeptIff(h2, third.s, third.p, b.body);
  }

  /** Both runs at one input: three sources agreed on "o", then "x", "y" and "w". */
  lemma RecordedBodyIsLost()
    ensures exists h: HubState, link: LinkId, a: Edit, b: Edit, again: Edit, third: Edit ::
      var h2 := AfterEdit(AfterEdit(h, a), b);
      && link in h2.items && h2.items[link].conflicted && h2.items[link].conflictBody == Some(b.body)
      && again.s == a.s && third.s != a.s && third.s != b.s
      && !Keeps(h2, AfterEdit(h2, again), link, b.body) && !Keeps(h2, AfterEdit(h2, third), link, b.body)
  {
    hide Absorb, Keeps;
    var h, a, b, again, third := Agreed(), At("a", "x"), At("b", "y"), At("a", "w"), At("c", "w");
    RecordedAfterTwo(h, "l", a, b, "o");
    FastForwardLosesRecorded(h, "l", a, b, "o", again);
    ThirdEditLosesRecorded(h, "l", a, b, "o", third);
  }

  function Agreed(): HubState {
    var binding := Binding("1", Some(Base(NO_FLAGS, Some("r"), Some("o"))), false, None, None, Some("o"));
    var item := Item(NO_FLAGS, Some("o"), None, "", Full, false, false, None,
                     map["a" := binding, "b" := binding, "c" := binding]);
    HubState(map["l" := item], Manual, [], [], [], map[], {}, {})
  }

  /** The edit of that run made through `s`. */
  function At(s: Source, body: Hash): Edit {
    Edit(s, Placement("c", "1", Some("l"), Some(body), Full, None, "", NO_FLAGS, Dirty, None, None,
                      Some(Base(NO_FLAGS, Some("r"), Some("o"))), None), body)
  }
}
