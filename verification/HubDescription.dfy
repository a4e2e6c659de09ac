/** Flags, summary, sort key and level: what an upsert leaves them at, and whose body they describe. */
module HubDescription {
  import opened Wrappers
  import opened Entities
  import opened HubModel
  import opened HubMerge

  function SummaryBrought(held: Item, p: Placement): Option<Summary> {
    if p.summary.Some? then Some(p.summary.value.Stored()) else held.summary
  }

  function SortKeyBrought(held: Item, p: Placement): SortKey {
    if p.sortKey == "" then held.sortKey else p.sortKey
  }

  /** The upsert's body is not the one the item ends on: it diverged and was refused or recorded. */
  predicate Refused(met: Item, s: Source, p: Placement, policy: Policy) {
    Mutable(met, p) && Diverges(met, s, p) && (policy.PreferIncoming? ==> p.body.None? || met.body.None?)
  }

  /** It filled the item, and the policy preferred the divergence recorded before. */
  predicate FilledThenLost(met: Item, s: Source, p: Placement, policy: Policy) {
    Mutable(met, p) && Fills(met, s, p) && met.conflicted && met.conflictBody.Some? && policy.PreferIncoming?
  }

  lemma RestatingSays(met: Item, s: Source, p: Placement, policy: Policy)
    ensures var r := Restated(met, p);
      && r.summary == SummaryBrought(met, p) && r.sortKey == SortKeyBrought(met, p) && r.level == met.level
      && r.flags == (if p.flags.Unknown? then met.flags else p.flags) && r.conflicted == met.conflicted
      && Refused(r, s, p, policy) == Refused(met, s, p, policy)
      && FilledThenLost(r, s, p, policy) == FilledThenLost(met, s, p, policy)
  {
    RestatingKeepsFacts(met, s, p);
    hide Mutable, Diverges, Fills;
  }

  /** The merge decides on the body alone, and says whether the description stays the held one. */
  lemma ReconcileSays(item: Item, s: Source, p: Placement, policy: Policy)
    ensures var (decided, verdict) := Reconcile(item, s, p, policy);
      && verdict.keptShared == (Refused(item, s, p, policy) || FilledThenLost(item, s, p, policy))
      && decided.summary == item.summary && decided.sortKey == item.sortKey
      && decided.level == item.level && decided.flags == item.flags
  {
    hide Mutable;
  }

  lemma SettledIsDescribed(met: Item, s: Source, p: Placement, policy: Policy, overruling: bool, settling: bool)
    ensures var after := Settled(met, s, p, policy, overruling, settling).0;
      var kept := !(settling && met.conflicted && p.body.Some?) &&
                  (Refused(met, s, p, policy) || FilledThenLost(met, s, p, policy));
      && after.summary == (if kept then met.summary else SummaryBrought(met, p))
      && after.sortKey == (if kept then met.sortKey else SortKeyBrought(met, p))
      && (after.level.Full? <==> after.body.Some? && (met.level.Full? || p.level.Full?))
      && after.flags == (if p.flags.Unknown? then met.flags else p.flags)
  {
    hide Mutable, Reconcile, Refused, FilledThenLost, Restated;
    RestatingSays(met, s, p, policy);
    ReconcileSays(Restated(met, p), s, p, policy);
  }

  /** Exactly whose summary and sort key the item ends with, and at which level. */
  lemma DescribedIff(h: HubState, s: Source, p: Placement)
    requires p.link.Some? && !p.status.Tombstone?
    ensures var met, h' := MetBy(h, s, p), AbsorbUpsert(h, s, p);
      && p.link.value in h'.items
      && var after := h'.items[p.link.value];
         var kept := !SettlesOutright(h, s, p) &&
                     (Refused(met, s, p, h.policy) || FilledThenLost(met, s, p, h.policy));
         && after.summary == (if kept then met.summary else SummaryBrought(met, p))
         && after.sortKey == (if kept then met.sortKey else SortKeyBrought(met, p))
         && (after.level.Full? <==> after.body.Some? && (met.level.Full? || p.level.Full?))
         && after.flags == (if p.flags.Unknown? then met.flags else p.flags)
  {
    hide Met, Settled, AbsorbUpsert, LiveBinding, Refused, FilledThenLost;
    LiveUpsert(h, s, p);
    SettledIsDescribed(MetBy(h, s, p), s, p, h.policy, p.handle in h.overruling, p.handle in h.settling);
  }

  /** An item that ends on the upsert's body is described by the upsert, unless the body came of a fill. */
  lemma AdoptedIsDescribed(h: HubState, s: Source, p: Placement)
    requires p.link.Some? && !p.status.Tombstone? && !Fills(MetBy(h, s, p), s, p)
    requires p.link.value in AbsorbUpsert(h, s, p).items && AbsorbUpsert(h, s, p).items[p.link.value].body == p.body
    ensures var met, after := MetBy(h, s, p), AbsorbUpsert(h, s, p).items[p.link.value];
      after.summary == SummaryBrought(met, p) && after.sortKey == SortKeyBrought(met, p)
  {
    hide AbsorbUpsert, Met, Restated, Mutable;
    DescribedIff(h, s, p);
    EndsAsWeighed(h, s, p);
    RestatingKeepsFacts(MetBy(h, s, p), s, p);
  }

  /** An item that keeps its body against a divergence keeps the description of that body. */
  lemma KeptIsDescribed(h: HubState, s: Source, p: Placement)
    requires LiveMerge(h, s, p) && Diverges(MetBy(h, s, p), s, p) && p.handle !in h.settling
    requires p.link.value in AbsorbUpsert(h, s, p).items
    requires AbsorbUpsert(h, s, p).items[p.link.value].body == MetBy(h, s, p).body
    ensures var met, after := MetBy(h, s, p), AbsorbUpsert(h, s, p).items[p.link.value];
      after.summary == met.summary && after.sortKey == met.sortKey
  {
    hide AbsorbUpsert, Met, Restated, Mutable;
    DescribedIff(h, s, p);
    EndsAsWeighed(h, s, p);
    RestatingKeepsFacts(MetBy(h, s, p), s, p);
  }

  // ---------- The bodies set aside ----------

  /** The entry speaks of this write: its source, its handle, its item. */
  predicate EntryOf(e: Overruled, s: Source, p: Placement) {
    p.link == Some(e.link) && e.source == s && e.handle == p.handle
  }

  /** A loser is set aside as its own side described it: the shared as held, the incoming as brought. */
  lemma LoserIsDescribed(h: HubState, s: Source, p: Placement)
    requires LiveMerge(h, s, p) && p.handle !in h.settling && p.handle !in h.overruling
    requires !Fills(MetBy(h, s, p), s, p)
    ensures var met, h' := MetBy(h, s, p), AbsorbUpsert(h, s, p);
      && h.overruled <= h'.overruled && |h'.overruled| <= |h.overruled| + 1
      && (|h'.overruled| > |h.overruled| ==>
          var e, flags := h'.overruled[|h.overruled|], if p.flags.Unknown? then met.flags else p.flags;
          && EntryOf(e, s, p) && e.flags == flags && met.body != p.body
          && (Some(e.body) == met.body || Some(e.body) == p.body)
          && (Some(e.body) == met.body ==> e.summary == met.summary && e.sortKey == met.sortKey)
          && (Some(e.body) == p.body ==>
              && e.summary == (if p.summary.Some? then Some(p.summary.value.Stored()) else None)
              && e.sortKey == p.sortKey))
  {
    hide Met, Mutable, LiveBinding;
    RestatingKeepsFacts(MetBy(h, s, p), s, p);
  }

  /** A fill's loser likewise: the incoming as brought, the recorded one as nobody described it. */
  lemma FillLoserIsDescribed(h: HubState, s: Source, p: Placement)
    requires LiveMerge(h, s, p) && p.handle !in h.settling && p.handle !in h.overruling
    requires Fills(MetBy(h, s, p), s, p) && MetBy(h, s, p).conflictBody != p.body
    ensures var met, h' := MetBy(h, s, p), AbsorbUpsert(h, s, p);
      && h.overruled <= h'.overruled && |h'.overruled| <= |h.overruled| + 1
      && (|h'.overruled| > |h.overruled| ==>
          var e := h'.overruled[|h.overruled|];
          && EntryOf(e, s, p) && (Some(e.body) == met.conflictBody || Some(e.body) == p.body)
          && (Some(e.body) == met.conflictBody ==> e.summary.None? && e.sortKey == met.sortKey)
          && (Some(e.body) == p.body ==>
              && e.summary == (if p.summary.Some? then Some(p.summary.value.Stored()) else None)
              && e.sortKey == p.sortKey))
      && (h'.unsummarized == h.unsummarized + (if FilledThenLost(met, s, p, h.policy) then [p.link.value] else []))
  {
    hide Met, Mutable, LiveBinding;
    RestatingKeepsFacts(MetBy(h, s, p), s, p);
  }

  /** What an overrule keeps, in order: the binding's diverging body, then the item's, each as the item was flagged. */
  lemma KeptInOrder(h: HubState, s: Source, p: Placement)
    requires p.link.Some? && p.link.value in h.items && p.handle in h.overruling
    ensures var item, h' := h.items[p.link.value], AbsorbUpsert(h, s, p);
      var kept := OverruleKeeps(h, s, p);
      && |h.overruled| + |kept| <= |h'.overruled| && |kept| <= 2 && h.overruled <= h'.overruled
      && (forall i :: 0 <= i < |kept| ==>
            var e := h'.overruled[|h.overruled| + i];
            EntryOf(e, s, p) && e.body == kept[i] && e.flags == item.flags && e.summary.None?
              && e.sortKey == item.sortKey)
      && var own := if s in item.sources && item.sources[s].conflicted then item.sources[s].conflictBody else None;
         && (own.Some? && own != p.body ==> |kept| > 0 && kept[0] == own.value)
         && (|kept| == 2 ==> kept[0] != kept[1])
         && (forall body :: body in kept ==>
               Some(body) != p.body && (Some(body) == own || (item.conflicted && item.conflictBody == Some(body))))
  {
    hide Settled, Met, LiveBinding;
  }

  /** An overruling edit that states the shared body settles the item's conflict; another's restating does not. */
  lemma OverruleSettlesIff(h: HubState, s: Source, p: Placement)
    requires p.link.Some? && !p.status.Tombstone? && p.handle !in h.settling && p.body.Some?
    requires MetBy(h, s, p).conflicted && MetBy(h, s, p).body == p.body
    ensures var h' := AbsorbUpsert(h, s, p);
      && p.link.value in h'.items && h'.items[p.link.value].body == p.body
      && (h'.items[p.link.value].conflicted <==> p.handle !in h.overruling)
  {
    hide AbsorbUpsert, Met, Restated, Mutable;
    EndsAsWeighed(h, s, p);
    RestatingKeepsFacts(MetBy(h, s, p), s, p);
  }

  /** The stored form of a summary: an empty mail date is none, and nothing else changes. */
  lemma StoredOnce(summary: Summary)
    ensures summary.Stored().Stored() == summary.Stored()
    ensures summary.Mail? && summary.date == Some("") ==> summary.Stored() == summary.(date := None)
    ensures !(summary.Mail? && summary.date == Some("")) ==> summary.Stored() == summary
  {
  }

  /**
    A report that carries no body says nothing of one: over a held body, its size and
    attachments stand; with none held, the report's do. An invitation once read stands too.
  */
  lemma UnreadSays(held: Summary, said: Summary, holdsBody: bool)
    requires held.Mail? && said.Mail?
    ensures WithoutBody(Some(held), None, holdsBody) == Some(held)
    ensures WithoutBody(None, Some(said), holdsBody) == Some(said)
    ensures var r := WithoutBody(Some(held), Some(said), holdsBody);
      && r.Some? && r.value.Mail? && r.value.date == said.date && r.value.rest == said.rest
      && r.value.size == (if holdsBody then held else said).size
      && r.value.attachment == (if holdsBody then held else said).attachment
      && r.value.invitation == (if said.invitation.Some? then said else held).invitation
  {
  }

  /** A file likewise, and a summary of another kind replaces the held one whole. */
  lemma UnreadFileSays(held: Summary, said: Summary, holdsBody: bool)
    requires held.File? || said.File?
    ensures WithoutBody(Some(held), Some(said), holdsBody) ==
      Some(if held.File? && said.File? && holdsBody then File(held.size, said.rest) else said)
  {
  }

  // ---------- Tombstones and drops ----------

  /** A tombstone of an unknown item files it, deleted, as the row says it. */
  lemma UnknownTombstone(h: HubState, s: Source, p: Placement)
    requires p.link.Some? && p.link.value !in h.items && p.status.Tombstone?
    ensures var h', link := AbsorbUpsert(h, s, p), p.link.value;
      && h'.items.Keys == h.items.Keys + {link}
      && var item := h'.items[link];
         && item.deleted && !item.conflicted && item.body == p.body && item.flags == p.flags
         && item.summary == p.summary && item.sortKey == p.sortKey && item.level == p.level
         && s in item.sources && item.sources[s].handle == p.handle && item.sources[s].base == p.base
  {
  }

  /** A drop takes its source off what it binds there, deletes that exactly when it says so, and revives nothing. */
  lemma DropSays(h: HubState, s: Source, handle: Handle, reason: DropReason, link: LinkId)
    requires link in h.items
    ensures var h', was := AbsorbDrop(h, s, handle, reason), h.items[link];
      var bound := s in was.sources && was.sources[s].handle == handle;
      && link in h'.items
      && var item := h'.items[link];
         && (item.deleted <==> was.deleted || (bound && reason.Deleted?))
         && item == was.(deleted := item.deleted, sources := item.sources)
         && item.sources == (if bound then was.sources - {s} else was.sources)
         && (bound && !reason.Deleted? ==> link in h'.rebinding && h'.rebinding[link] == was.sources[s])
         && (!bound || reason.Deleted? ==>
             (link in h'.rebinding <==> link in h.rebinding) &&
             (link in h.rebinding ==> h'.rebinding[link] == h.rebinding[link]))
  {
  }

  // ---------- Fills, pulls and announcements ----------

  /**
    A body filling an emptied item whose conflict was recorded unread: the manual policy leaves
    the conflict standing over it, preferring what exists keeps it, preferring what is incoming
    takes the recorded one; and with none recorded it is simply the item's.
  */
  lemma FillEndsAs(h: HubState, s: Source, p: Placement)
    requires LiveMerge(h, s, p) && Fills(MetBy(h, s, p), s, p) && p.handle !in h.settling && p.handle !in h.overruling
    ensures var met, h' := MetBy(h, s, p), AbsorbUpsert(h, s, p);
      && p.link.value in h'.items
      && var after, recorded := h'.items[p.link.value], met.conflicted && met.conflictBody.Some?;
         && after.body == (if recorded && h.policy.PreferIncoming? then met.conflictBody else p.body)
         && (after.conflicted <==> met.conflicted && (!recorded || h.policy.Manual?))
         && (after.conflicted ==> after.conflictBody == met.conflictBody)
  {
    hide AbsorbUpsert, Met, Restated, Mutable;
    EndsAsWeighed(h, s, p);
    RestatingKeepsFacts(MetBy(h, s, p), s, p);
  }

  /** A pull that drops an edit: its base moved, absent or present or to another revision, over a body never synced. */
  lemma DropsEditIff(item: Item, s: Source, p: Placement)
    ensures var base := if s in item.sources then item.sources[s].base else None;
      DropsEdit(item, s, p) <==>
      && !(s in item.sources && item.sources[s].conflicted && !p.status.Conflict?)
      && item.body != (if base.Some? then base.value.body else None)
      && (p.base.Some? != base.Some? || (base.Some? && p.base.value.revision != base.value.revision))
  {
  }

  /** What announces an upsert, an overrule, a settle or a licensed drop, serves that upsert alone. */
  lemma AnnouncedOnce(h: HubState, s: Source, p: Placement)
    requires p.link.Some?
    ensures var h' := AbsorbUpsert(h, s, p);
      && h'.overruling == h.overruling - {p.handle} && h'.settling == h.settling - {p.handle}
      && h'.rebinding == h.rebinding - {p.link.value} && h'.policy == h.policy
  {
    hide Settled, Met, KeptEntries, LostEntry, LiveBinding;
  }
}
