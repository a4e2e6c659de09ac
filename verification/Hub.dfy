/** The hub as the source keeps it: items updated in place as a batch is folded in. */
module HubClass {
  import opened Wrappers
  import opened Text
  import opened Entities
  import opened Keys
  import M = HubModel

  class Hub {
    var items: map<LinkId, M.Item>
    var policy: M.Policy
    var overruled: seq<M.Overruled>
    var diverged: seq<Handle>
    var unsummarized: seq<LinkId>
    var rebinding: map<LinkId, M.Binding>
    var overruling: set<Handle>
    var settling: set<Handle>

    ghost function State(): M.HubState
      reads this
    {
      M.HubState(items, policy, overruled, diverged, unsummarized, rebinding, overruling, settling)
    }

    constructor (policy: M.Policy)
      ensures State() == M.HubState(map[], policy, [], [], [], map[], {}, {})
    {
      this.items := map[];
      this.policy := policy;
      this.overruled, this.diverged, this.unsummarized := [], [], [];
      this.rebinding, this.overruling, this.settling := map[], {}, {};
    }

    /** Projects the placements a source loads, item by item in key order. */
    method ProjectWith(c: Collection, s: Source, origin: M.Resolver) returns (out: seq<Placement>)
      ensures out == M.Project(State(), c, s, origin)
    {
      hide Ascending;
      out := [];
      var links := Ascending(items.Keys);
      for i := 0 to |links|
        invariant out == M.ProjectLinks(State(), c, s, origin, links[..i])
      {
        assert links[..i + 1][..i] == links[..i];
        var link := links[i];
        var item := items[link];
        if item.sources == map[] {
          continue;
        }
        var placement;
        if item.deleted {
          if s !in item.sources {
            continue;
          }
          placement := M.BoundPlacement(c, link, item, item.sources[s], Tombstone);
        } else if s in item.sources {
          var binding := item.sources[s];
          placement := M.BoundPlacement(c, link, item, binding, M.BoundStatus(item, binding));
        } else {
          if item.body.None? {
            continue;
          }
          placement := M.ItemProjection(c, link, item, Provisional(link)).(status := Created, level := Full);
        }
        if placement.status.Created? || placement.status.Tombstone? {
          placement := placement.(origin := origin(placement));
        }
        out := out + [placement];
      }
      assert links[..|links|] == links;
    }

    /** Folds a batch in, op by op, then forgets what only the batch needed. */
    method Absorb(s: Source, writes: seq<WriteOp>)
      modifies this
      ensures State() == M.Absorb(old(State()), s, writes)
    {
      for i := 0 to |writes|
        invariant State() == M.AbsorbOps(old(State()), s, writes[..i])
      {
        assert writes[..i + 1][..i] == writes[..i];
        match writes[i] {
          case Upsert(placement) => AbsorbUpsert(s, placement);
          case Drop(_, handle, reason) => AbsorbDrop(s, handle, reason);
          case Overrule(_, handle) => overruling := overruling + {handle};
          case Settle(_, handle) => settling := settling + {handle};
          case _ =>
        }
      }
      assert writes[..|writes|] == writes;
      rebinding, overruling, settling := map[], {}, {};
    }

    method AbsorbUpsert(s: Source, p: Placement)
      modifies this
      ensures State() == M.AbsorbUpsert(old(State()), s, p)
    {
      hide M.Met, M.Buried, M.Settled, M.LiveBinding, M.KeptEntries, M.LostEntry;
      if p.link.None? {
        return;
      }
      var link := p.link.value;
      var overrules := p.handle in overruling;
      overruling := overruling - {p.handle};
      if overrules {
        KeepOverruled(s, link, p);
      }
      var settles := p.handle in settling;
      settling := settling - {p.handle};

      var item := Meet(s, link, p);
      assert State() == M.Consumed(old(State()), s, link, p);

      if p.status.Tombstone? {
        item := Bury(item, s, p);
        items := items[link := item];
        return;
      }

      var heldSummary, heldSortKey := item.summary, item.sortKey;
      var verdict;
      item, verdict := SettleContent(item, s, p, policy, overrules, settles);
      Record(s, link, p, item.flags, heldSummary, heldSortKey, verdict);
      item := RefreshBinding(item, s, p);
      items := items[link := item];
    }

    /** The item an upsert meets, a binding released in this batch put back on it. */
    method Meet(s: Source, link: LinkId, p: Placement) returns (item: M.Item)
      modifies this`rebinding
      ensures item == M.Met(items, old(rebinding), s, link, p)
      ensures rebinding == old(rebinding) - {link}
    {
      item := if link in items then items[link] else M.NewItem(p);
      if link in rebinding && s !in item.sources {
        item := M.Bind(item, s, rebinding[link]);
      }
      rebinding := rebinding - {link};
    }

    /** A tombstone's upsert: the delete stands, the item's conflict with it settled. */
    static method Bury(before: M.Item, s: Source, p: Placement) returns (item: M.Item)
      ensures item == M.Buried(before, s, p)
    {
      item := before;
      var agreed := M.SharedBodyOf(item, s);
      item := item.(deleted := true, conflicted := false, conflictBody := None);
      if !p.flags.Unknown? {
        item := item.(flags := p.flags);
      }
      item := M.Bind(item, s, M.BindingOf(p, agreed));
    }

    /** Records what the merge decided for the storage to act on. */
    method Record(
        s: Source, link: LinkId, p: Placement, flags: Flags, summary: Option<Summary>, sortKey: SortKey,
        verdict: M.Verdict)
      modifies this`overruled, this`diverged, this`unsummarized
      ensures overruled == old(overruled) +
        if verdict.lost.Some? then [M.LostEntry(flags, summary, sortKey, s, link, p, verdict.lost.value)] else []
      ensures diverged == old(diverged) + if verdict.diverged then [p.handle] else []
      ensures unsummarized == old(unsummarized) + if verdict.unsummarized then [link] else []
    {
      if verdict.lost.Some? {
        overruled := overruled + [M.LostEntry(flags, summary, sortKey, s, link, p, verdict.lost.value)];
      }
      if verdict.diverged {
        diverged := diverged + [p.handle];
      }
      if verdict.unsummarized {
        unsummarized := unsummarized + [link];
      }
    }

    /** Puts an upsert's flags, summary and sort key on the item, live again. */
    static method Restate(met: M.Item, p: Placement) returns (item: M.Item)
      ensures item == M.Restated(met, p)
    {
      item := met.(deleted := false);
      if !p.flags.Unknown? {
        item := item.(flags := p.flags);
      }
      if p.summary.Some? {
        item := item.(summary := Some(p.summary.value.Stored()));
      }
      if p.sortKey != "" {
        item := item.(sortKey := p.sortKey);
      }
    }

    /** Folds an upsert's flags, description and body into the item it meets. */
    static method SettleContent(met: M.Item, s: Source, p: Placement, policy: M.Policy, overrules: bool, settles: bool)
      returns (item: M.Item, verdict: M.Verdict)
      ensures (item, verdict) == M.Settled(met, s, p, policy, overrules, settles)
    {
      hide M.Reconcile, M.Described, M.Restated;
      item := Restate(met, p);
      verdict := M.NOTHING;
      if settles && item.conflicted && p.body.Some? {
        item := item.(body := p.body, conflicted := false, conflictBody := None);
      } else {
        item, verdict := ReconcileContent(item, s, p, policy);
      }
      assert (item, verdict) == M.Decide(M.Restated(met, p), s, p, policy, settles);
      if overrules && item.conflicted && p.body.Some? && p.body == item.body {
        item := item.(conflicted := false, conflictBody := None);
      }
      item := Describe(item, met, p, verdict.keptShared);
    }

    /** Summary, sort key and level follow the body the item ended with. */
    static method Describe(before: M.Item, held: M.Item, p: Placement, keptShared: bool) returns (item: M.Item)
      ensures item == M.Described(before, held, p, keptShared)
    {
      item := before;
      if keptShared {
        item := item.(summary := held.summary, sortKey := held.sortKey);
      }
      var dropped := held.body.Some? && item.body.None?;
      item := item.(level := if dropped then p.level else MaxLevel(item.level, p.level));
      item := item.(level := item.StoredLevel());
    }

    /** Refreshes the source's binding once the item's body is settled. */
    static method RefreshBinding(before: M.Item, s: Source, p: Placement) returns (item: M.Item)
      ensures item == M.Bind(before, s, M.LiveBinding(before, s, p))
    {
      item := before;
      var agreed := M.SharedBodyOf(item, s);
      if p.body.Some? && !item.conflicted {
        agreed := item.body;
      }
      var binding := M.BindingOf(p, agreed);
      if binding.base.Some? {
        var base := binding.base.value;
        if base.revision.None? && base.body.Some? && item.body.Some? {
          binding := binding.(base := Some(base.(body := item.body)));
        }
      }
      item := M.Bind(item, s, binding);
    }

    /** Reconciles the shared body against an upsert by the three facts and the policy. */
    static method ReconcileContent(before: M.Item, s: Source, p: Placement, policy: M.Policy)
      returns (item: M.Item, verdict: M.Verdict)
      ensures (item, verdict) == M.Reconcile(before, s, p, policy)
    {
      item, verdict := before, M.NOTHING;
      var prev, agreed := M.SyncedBody(item, s), M.AgreedBody(item, s);
      var shared, incoming := item.body, p.body;
      var resolving := M.Resolving(item, s, p);
      var sourceEdited := incoming != prev || resolving;
      var hubMoved := shared != agreed;
      var bodyChanged := incoming != shared;

      if !M.Mutable(item, p) {
        if sourceEdited && bodyChanged {
          item := item.(body := incoming, conflicted := false, conflictBody := None);
        }
        return;
      }

      if incoming.Some? && shared.None? && prev.None? {
        item := item.(body := incoming);
        if !item.conflicted || item.conflictBody.None? || policy.Manual? {
          return;
        }
        var diverging := item.conflictBody;
        if policy.PreferIncoming? {
          item := item.(body := diverging);
          verdict := verdict.(keptShared := true, unsummarized := true, lost := M.Lost(incoming, M.IncomingSide));
        } else {
          verdict := verdict.(lost := M.Lost(diverging, M.DivergingSide));
        }
        item := item.(conflicted := false, conflictBody := None);
        return;
      }

      if sourceEdited && hubMoved && bodyChanged {
        if incoming.None? || shared.None? || policy.Manual? {
          item := item.(conflicted := true, conflictBody := incoming);
          verdict := verdict.(diverged := true, keptShared := true);
        } else if policy.PreferIncoming? {
          verdict := verdict.(lost := M.Lost(shared, M.SharedSide));
          item := item.(body := incoming, conflicted := false, conflictBody := None);
        } else {
          verdict := verdict.(lost := M.Lost(incoming, M.IncomingSide), keptShared := true);
          item := item.(conflicted := false, conflictBody := None);
        }
        return;
      }

      if sourceEdited && bodyChanged && !hubMoved {
        var pulled := M.RevisionOf(p.base) != M.RevisionOf(M.BaseOf(item, s));
        if pulled && !resolving && shared != prev {
          verdict := verdict.(lost := M.Lost(shared, M.SharedSide));
        }
        item := item.(body := incoming, conflicted := false, conflictBody := None);
      }
    }

    /** Keeps the diverging bodies an overruling edit settles and does not adopt. */
    method KeepOverruled(s: Source, link: LinkId, p: Placement)
      modifies this`overruled
      ensures overruled == old(overruled) + M.KeptEntries(items, s, link, p)
    {
      if link !in items {
        return;
      }
      var item := items[link];
      var candidates: seq<Option<Hash>> := [
        if s in item.sources && item.sources[s].conflicted then item.sources[s].conflictBody else None,
        if item.conflicted then item.conflictBody else None];
      var kept: seq<Hash> := [];
      if candidates[0].Some? && candidates[0] != p.body {
        kept := kept + [candidates[0].value];
      }
      if candidates[1].Some? && candidates[1] != p.body && candidates[1].value !in kept {
        kept := kept + [candidates[1].value];
      }
      assert kept == M.KeptBodies(item, s, p);
      overruled := overruled +
        seq(|kept|, i requires 0 <= i < |kept| => M.KeptEntry(item, s, link, p, kept[i]));
    }

    /** Unbinds the source from every item it holds under `handle`. */
    method AbsorbDrop(s: Source, handle: Handle, reason: DropReason)
      modifies this`items, this`rebinding
      ensures State() == M.AbsorbDrop(old(State()), s, handle, reason)
    {
      hide M.Unbinding, M.SetAside, M.Dropped, M.BoundAt;
      M.NothingUnbound(items, rebinding, s, handle, reason);
      var pending := items.Keys;
      while pending != {}
        invariant pending <= old(items).Keys
        invariant items == M.Unbinding(old(items), pending, s, handle, reason)
        invariant rebinding == M.SetAside(old(items), pending, old(rebinding), s, handle, reason)
        decreases |pending|
      {
        var link :| link in pending;
        M.OneMoreUnbound(old(items), pending, s, handle, reason, link);
        M.OneMoreSetAside(old(items), pending, old(rebinding), s, handle, reason, link);
        pending := pending - {link};
        UnbindItem(link, s, handle, reason);
      }
    }

    method UnbindItem(link: LinkId, s: Source, handle: Handle, reason: DropReason)
      requires link in items
      modifies this`items, this`rebinding
      ensures items == old(items)[link := M.Dropped(old(items)[link], s, handle, reason)]
      ensures rebinding ==
        if reason.Deleted? || !M.BoundAt(old(items)[link], s, handle) then old(rebinding)
        else old(rebinding)[link := old(items)[link].sources[s]]
    {
      var item := items[link];
      if M.BoundAt(item, s, handle) {
        var genuine := reason.Deleted?;
        items := items[link := item.(deleted := item.deleted || genuine, sources := item.sources - {s})];
        if !genuine {
          rebinding := rebinding[link := item.sources[s]];
        }
      } else {
        assert items == items[link := item];
      }
    }
  }
}
