/** The rows an upgrade writes, the bodies it links or asks for, and the counts it reports. */
module UpgradeRows {
  import opened Wrappers
  import opened Entities
  import opened Keys
  import opened Text
  import opened Coroutine
  import opened UpgradeModel
  import C = UpgradeClass

  // ---------- Identities and settled rows ----------

  /** A row is keyed afresh exactly when its content is mutable and it states another hint, unless its key is a mint. */
  lemma RestatesIff(p: Placement, item: FetchedItem)
    ensures Restates(p, item) <==>
      && (item.revision.Some? || (p.base.Some? && p.base.value.revision.Some?))
      && p.link.Some? && p.link.value != item.link && !("dup:" <= p.link.value)
    ensures Restates(p, item) ==>
      Afresh(p, item) == p.(link := None, body := None, base := None, status := Clean,
                            conflictRevision := None, conflictBody := None)
    ensures !Restates(p, item) ==> Afresh(p, item) == p
  {
  }

  /** Without content pushes a preference for the local body settles nothing: the divergence is recorded. */
  lemma NoPushNoLocal(c: Collection, p: Placement, fetched: Hash, revision: Option<Revision>, opts: Options)
    requires opts.conflict.Manual? || (opts.conflict.PreferLocal? && !opts.pushContent)
    ensures SettleOps(c, opts, p, fetched, revision) ==
      [Upsert(p.(status := Conflict, conflictRevision := revision, conflictBody := Some(fetched)))]
  {
  }

  /** A settled row: its base the fetched body's, at its revision and under the flags last agreed; it owes the rest. */
  lemma SettledIs(p: Placement, body: Option<Hash>, level: Level, fetched: Hash, revision: Option<Revision>)
    ensures var q := SettledOver(p, body, level, fetched, revision);
      var agreed := if p.base.Some? then p.base.value.flags else p.flags;
      && q.base == Some(Base(agreed, revision, Some(fetched))) && q.body == body && q.level == level
      && q.conflictRevision.None? && q.conflictBody.None? && q.flags == p.flags
      && q.status == (if body == Some(fetched) && p.flags == agreed then Clean else Dirty)
      && q == p.(base := q.base, body := body, level := level, status := q.status,
                 conflictRevision := None, conflictBody := None)
  {
  }

  /** The two rows a conflict's body leaves when it is read: the binding's own, or one that was pushed after all. */
  lemma ReadIs(p: Placement, item: FetchedItem, hash: Hash)
    ensures var agreed := if p.base.Some? then p.base.value.flags else p.flags;
      && ReadAtLast(p, item, hash) ==
         p.(body := Some(hash), level := Full, base := Some(Base(agreed, item.revision, Some(hash))))
      && LandedAfterAll(p, item, hash) ==
         p.(status := Clean, conflictRevision := None, conflictBody := None,
            base := Some(Base(agreed, item.revision, Some(hash))))
  {
  }

  /**
    A create landed on its arrival: its own content, described by the arrival where it was not,
    over a base of the arrival's flags and revision. It is clean exactly when it owes neither.
  */
  lemma LandedIs(tier: Tier, create: Placement, named: Placement, item: FetchedItem)
    ensures var p, read := Landed(tier, create, named, item), if tier.FullTier? && item.body.Some?
        then Some(item.body.value.blob.hash) else None;
      var diverges := item.revision.Some? && create.body.Some? && read != create.body;
      && LandDiverges(tier, create, item) == diverges
      && p.collection == create.collection && p.handle == item.handle && p.link == create.link
      && p.flags == create.flags
      && p.body == (if create.body.Some? then create.body else read)
      && p.summary == (if create.summary.Some? then create.summary else item.summary)
      && p.sortKey == (if create.sortKey == "" then item.sortKey else create.sortKey)
      && (p.level.Full? <==> p.body.Some?) && p.origin.None?
      && p.base == Some(Base(named.flags, item.revision,
                             if diverges then None else if read.Some? then read else create.body))
      && (!diverges ==> (p.status.Clean? <==> named.flags == create.flags && p.base.value.body == p.body))
      && (p.status.Clean? || p.status.Dirty?)
  {
  }

  /** The creates an arrival may land: those of its hint that were never reconciled, first in handle order. */
  lemma LandableIff(rows: Rows, hint: LinkId, arrived: Handle, handle: Handle)
    ensures handle in PendingCreates(rows, hint, arrived) <==>
      && handle in rows && rows[handle].link == Some(hint) && rows[handle].status.Created? && rows[handle].base.None?
      && rows[handle].handle != arrived
  {
    hide Ascending;
  }

  /** A row's edit is staged while its base does not name its body; it awaits its base while that names none at all. */
  lemma StagedIff(p: Placement)
    ensures p.StagedEdit() <==> p.body.Some? && (p.base.None? || p.base.value.body != p.body)
    ensures p.AwaitsBase() <==> p.StagedEdit() && p.base.Some? && p.base.value.revision.Some? && p.base.value.body.None?
  {
  }

  // ---------- The counts ----------

  /** What one item adds to the counts: nothing when it is unknown, or in conflict or full and brought no body. */
  lemma StepCounts(c: Collection, tier: Tier, opts: Options, st: Progress, item: FetchedItem)
    ensures var st' := FetchStep(c, tier, opts, st, item);
      var lands := item.handle in st.rows && GivenTo(tier, st, item).LandsCreate?;
      var counts := item.handle in st.rows && (tier.MetaTier? || item.body.Some? || lands);
      && (lands ==> GivenTo(tier, st, item).create in st.rows)
      && st'.fetched == st.fetched + (if counts then 1 else 0)
      && st'.upgraded == st.upgraded + (if counts then 1 else 0)
  {
    hide LandOps, Afresh, Keyed, Described, Hydrated, Refreshed, SettleOps, Claim;
    if item.handle in st.rows && GivenTo(tier, st, item).LandsCreate? {
      var creates := PendingCreates(st.rows, item.link, item.handle);
      assert creates[0] in creates;
    }
  }

  // ---------- Linking from the store ----------

  /** A row is linked to the body its identity has in the store, and only to one that is surely its own. */
  lemma HitIff(p: Placement, known: map<LinkId, Object>, missing: set<Hash>)
    ensures C.Hit(p, known, missing).Some? <==>
      && p.link.Some? && p.link.value in known && !p.status.Conflict?
      && !(p.base.Some? && p.base.value.revision.Some?)
      && known[p.link.value].hash !in missing
      && (p.summary.Some? && p.summary.value.Mail? && p.summary.value.size.Some? ==>
          p.summary.value.size.value == known[p.link.value].size)
    ensures C.Hit(p, known, missing).Some? ==> C.Hit(p, known, missing) == Some(known[p.link.value].hash)
  {
  }

  /** A linked row holds the body in full, its base naming it too, so that it reads as no edit. */
  lemma LinkedIs(p: Placement, hash: Hash)
    ensures var q := C.Linked(p, hash);
      && q.body == Some(hash) && q.level.Full? && !(q.base.Some? && q.StagedEdit())
      && q == p.(body := Some(hash), level := Full, base := q.base)
      && q.base.Some? == p.base.Some?
      && (p.base.Some? ==> q.base.value.flags == p.base.value.flags && q.base.value.revision == p.base.value.revision)
  {
  }

  /** Of the rows asked for, each is linked or left to fetch, in order, and none is both. */
  lemma {:induction false} LinkedOrFetched(
      rows: Rows, known: map<LinkId, Object>, missing: set<Hash>, handles: seq<Handle>, handle: Handle)
    requires handle in handles && handle in rows
    ensures var l, hit := C.LinkAll(rows, known, missing, handles), C.Hit(rows[handle], known, missing);
      && (hit.None? <==> handle in l.unlinked)
      && (hit.Some? ==> Upsert(C.Linked(rows[handle], hit.value)) in l.ops)
  {
    var init, last := handles[..|handles| - 1], handles[|handles| - 1];
    hide C.Hit, C.Linked;
    if handle in init {
      LinkedOrFetched(rows, known, missing, init, handle);
    } else {
      assert handle == last;
      UnlinkedAreAsked(rows, known, missing, init, handle);
    }
  }

  lemma {:induction false} UnlinkedAreAsked(
      rows: Rows, known: map<LinkId, Object>, missing: set<Hash>, handles: seq<Handle>, handle: Handle)
    ensures handle in C.LinkAll(rows, known, missing, handles).unlinked ==>
      handle in handles && handle in rows && C.Hit(rows[handle], known, missing).None?
  {
    if handles != [] {
      hide C.Hit, C.Linked;
      UnlinkedAreAsked(rows, known, missing, handles[..|handles| - 1], handle);
    }
  }

  /** The lookup's answer: the batch written outright when all are linked, else the rest fetched in full. */
  lemma LookupTurns(st: C.State, known: map<LinkId, Object>)
    requires st.phase.LookingUp?
    ensures var (st', turn) := C.Resumed(st, Some(LookupObject(known)));
      var l := C.LinkAll(st.rows, known, st.missing, PendingHandles(st.handles, st.rows, st.tier, st.missing));
      && turn == Yielded(
           if l.unlinked == [] then WantsWrite(st.ops + l.ops) else WantsFetch(st.collection, l.unlinked, FullTier))
      && st'.report.deduped == st.report.deduped + l.count && st'.report.upgraded == st.report.upgraded + l.count
      && (l.unlinked != [] ==> st'.ops == st.ops + l.ops)
  {
    hide C.LinkAll, PendingHandles;
  }

  lemma {:induction false} LinkCounts(rows: Rows, known: map<LinkId, Object>, missing: set<Hash>, handles: seq<Handle>)
    ensures var l := C.LinkAll(rows, known, missing, handles); l.count == |l.ops|
  {
    if handles != [] {
      LinkCounts(rows, known, missing, handles[..|handles| - 1]);
    }
  }

  // ---------- What the machine asks ----------

  /** The bodies a full upgrade has the store verify: those it would take unread, of the rows it was asked for. */
  lemma HeldIff(st: C.State, hash: Hash)
    ensures hash in C.HeldBodies(st) <==>
      st.tier.FullTier? && exists handle :: handle in st.handles && handle in st.rows && Trusts(st.rows[handle], hash)
  {
  }

  /** The row holds the body in full, in no conflict, as its base last synced it. */
  predicate Trusts(p: Placement, hash: Hash) {
    p.body == Some(hash) && p.level.Full? && !p.status.Conflict? && p.base.Some? && p.base.value.body == p.body
  }

  /** What is missing after the store answered: the held bodies it did not find sound. */
  lemma VerifiedLeaves(st: C.State, sound: set<Hash>, hash: Hash)
    requires st.phase.Verifying?
    ensures var (st', turn) := C.Resumed(st, Some(Verified(sound)));
      && (hash in st'.missing <==> hash in st.missing && hash !in sound)
      && (turn.Yielded? && turn.want.WantsFetch? ==>
          turn.want.handles == PendingHandles(st.handles, st.rows, st.tier, st.missing - sound))
  {
    hide PendingHandles, C.LookedUp;
  }

  /** A load asks the store about the bodies it would trust, and goes on at once when there are none. */
  lemma LoadTurns(st: C.State, loaded: Loaded)
    requires st.phase.Loading?
    ensures var (st', turn) := C.Resumed(st, Some(Load(loaded)));
      var held := C.HeldBodies(st.(rows := C.RowsOf(loaded.placements)));
      && st'.rows == C.RowsOf(loaded.placements)
      && (held != {} ==> turn == Yielded(WantsVerify(held)) && st'.missing == held)
      && (held == {} ==> !(turn.Yielded? && turn.want.WantsVerify?))
  {
    hide PendingHandles, C.LookedUp, C.HeldBodies, C.RowsOf;
  }

  /** With nothing pending the upgrade is done; at the header tier, or with nothing to look up, it fetches. */
  lemma RaiseTurns(st: C.State)
    ensures var pending, turn := PendingHandles(st.handles, st.rows, st.tier, st.missing), C.Raised(st).1;
      && (pending == [] <==> turn.Complete?)
      && (pending != [] && (st.tier.MetaTier? || C.LookedUp(st, pending) == []) ==>
          turn == Yielded(WantsFetch(st.collection, pending, st.tier)))
      && (pending != [] && st.tier.FullTier? && C.LookedUp(st, pending) != [] ==>
          turn == Yielded(WantsLookupObject(C.LookedUp(st, pending))))
  {
    hide PendingHandles, C.LookedUp;
  }

  lemma {:induction false} LookedUpIff(st: C.State, handles: seq<Handle>, link: LinkId)
    ensures link in C.LookedUp(st, handles) <==>
      exists handle :: handle in handles && handle in st.rows && st.rows[handle].link == Some(link) &&
        !st.rows[handle].status.Conflict? && !(st.rows[handle].base.Some? && st.rows[handle].base.value.revision.Some?)
  {
    if handles != [] {
      var init, last := handles[..|handles| - 1], handles[|handles| - 1];
      LookedUpIff(st, init, link);
      assert forall handle :: handle in handles <==> handle in init || handle == last;
    }
  }

  /** The identities checked before any is given: each unlinked item's hint, and the mint it would take. */
  lemma {:induction false} CheckedIff(rows: Rows, items: seq<FetchedItem>, link: LinkId)
    ensures link in C.FreshLinks(rows, items) <==>
      exists item :: item in items && item.handle in rows && rows[item.handle].link.None? &&
        (link == item.link || link == Minted(item.link, item.handle))
  {
    if items != [] {
      var init, last := items[..|items| - 1], items[|items| - 1];
      CheckedIff(rows, init, link);
      assert forall item :: item in items <==> item in init || item == last;
      hide Minted;
    }
  }

  /** The write of what was fetched, once its identities are checked, and the counts it adds to the report. */
  lemma CheckedTurns(st: C.State, loaded: Loaded)
    requires st.phase.CheckingLinks?
    ensures var (st', turn) := C.Resumed(st, Some(Load(loaded)));
      var done := WriteFetched(st.collection, st.tier, st.opts, C.Beside(st.rows, loaded.placements), st.ops,
        st.fetched);
      && turn == Yielded(WantsWrite(done.ops)) && st'.phase.Writing?
      && st'.report.fetched == st.report.fetched + done.fetched
      && st'.report.upgraded == st.report.upgraded + done.upgraded
  {
    hide WriteFetched, C.Beside;
  }

  /** A fetch that names nothing new is written at once; else the identities it would give are checked first. */
  lemma FetchTurns(st: C.State, items: seq<FetchedItem>)
    requires st.phase.Fetching?
    ensures var (st', turn) := C.Resumed(st, Some(Fetch(items)));
      var links := C.FreshLinks(st.rows, items);
      && (links != [] ==> turn == Yielded(WantsLoad(st.collection, Selection.Links(links))) && st'.fetched == items)
      && (links == [] ==>
          turn == Yielded(WantsWrite(WriteFetched(st.collection, st.tier, st.opts, st.rows, st.ops, items).ops)))
  {
    hide WriteFetched, C.FreshLinks;
  }

  /** The rows the check found are held beside those loaded, which stay as they were. */
  lemma {:induction false} BesideKeeps(rows: Rows, placements: seq<Placement>)
    ensures forall h :: h in rows ==> h in C.Beside(rows, placements) && C.Beside(rows, placements)[h] == rows[h]
    ensures forall p :: p in placements ==> p.handle in C.Beside(rows, placements)
    ensures forall h :: h in C.Beside(rows, placements) && h !in rows ==>
      C.Beside(rows, placements)[h] in placements && C.Beside(rows, placements)[h].handle == h
  {
    if placements != [] {
      BesideKeeps(rows, placements[..|placements| - 1]);
    }
  }

  /** The acknowledged write is reported with what it set aside. */
  lemma ReportsTheWrite(st: C.State, overruled: seq<(Handle, LinkId)>)
    requires st.phase.Writing?
    ensures C.Resumed(st, Some(Written(overruled))).1 ==
      Complete(Ok(st.report.(overruled := st.report.overruled + overruled)))
    ensures C.Resumed(st, Some(Write)).1 == Complete(Ok(st.report))
  {
  }
}
