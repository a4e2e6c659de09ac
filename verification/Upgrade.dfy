/** The upgrade coroutine: loads rows, dedups or fetches their bodies, and writes one batch. */
module UpgradeClass {
  import opened Wrappers
  import opened Text
  import opened Entities
  import opened Keys
  import opened Coroutine
  import M = UpgradeModel

  datatype Phase = Start | Loading | Verifying | LookingUp | Fetching | CheckingLinks | Writing | Done

  /** Rows raised, bodies fetched, bodies linked, and the bodies the write kept aside. */
  datatype Report = Report(upgraded: nat, fetched: nat, deduped: nat, overruled: seq<(Handle, LinkId)>)

  const NO_REPORT := Report(0, 0, 0, [])

  type Outcome = Turn<Result<Report, ArgError>>

  datatype State = State(
    collection: Collection,
    handles: seq<Handle>,
    tier: Tier,
    opts: M.Options,
    rows: M.Rows,
    missing: set<Hash>,
    fetched: seq<FetchedItem>,
    ops: seq<WriteOp>,
    report: Report,
    phase: Phase)

  function Initial(c: Collection, handles: seq<Handle>, tier: Tier, opts: M.Options): State {
    State(c, handles, tier, opts, map[], {}, [], [], NO_REPORT, Start)
  }

  function RowsOf(placements: seq<Placement>): M.Rows {
    if placements == [] then map[]
    else RowsOf(placements[..|placements| - 1])[placements[|placements| - 1].handle := placements[|placements| - 1]]
  }

  /** The rows with those loaded beside them, a row already held staying. */
  function Beside(rows: M.Rows, placements: seq<Placement>): M.Rows {
    if placements == [] then rows
    else
      var held, last := Beside(rows, placements[..|placements| - 1]), placements[|placements| - 1];
      if last.handle in held then held else held[last.handle := last]
  }

  /** The bodies a full upgrade would trust unread. */
  function HeldBodies(st: State): set<Hash> {
    if st.tier.MetaTier? then {}
    else set h | h in st.handles && h in st.rows && Trusted(st.rows[h]) :: st.rows[h].body.value
  }

  predicate Trusted(p: Placement) {
    p.level.Full? && !M.IsConflicted(p) && !p.StagedEdit() && p.body.Some?
  }

  predicate Linkable(p: Placement) {
    !M.IsMutable(p) && !M.IsConflicted(p) && p.link.Some?
  }

  function LookedUp(st: State, handles: seq<Handle>): seq<LinkId> {
    if handles == [] then []
    else
      var init, last := LookedUp(st, handles[..|handles| - 1]), handles[|handles| - 1];
      if last in st.rows && Linkable(st.rows[last]) then init + [st.rows[last].link.value] else init
  }

  function Finish(st: State): (State, Outcome) {
    (st.(phase := Done, report := NO_REPORT), Complete(Ok(st.report)))
  }

  function Raised(st: State): (State, Outcome) {
    var pending := M.PendingHandles(st.handles, st.rows, st.tier, st.missing);
    if pending == [] then Finish(st)
    else
      var links := LookedUp(st, pending);
      if st.tier.MetaTier? || links == [] then
        (st.(phase := Fetching), Yielded(WantsFetch(st.collection, pending, st.tier)))
      else (st.(phase := LookingUp), Yielded(WantsLookupObject(links)))
  }

  // ---------- Linking from the store ----------

  /** The stored body a row may be linked to, its size agreeing and its bytes not missing. */
  function Hit(p: Placement, known: map<LinkId, Object>, missing: set<Hash>): Option<Hash> {
    if Linkable(p) && p.link.value in known && M.SizeAgrees(p, known[p.link.value].size)
      && known[p.link.value].hash !in missing
    then Some(known[p.link.value].hash)
    else None
  }

  function Linked(p: Placement, hash: Hash): Placement {
    p.(body := Some(hash), level := Full,
       base := if p.base.Some? then Some(p.base.value.(body := Some(hash))) else None)
  }

  datatype Linking = Linking(ops: seq<WriteOp>, unlinked: seq<Handle>, count: nat)

  function LinkAll(rows: M.Rows, known: map<LinkId, Object>, missing: set<Hash>, handles: seq<Handle>): Linking {
    if handles == [] then Linking([], [], 0)
    else
      var l, last := LinkAll(rows, known, missing, handles[..|handles| - 1]), handles[|handles| - 1];
      if last !in rows then l
      else
        var hit := Hit(rows[last], known, missing);
        if hit.Some? then l.(ops := l.ops + [Upsert(Linked(rows[last], hit.value))], count := l.count + 1)
        else l.(unlinked := l.unlinked + [last])
  }

  function LookedUpIn(st: State, known: map<LinkId, Object>): (State, Outcome) {
    var l := LinkAll(st.rows, known, st.missing, M.PendingHandles(st.handles, st.rows, st.tier, st.missing));
    var report := st.report.(upgraded := st.report.upgraded + l.count, deduped := st.report.deduped + l.count);
    if l.unlinked == [] then (st.(phase := Writing, ops := [], report := report), Yielded(WantsWrite(st.ops + l.ops)))
    else (st.(phase := Fetching, ops := st.ops + l.ops, report := report),
      Yielded(WantsFetch(st.collection, l.unlinked, FullTier)))
  }

  // ---------- Writing what was fetched ----------

  /** The identities to check against the whole collection: each hint and its mint. */
  function FreshLinks(rows: M.Rows, items: seq<FetchedItem>): seq<LinkId> {
    if items == [] then []
    else
      var init, last := FreshLinks(rows, items[..|items| - 1]), items[|items| - 1];
      if last.handle in rows && rows[last.handle].link.None?
      then init + [last.link, Minted(last.link, last.handle)]
      else init
  }

  function Wrote(st: State): (State, Outcome) {
    var progress := M.WriteFetched(st.collection, st.tier, st.opts, st.rows, st.ops, st.fetched);
    (st.(phase := Writing, rows := progress.rows, fetched := [], ops := [],
         report := st.report.(fetched := st.report.fetched + progress.fetched,
                              upgraded := st.report.upgraded + progress.upgraded)),
     Yielded(WantsWrite(progress.ops)))
  }

  function FetchedIn(st: State, items: seq<FetchedItem>): (State, Outcome) {
    var unnamed := FreshLinks(st.rows, items);
    if unnamed == [] then Wrote(st.(fetched := items))
    else (st.(fetched := items, phase := CheckingLinks), Yielded(WantsLoad(st.collection, Selection.Links(unnamed))))
  }

  function LoadedIn(st: State, placements: seq<Placement>): (State, Outcome) {
    var loaded := st.(rows := RowsOf(placements));
    var held := loaded.(missing := HeldBodies(loaded));
    if held.missing != {} then (held.(phase := Verifying), Yielded(WantsVerify(held.missing))) else Raised(held)
  }

  function Resumed(st: State, arg: Option<Arg>): (State, Outcome) {
    match (st.phase, arg)
    case (Start, None) => (st.(phase := Loading), Yielded(WantsLoad(st.collection, Handles(st.handles))))
    case (Loading, Some(Load(loaded))) => LoadedIn(st, loaded.placements)
    case (Verifying, Some(Verified(sound))) => Raised(st.(missing := st.missing - sound))
    case (LookingUp, Some(LookupObject(known))) => LookedUpIn(st, known)
    case (Fetching, Some(Fetch(items))) => FetchedIn(st, items)
    case (CheckingLinks, Some(Load(loaded))) => Wrote(st.(rows := Beside(st.rows, loaded.placements)))
    case (Writing, Some(Write)) => Finish(st)
    case (Writing, Some(Written(overruled))) =>
      Finish(st.(report := st.report.(overruled := st.report.overruled + overruled)))
    case (Done, _) => (st, Complete(Err(UnexpectedArg)))
    case (_, Some(_)) => (st, Complete(Err(UnexpectedArg)))
    case (_, None) => (st, Complete(Err(MissingArg)))
  }

  class Upgrade {
    var collection: Collection
    var handles: seq<Handle>
    var tier: Tier
    var opts: M.Options
    var rows: M.Rows
    var missing: set<Hash>
    var fetched: seq<FetchedItem>
    var ops: seq<WriteOp>
    var report: Report
    var phase: Phase

    ghost function Current(): State
      reads this
    {
      State(collection, handles, tier, opts, rows, missing, fetched, ops, report, phase)
    }

    constructor (c: Collection, handles: seq<Handle>, tier: Tier, opts: M.Options)
      ensures Current() == Initial(c, handles, tier, opts)
    {
      collection := c;
      this.handles, this.tier, this.opts := handles, tier, opts;
      rows, missing, fetched, ops := map[], {}, [], [];
      report, phase := NO_REPORT, Start;
    }

    method Resume(arg: Option<Arg>) returns (turn: Outcome)
      modifies this
      ensures (Current(), turn) == Resumed(old(Current()), arg)
    {
      hide Raised, Wrote, LookedUpIn, HeldBodies, RowsOf, Beside, FreshLinks;
      match (phase, arg) {
        case (Start, None) =>
          phase := Loading;
          turn := Yielded(WantsLoad(collection, Handles(handles)));
        case (Loading, Some(Load(loaded))) =>
          rows := RowsOf(loaded.placements);
          missing := Held();
          if missing != {} {
            phase := Verifying;
            turn := Yielded(WantsVerify(missing));
          } else {
            turn := Raise();
          }
        case (Verifying, Some(Verified(sound))) =>
          missing := missing - sound;
          turn := Raise();
        case (LookingUp, Some(LookupObject(known))) =>
          turn := Link(known);
        case (Fetching, Some(Fetch(items))) =>
          var unnamed := FreshLinks(rows, items);
          fetched := items;
          if unnamed == [] {
            turn := WriteFetched();
          } else {
            phase := CheckingLinks;
            turn := Yielded(WantsLoad(collection, Selection.Links(unnamed)));
          }
        case (CheckingLinks, Some(Load(loaded))) =>
          rows := Beside(rows, loaded.placements);
          turn := WriteFetched();
        case (Writing, Some(Write)) =>
          phase := Done;
          turn, report := Complete(Ok(report)), NO_REPORT;
        case (Writing, Some(Written(overruled))) =>
          report := report.(overruled := report.overruled + overruled);
          phase := Done;
          turn, report := Complete(Ok(report)), NO_REPORT;
        case (Done, _) => turn := Complete(Err(UnexpectedArg));
        case (_, Some(_)) => turn := Complete(Err(UnexpectedArg));
        case (_, None) => turn := Complete(Err(MissingArg));
      }
    }

    method Held() returns (bodies: set<Hash>)
      ensures bodies == HeldBodies(Current())
    {
      bodies := {};
      if tier.MetaTier? {
        return;
      }
      for i := 0 to |handles|
        invariant bodies == set j | 0 <= j < i && handles[j] in rows
          && Trusted(rows[handles[j]]) :: rows[handles[j]].body.value
      {
        if handles[i] in rows && Trusted(rows[handles[i]]) {
          bodies := bodies + {rows[handles[i]].body.value};
        }
      }
    }

    /** Asks for what the pending rows need: nothing, a fetch, or a lookup first. */
    method Raise() returns (turn: Outcome)
      modifies this`phase, this`report
      ensures (Current(), turn) == Raised(old(Current()))
    {
      var pending := M.PendingHandles(handles, rows, tier, missing);
      if pending == [] {
        phase := Done;
        turn, report := Complete(Ok(report)), NO_REPORT;
        return;
      }
      if tier.MetaTier? {
        phase := Fetching;
        turn := Yielded(WantsFetch(collection, pending, MetaTier));
        return;
      }
      var links := [];
      for i := 0 to |pending|
        invariant links == LookedUp(Current(), pending[..i])
      {
        assert pending[..i + 1][..i] == pending[..i];
        if pending[i] in rows && Linkable(rows[pending[i]]) {
          links := links + [rows[pending[i]].link.value];
        }
      }
      assert pending[..|pending|] == pending;
      SamePhaseLookup(Current(), Fetching, pending);
      SamePhaseLookup(Current(), LookingUp, pending);
      if links == [] {
        phase := Fetching;
        turn := Yielded(WantsFetch(collection, pending, FullTier));
        return;
      }
      phase := LookingUp;
      turn := Yielded(WantsLookupObject(links));
    }

    /** Links the rows whose body the store holds, and fetches the rest. */
    method Link(known: map<LinkId, Object>) returns (turn: Outcome)
      modifies this
      ensures (Current(), turn) == LookedUpIn(old(Current()), known)
    {
      hide Hit, Linked, M.PendingHandles;
      var pending := M.PendingHandles(handles, rows, tier, missing);
      var unlinked: seq<Handle> := [];
      ghost var l := Linking([], [], 0);
      for i := 0 to |pending|
        invariant l == LinkAll(rows, known, missing, pending[..i])
        invariant unlinked == l.unlinked && ops == old(ops) + l.ops
        invariant report == old(report).(upgraded := old(report).upgraded + l.count,
                                         deduped := old(report).deduped + l.count)
        invariant Current() == old(Current()).(ops := ops, report := report)
      {
        assert pending[..i + 1][..i] == pending[..i];
        l := LinkAll(rows, known, missing, pending[..i + 1]);
        var handle := pending[i];
        if handle !in rows {
          continue;
        }
        var hit := Hit(rows[handle], known, missing);
        if hit.Some? {
          ops := ops + [Upsert(Linked(rows[handle], hit.value))];
          report := report.(upgraded := report.upgraded + 1, deduped := report.deduped + 1);
        } else {
          unlinked := unlinked + [handle];
        }
      }
      assert pending[..|pending|] == pending;
      if unlinked == [] {
        phase := Writing;
        turn, ops := Yielded(WantsWrite(ops)), [];
        return;
      }
      phase := Fetching;
      turn := Yielded(WantsFetch(collection, unlinked, FullTier));
    }

    /** Applies the fetched items in handle order and yields the batch. */
    method WriteFetched() returns (turn: Outcome)
      modifies this
      ensures (Current(), turn) == Wrote(old(Current()))
    {
      hide M.FetchStep;
      var claimed := M.LinksIn(rows);
      var items := SortBy(M.FetchedHandle, fetched);
      ghost var from := M.Progress(rows, claimed, ops, 0, 0);
      var counts := (0, 0);
      for i := 0 to |items|
        invariant M.Progress(rows, claimed, ops, counts.0, counts.1) ==
          M.FetchAll(collection, tier, opts, from, items[..i])
        invariant Current() == old(Current()).(rows := rows, ops := ops)
      {
        assert items[..i + 1][..i] == items[..i];
        var one;
        claimed, one := FoldItem(items[i], claimed, counts.0, counts.1);
        counts := one;
      }
      assert items[..|items|] == items;
      report := report.(fetched := report.fetched + counts.0, upgraded := report.upgraded + counts.1);
      fetched := [];
      phase := Writing;
      turn, ops := Yielded(WantsWrite(ops)), [];
    }

    /** One fetched item: its divergence settled, its create landed, or its row raised. */
    method FoldItem(item: FetchedItem, claimed: set<LinkId>, fetchedSoFar: nat, upgradedSoFar: nat)
      returns (claimed': set<LinkId>, counts: (nat, nat))
      modifies this`rows, this`ops
      ensures M.Progress(rows, claimed', ops, counts.0, counts.1) ==
        M.FetchStep(collection, tier, opts, M.Progress(old(rows), claimed, old(ops), fetchedSoFar, upgradedSoFar), item)
    {
      hide M.ConflictStep, M.FinishStep, M.LandOps, M.Keyed, M.Afresh, M.PendingCreates, Claim;
      claimed', counts := claimed, (fetchedSoFar, upgradedSoFar);
      if item.handle !in rows {
        return;
      }
      var p := rows[item.handle];
      if tier.FullTier? && M.IsConflicted(p) {
        counts := FoldConflict(p, item, claimed, fetchedSoFar, upgradedSoFar);
        return;
      }
      p := M.Afresh(p, item);
      if p.link.None? {
        var create := TakePendingCreate(item.link, item.handle);
        if create.Some? {
          claimed' := claimed + {item.link};
          Land(create.value, p, item);
          counts := (fetchedSoFar + 1, upgradedSoFar + 1);
          return;
        }
        var key := ClaimKey(item.link, item.handle, claimed);
        claimed' := claimed + {key};
        p := M.Keyed(p, key, item);
      }
      counts := RaiseRow(p, item, claimed', fetchedSoFar, upgradedSoFar);
    }

    /** The body a conflicted row was fetched for: recorded, adopted or pushed over. */
    method FoldConflict(
        p: Placement, item: FetchedItem, ghost claimed: set<LinkId>, fetchedSoFar: nat, upgradedSoFar: nat)
        returns (counts: (nat, nat))
      modifies this`ops
      ensures M.Progress(rows, claimed, ops, counts.0, counts.1) ==
        M.ConflictStep(collection, opts, M.Progress(rows, claimed, old(ops), fetchedSoFar, upgradedSoFar), p, item)
    {
      hide M.SettleOps, M.ReadAtLast, M.LandedAfterAll;
      counts := (fetchedSoFar, upgradedSoFar);
      if item.body.None? {
        return;
      }
      var hash := item.body.value.blob.hash;
      ops := ops + [M.StoreOf(item.body.value)];
      if M.IsItemConflict(p) {
        ops := ops + [Upsert(M.ReadAtLast(p, item, hash))];
      } else if p.body == Some(hash) {
        ops := ops + [Upsert(M.LandedAfterAll(p, item, hash))];
      } else {
        Settle(p, hash, Or(item.revision, p.conflictRevision));
      }
      counts := (fetchedSoFar + 1, upgradedSoFar + 1);
    }

    /** A named row raised by what was fetched of it. */
    method RaiseRow(
        named: Placement, item: FetchedItem, ghost claimed: set<LinkId>, fetchedSoFar: nat, upgradedSoFar: nat)
        returns (counts: (nat, nat))
      modifies this`ops
      ensures M.Progress(rows, claimed, ops, counts.0, counts.1) ==
        M.FinishStep(M.Progress(rows, claimed, old(ops), fetchedSoFar, upgradedSoFar), tier, named, item)
    {
      hide M.Described, M.Hydrated, M.Refreshed;
      counts := (fetchedSoFar, upgradedSoFar);
      var p := M.Described(named, item);
      if tier.FullTier? && item.body.Some? {
        ops := ops + [M.StoreOf(item.body.value), Upsert(M.Hydrated(p, item, item.body.value.blob.hash))];
        counts := (fetchedSoFar + 1, upgradedSoFar + 1);
        return;
      }
      ops := ops + [Upsert(M.Refreshed(p))];
      if tier.MetaTier? {
        counts := (fetchedSoFar + 1, upgradedSoFar + 1);
      }
    }

    /** Takes out the pending create holding `hint`, the first in handle order. */
    method TakePendingCreate(hint: LinkId, arrived: Handle) returns (create: Option<Placement>)
      modifies this`rows
      ensures var creates := M.PendingCreates(old(rows), hint, arrived);
        if creates == [] then create == None && rows == old(rows)
        else creates[0] in old(rows) && create == Some(old(rows)[creates[0]]) && rows == old(rows) - {creates[0]}
    {
      var creates := M.PendingCreates(rows, hint, arrived);
      if creates == [] {
        return None;
      }
      assert creates[0] in creates;
      create := Some(rows[creates[0]]);
      rows := rows - {creates[0]};
    }

    /** Lands a create under the handle its arrival was fetched at. */
    method Land(create: Placement, named: Placement, item: FetchedItem)
      modifies this`ops
      ensures ops == old(ops) + M.LandOps(collection, tier, opts, create, named, item)
    {
      ops := ops + [Drop(collection, create.handle, Superseded)];
      var landed := M.Landed(tier, create, named, item);
      var read := M.LandedBody(tier, item);
      if read.Some? {
        ops := ops + [M.StoreOf(item.body.value)];
      }
      if !M.LandDiverges(tier, create, item) {
        ops := ops + [Upsert(landed)];
      } else if read.Some? {
        Settle(landed, read.value, item.revision);
      } else {
        ops := ops + [Upsert(landed.(status := Conflict, conflictRevision := item.revision))];
      }
    }

    /** Settles a binding's divergence by the source's policy, its server body read. */
    method Settle(patched: Placement, body: Hash, revision: Option<Revision>)
      modifies this`ops
      ensures ops == old(ops) + M.SettleOps(collection, opts, patched, body, revision)
    {
      var p := patched;
      var diverged := M.Diverged(p, body, revision);
      var policy := M.PolicyOf(opts);
      match policy {
        case Manual =>
          ops := ops + [Upsert(diverged)];
          return;
        case PreferLocal =>
          ops := ops + [Upsert(diverged), Overrule(collection, p.handle)];
        case PreferRemote =>
          if p.conflictRevision.Some? {
            ops := ops + [Upsert(M.Cleared(p))];
          }
          p := p.(body := Some(body), level := Full);
      }
      var flags := M.BaseFlags(patched);
      p := p.(conflictRevision := None, conflictBody := None,
              status := if p.body == Some(body) && flags == p.flags then Clean else Dirty,
              base := Some(Base(flags, revision, Some(body))));
      ops := ops + [Upsert(p)];
    }
  }

  /** The lookup reads the rows alone, not the phase it is asked in. */
  lemma {:induction false} SamePhaseLookup(st: State, phase: Phase, handles: seq<Handle>)
    ensures LookedUp(st.(phase := phase), handles) == LookedUp(st, handles)
  {
    if handles != [] {
      SamePhaseLookup(st, phase, handles[..|handles| - 1]);
    }
  }
}
