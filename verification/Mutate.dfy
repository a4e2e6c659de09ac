/** The mutate coroutine: loads one row, stages its edit, and reads a create's target first. */
module MutateClass {
  import opened Wrappers
  import opened Entities
  import opened Keys
  import opened Coroutine
  import opened MutateModel

  datatype Phase = Start | Loading | LoadingTarget | Writing | Done

  /** The bodies the write kept aside, once it committed. */
  datatype Report = Report(overruled: seq<(Handle, LinkId)>)

  type Outcome = Turn<Result<Report, MutateError>>

  datatype State = State(
    collection: Collection,
    mutation: Mutation,
    source: Option<Placement>,
    syncsTarget: bool,
    itemConflicted: bool,
    phase: Phase)
  {
    /** A create's source is held exactly while its target is read. */
    predicate Valid() {
      phase.LoadingTarget? ==> Creates(mutation) && source.Some? && source.value.link.Some?
    }
  }

  function Initial(c: Collection, m: Mutation, syncsTarget: bool): State {
    State(c, m, None, syncsTarget, false, Start)
  }

  function SelectionOf(m: Mutation): Selection {
    if m.Add? then Links([m.link]) else Handles([m.handle])
  }

  function Fails(st: State, error: MutateError): (State, Outcome) {
    (st, Complete(Err(error)))
  }

  function Stages(st: State, ops: seq<WriteOp>): (State, Outcome) {
    (st.(phase := Writing), Yielded(WantsWrite(ops)))
  }

  function LoadedAdd(st: State, rows: seq<Placement>): (State, Outcome)
    requires st.mutation.Add?
  {
    if st.mutation.link in LiveLinks(rows) then Fails(st, LinkExists(st.mutation.link))
    else Stages(st, AddOps(st.collection, st.mutation))
  }

  /** Whether the edit's item conflict is looked at: an overruling edit settles without. */
  predicate Weighs(m: Mutation) {
    m.Edit? && !m.overrule
  }

  function Weighed(st: State, m: Mutation, p: Placement, item: Option<Option<Hash>>): State {
    if Weighs(m) && p.link.Some? && !(m.ifMatch.Some? && p.body != m.ifMatch)
    then st.(itemConflicted := item.Some?)
    else st
  }

  function LoadedRow(st: State, loaded: Loaded): (State, Outcome)
    requires !st.mutation.Add?
  {
    var m := st.mutation;
    var found := FindRow(loaded.placements, m.handle);
    if found.None? then Fails(st, UnknownHandle(m.handle))
    else
      var p, item := found.value, ItemMet(loaded, found.value);
      var refusal := Refusal(m, p, item, st.syncsTarget);
      var seen := Weighed(st, m, p, item);
      if refusal.Some? then Fails(seen, refusal.value)
      else if Creates(m) then
        var hint := p.link.value;
        (seen.(source := Some(p), phase := LoadingTarget),
         Yielded(WantsLoad(m.target, Links([hint, Minted(hint, Provisional(hint))]))))
      else Stages(seen, WritesFor(st.collection, m, p, None, seen.itemConflicted))
  }

  function LoadedTarget(st: State, rows: seq<Placement>): (State, Outcome)
    requires st.Valid() && st.phase.LoadingTarget?
  {
    var hint := st.source.value.link.value;
    var key := Claim(hint, Provisional(hint), LiveLinks(rows));
    Stages(st.(source := None), WritesFor(st.collection, st.mutation, st.source.value, Some(key), st.itemConflicted))
  }

  function Resumed(st: State, arg: Option<Arg>): (State, Outcome)
    requires st.Valid()
  {
    match (st.phase, arg)
    case (Start, None) => (st.(phase := Loading), Yielded(WantsLoad(st.collection, SelectionOf(st.mutation))))
    case (Loading, Some(Load(loaded))) =>
      if st.mutation.Add? then LoadedAdd(st, loaded.placements) else LoadedRow(st, loaded)
    case (LoadingTarget, Some(Load(loaded))) => LoadedTarget(st, loaded.placements)
    case (Writing, Some(Write)) => (st.(phase := Done), Complete(Ok(Report([]))))
    case (Writing, Some(Written(overruled))) => (st.(phase := Done), Complete(Ok(Report(overruled))))
    case (Done, _) => Fails(st, BadArg(UnexpectedArg))
    case (_, Some(_)) => Fails(st, BadArg(UnexpectedArg))
    case (_, None) => Fails(st, BadArg(MissingArg))
  }

  class Mutate {
    var collection: Collection
    var mutation: Mutation
    var source: Option<Placement>
    var syncsTarget: bool
    var itemConflicted: bool
    var phase: Phase

    ghost function Current(): State
      reads this
    {
      State(collection, mutation, source, syncsTarget, itemConflicted, phase)
    }

    ghost predicate Valid()
      reads this
    {
      Current().Valid()
    }

    constructor (c: Collection, m: Mutation, syncs: bool)
      ensures Valid() && Current() == Initial(c, m, syncs)
    {
      collection, mutation, syncsTarget := c, m, syncs;
      source, itemConflicted, phase := None, false, Start;
    }

    method Resume(arg: Option<Arg>) returns (turn: Outcome)
      requires Valid()
      modifies this
      ensures Valid()
      ensures (Current(), turn) == Resumed(old(Current()), arg)
    {
      hide WritesFor, Refusal, ItemMet, FindRow, Claim;
      match (phase, arg) {
        case (Start, None) =>
          phase := Loading;
          turn := Yielded(WantsLoad(collection, SelectionOf(mutation)));
        case (Loading, Some(Load(loaded))) =>
          if mutation.Add? {
            if mutation.link in LiveLinks(loaded.placements) {
              return Complete(Err(LinkExists(mutation.link)));
            }
            phase := Writing;
            turn := Yielded(WantsWrite(AddOps(collection, mutation)));
          } else {
            turn := TakeRow(loaded);
          }
        case (LoadingTarget, Some(Load(loaded))) =>
          var p := source.value;
          source := None;
          var hint := p.link.value;
          var key := ClaimKey(hint, Provisional(hint), LiveLinks(loaded.placements));
          var ops := WritesFor(collection, mutation, p, Some(key), itemConflicted);
          phase := Writing;
          turn := Yielded(WantsWrite(ops));
        case (Writing, Some(Write)) =>
          phase := Done;
          turn := Complete(Ok(Report([])));
        case (Writing, Some(Written(overruled))) =>
          phase := Done;
          turn := Complete(Ok(Report(overruled)));
        case (Done, _) => turn := Complete(Err(BadArg(UnexpectedArg)));
        case (_, Some(_)) => turn := Complete(Err(BadArg(UnexpectedArg)));
        case (_, None) => turn := Complete(Err(BadArg(MissingArg)));
      }
    }

    /** The loaded row: refused, staged, or held while its target is read. */
    method TakeRow(loaded: Loaded) returns (turn: Outcome)
      requires !mutation.Add? && phase.Loading?
      modifies this`itemConflicted, this`source, this`phase
      ensures Valid()
      ensures (Current(), turn) == LoadedRow(old(Current()), loaded)
    {
      hide WritesFor, ItemMet, FindRow, MaySettle, ConflictsMet;
      var handle := mutation.handle;
      var found := FindRow(loaded.placements, handle);
      if found.None? {
        return Complete(Err(UnknownHandle(handle)));
      }
      var p := found.value;
      if p.link.None? {
        return Complete(Err(Unnamed(handle)));
      }
      if mutation.Edit? && mutation.ifMatch.Some? && p.body != mutation.ifMatch {
        return Complete(Err(Replaced(handle, mutation.ifMatch.value, p.body)));
      }
      if mutation.Edit? && !mutation.overrule {
        var item := ItemMet(loaded, p);
        itemConflicted := item.Some?;
        var met := ConflictsMet(p, item);
        if !MaySettle(met, mutation.resolves) {
          return Complete(Err(Unresolved(handle, met, mutation.resolves)));
        }
      }
      if Creates(mutation) {
        var copyable := p.base.Some? && syncsTarget;
        if p.body.None? && !copyable {
          return Complete(Err(Undeliverable(handle)));
        }
        var hint := p.link.value;
        source := Some(p);
        phase := LoadingTarget;
        return Yielded(WantsLoad(mutation.target, Links([hint, Minted(hint, Provisional(hint))])));
      }
      var ops := WritesFor(collection, mutation, p, None, itemConflicted);
      phase := Writing;
      turn := Yielded(WantsWrite(ops));
    }
  }
}
