/** The contract every verb runs under: what it asks its caller for, and what it is resumed with. */
module Coroutine {
  import opened Wrappers
  import opened Entities

  datatype Page = Page(
      items: seq<RemoteItem>, complete: bool, last: bool, cursor: Option<Cursor>, checkpoint: Option<Checkpoint>)

  datatype Enumerated = Listed(page: Page) | CursorRejected | HeadRejected | NoHead

  /** A load's rows, and the item conflicts among them with their diverging bodies. */
  datatype Loaded = Loaded(placements: seq<Placement>, conflicted: seq<(Handle, Option<Hash>)>)

  datatype Selection = All | Handles(handles: seq<Handle>) | Links(links: seq<LinkId>)

  datatype Want =
    | WantsLoad(collection: Collection, selection: Selection)
    | WantsEnumerate(collection: Collection, cursor: Option<Cursor>)
    | WantsFetch(collection: Collection, handles: seq<Handle>, tier: Tier)
    | WantsLookupObject(links: seq<LinkId>)
    | WantsWrite(ops: seq<WriteOp>)
    | WantsVerify(bodies: set<Hash>)

  datatype Arg =
    | Load(loaded: Loaded)
    | Enumerate(enumerated: Enumerated)
    | Fetch(items: seq<FetchedItem>)
    | LookupObject(known: map<LinkId, Object>)
    | Push
    | Write
    | Written(overruled: seq<(Handle, LinkId)>)
    | Verified(sound: set<Hash>)

  datatype ArgError = UnexpectedArg | MissingArg | UnresumablePage | IncompleteListing

  /** One resume's outcome: a request, or the run's end. */
  datatype Turn<R> = Yielded(want: Want) | Complete(result: R)
}

/** Runs of a coroutine: every sequence of resumes, whatever the caller feeds it. */
module Runs {
  import opened Wrappers
  import opened Coroutine

  type Args = seq<Option<Arg>>

  /** The state a run of resumes leaves. */
  function After<S(!new), R(!new)>(resume: (S, Option<Arg>) -> (S, Turn<R>), st: S, args: Args): S {
    if args == [] then st else resume(After(resume, st, args[..|args| - 1]), args[|args| - 1]).0
  }

  /** What the `k`-th resume answered. */
  function TurnAt<S(!new), R(!new)>(resume: (S, Option<Arg>) -> (S, Turn<R>), st: S, args: Args, k: nat): Turn<R>
    requires k < |args|
  {
    resume(After(resume, st, args[..k]), args[k]).1
  }

  predicate Writes<R>(turn: Turn<R>) {
    turn.Yielded? && turn.want.WantsWrite?
  }

  lemma AfterStep<S(!new), R(!new)>(resume: (S, Option<Arg>) -> (S, Turn<R>), st: S, args: Args, k: nat)
    requires k < |args|
    ensures After(resume, st, args[..k + 1]) == resume(After(resume, st, args[..k]), args[k]).0
  {
    assert args[..k + 1][..k] == args[..k];
  }

  /** A write closes the machine, and a closed one stays closed and writes nothing. */
  ghost predicate ClosesOnWrite<S(!new), R(!new)>(resume: (S, Option<Arg>) -> (S, Turn<R>), closed: S -> bool) {
    forall st: S, arg: Option<Arg> ::
      && (closed(st) ==> closed(resume(st, arg).0) && !Writes(resume(st, arg).1))
      && (Writes(resume(st, arg).1) ==> closed(resume(st, arg).0))
  }

  /** A run that has written or ended never writes again. */
  lemma {:induction false} ClosedFromThenOn<S(!new), R(!new)>(
      resume: (S, Option<Arg>) -> (S, Turn<R>), closed: S -> bool, st: S, args: Args, j: nat, k: nat)
    requires ClosesOnWrite(resume, closed) && j <= k < |args| && closed(After(resume, st, args[..j]))
    ensures closed(After(resume, st, args[..k])) && !Writes(TurnAt(resume, st, args, k))
    decreases k
  {
    if j < k {
      ClosedFromThenOn(resume, closed, st, args, j, k - 1);
      AfterStep(resume, st, args, k - 1);
    }
  }

  /** Over every sequence of resumes, at most one write. */
  lemma WritesOnce<S(!new), R(!new)>(
      resume: (S, Option<Arg>) -> (S, Turn<R>), closed: S -> bool, st: S, args: Args, j: nat, k: nat)
    requires ClosesOnWrite(resume, closed) && j < k < |args| && Writes(TurnAt(resume, st, args, j))
    ensures !Writes(TurnAt(resume, st, args, k))
  {
    AfterStep(resume, st, args, j);
    ClosedFromThenOn(resume, closed, st, args, j + 1, k);
  }
}
