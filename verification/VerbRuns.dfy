/** Whole runs of an upgrade: whatever it is answered, one write. */
module UpgradeRuns {
  import opened Wrappers
  import opened Coroutine
  import opened Runs
  import opened UpgradeClass

  predicate Closed(st: State) {
    st.phase.Writing? || st.phase.Done?
  }

  lemma StepCloses(st: State, arg: Option<Arg>)
    ensures Closed(st) ==> Closed(Resumed(st, arg).0) && !Writes(Resumed(st, arg).1)
    ensures Writes(Resumed(st, arg).1) ==> Closed(Resumed(st, arg).0)
  {
    hide M.WriteFetched, M.PendingHandles, LinkAll, LookedUp, HeldBodies, FreshLinks, RowsOf, Beside;
  }

  /** A resume that errs changes nothing: the machine may be answered again. */
  lemma ErrorStaysPut(st: State, arg: Option<Arg>)
    ensures var (st', turn) := Resumed(st, arg);
      turn.Complete? && turn.result.Err? ==> st' == st
  {
    hide M.WriteFetched, M.PendingHandles, LinkAll, LookedUp, HeldBodies, FreshLinks, RowsOf, Beside;
  }

  lemma UpgradeCloses()
    ensures ClosesOnWrite(Resumed, Closed)
  {
    forall st: State, arg: Option<Arg>
      ensures Closed(st) ==> Closed(Resumed(st, arg).0) && !Writes(Resumed(st, arg).1)
      ensures Writes(Resumed(st, arg).1) ==> Closed(Resumed(st, arg).0)
    {
      StepCloses(st, arg);
    }
  }

  /** Over every sequence of resumes, at most one write. */
  lemma AtMostOneWrite(st: State, args: Args, j: nat, k: nat)
    requires j < k < |args| && Writes(TurnAt(Resumed, st, args, j))
    ensures !Writes(TurnAt(Resumed, st, args, k))
  {
    hide Resumed;
    UpgradeCloses();
    WritesOnce(Resumed, Closed, st, args, j, k);
  }
}

/** Whole runs of a mutation: one write, and refusals that leave no trace. */
module MutateRuns {
  import opened Wrappers
  import opened Entities
  import opened Coroutine
  import opened Runs
  import opened MutateModel
  import opened MutateClass

  /** The machine's answers, a state no run leaves refusing every one. */
  function Answered(st: State, arg: Option<Arg>): (State, Outcome) {
    if st.Valid() then Resumed(st, arg) else Fails(st, BadArg(UnexpectedArg))
  }

  predicate Closed(st: State) {
    st.phase.Writing? || st.phase.Done?
  }

  lemma StepIsValid(st: State, arg: Option<Arg>)
    requires st.Valid()
    ensures Resumed(st, arg).0.Valid()
  {
    hide WritesFor, ItemMet, FindRow, MaySettle, ConflictsMet;
  }

  lemma StepCloses(st: State, arg: Option<Arg>)
    requires st.Valid()
    ensures Closed(st) ==> Closed(Resumed(st, arg).0) && !Writes(Resumed(st, arg).1)
    ensures Writes(Resumed(st, arg).1) ==> Closed(Resumed(st, arg).0)
  {
    hide WritesFor, ItemMet, FindRow, MaySettle, ConflictsMet;
  }

  /** A refusal stages nothing: all it leaves is whether the item was seen in conflict. */
  lemma RefusalStagesNothing(st: State, arg: Option<Arg>)
    requires st.Valid()
    ensures var (st', turn) := Resumed(st, arg);
      turn.Complete? && turn.result.Err? ==> st' == st.(itemConflicted := st'.itemConflicted)
  {
    hide WritesFor, ItemMet, FindRow, MaySettle, ConflictsMet;
  }

  lemma MutationCloses()
    ensures ClosesOnWrite(Answered, Closed)
  {
    forall st: State, arg: Option<Arg>
      ensures Closed(st) ==> Closed(Answered(st, arg).0) && !Writes(Answered(st, arg).1)
      ensures Writes(Answered(st, arg).1) ==> Closed(Answered(st, arg).0)
    {
      if st.Valid() {
        StepCloses(st, arg);
      }
    }
  }

  /** Over every sequence of resumes, at most one write. */
  lemma AtMostOneWrite(st: State, args: Args, j: nat, k: nat)
    requires j < k < |args| && Writes(TurnAt(Answered, st, args, j))
    ensures !Writes(TurnAt(Answered, st, args, k))
  {
    hide Resumed;
    MutationCloses();
    WritesOnce(Answered, Closed, st, args, j, k);
  }

  /** A run still loading is the run it began as, but for the conflict it last saw. */
  predicate AsBegun(st: State, first: State) {
    && (st.phase.Start? ==> st == first)
    && (st.phase.Loading? ==> st == first.(phase := Loading, itemConflicted := st.itemConflicted))
  }

  lemma StepAsBegun(st: State, arg: Option<Arg>, first: State)
    requires st.Valid() && first.phase.Start? && AsBegun(st, first)
    ensures AsBegun(Resumed(st, arg).0, first)
  {
    hide WritesFor, ItemMet, FindRow, MaySettle, ConflictsMet;
  }

  lemma {:induction false} RunAsBegun(c: Collection, m: Mutation, syncs: bool, args: Args)
    ensures var st := After(Answered, Initial(c, m, syncs), args); st.Valid() && AsBegun(st, Initial(c, m, syncs))
  {
    if args != [] {
      hide Resumed;
      var init, last := args[..|args| - 1], args[|args| - 1];
      RunAsBegun(c, m, syncs, init);
      var st := After(Answered, Initial(c, m, syncs), init);
      StepIsValid(st, last);
      StepAsBegun(st, last, Initial(c, m, syncs));
    }
  }

  /** What a load calls for does not depend on the conflict an earlier one showed. */
  lemma LoadForgetsConflict(st: State, seen: bool, loaded: Loaded)
    requires st.Valid() && st.phase.Loading?
    ensures Resumed(st.(itemConflicted := seen), Some(Load(loaded))).1 == Resumed(st, Some(Load(loaded))).1
  {
    hide ItemMet, FindRow, MaySettle, ConflictsMet, EditedRow, RemoveOps, StagedCopy;
  }

  /** Refusals leave no trace: after any number of them, a load is answered as a first one is. */
  lemma RefusalsLeaveNoTrace(c: Collection, m: Mutation, syncs: bool, args: Args, loaded: Loaded)
    requires After(Answered, Initial(c, m, syncs), args).phase.Loading?
    ensures Answered(After(Answered, Initial(c, m, syncs), args), Some(Load(loaded))).1 ==
      Answered(Initial(c, m, syncs).(phase := Loading), Some(Load(loaded))).1
  {
    hide Resumed;
    RunAsBegun(c, m, syncs, args);
    var first := Initial(c, m, syncs).(phase := Loading);
    LoadForgetsConflict(first, After(Answered, Initial(c, m, syncs), args).itemConflicted, loaded);
  }
}
