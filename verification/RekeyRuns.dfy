/** What holds over every sequence of resumes of a rekey, whatever the caller feeds it. */
module RekeyRuns {
  import opened Wrappers
  import opened Text
  import opened Entities
  import opened Coroutine
  import opened Runs
  import opened RekeyClass
  import M = RekeyModel

  predicate Closed(st: State) {
    st.phase.Writing? || st.phase.Done?
  }

  /** A write closes the run that was still listing. */
  lemma ClosingTurns(st: State, arg: Option<Arg>)
    ensures Writes(Resumed(st, arg).1) ==> st.phase.Enumerating? && Resumed(st, arg).0.phase.Writing?
  {
    hide M.Rebuild, M.Absent, M.Guard, ReadAll;
  }

  /** The run ends without its write: a page that closes no round, or a mass absence parked. */
  predicate Refuses(turn: Outcome) {
    && turn.Complete?
    && (turn.result == Err(IncompleteListing) || turn.result == Err(UnresumablePage) ||
        (turn.result.Ok? && turn.result.value == NO_REPORT.(parked := turn.result.value.parked)
          && turn.result.value.parked.Some?))
  }

  /** The report never says parked in a run that gets to write. */
  predicate Unparked(st: State) {
    st.report.parked.None?
  }

  lemma RekeyCloses()
    ensures ClosesOnWrite(Resumed, Closed)
  {
    forall st: State, arg: Option<Arg>
      ensures Closed(st) ==> Closed(Resumed(st, arg).0) && !Writes(Resumed(st, arg).1)
      ensures Writes(Resumed(st, arg).1) ==> Closed(Resumed(st, arg).0)
    {
      ClosingTurns(st, arg);
    }
  }

  /** Over every sequence of resumes, at most one write. */
  lemma AtMostOneWrite(st: State, args: Args, j: nat, k: nat)
    requires j < k < |args| && Writes(TurnAt(Resumed, st, args, j))
    ensures !Writes(TurnAt(Resumed, st, args, k))
  {
    hide Resumed;
    RekeyCloses();
    WritesOnce(Resumed, Closed, st, args, j, k);
  }

  lemma StepKeeps(st: State, arg: Option<Arg>)
    ensures Unparked(st) ==> Unparked(Resumed(st, arg).0)
    ensures Resumed(st, arg).0.collection == st.collection
  {
    hide M.Rebuild, M.Absent, M.Guard, ReadAll;
  }

  lemma {:induction false} ReportStaysUnparked(st: State, args: Args)
    requires Unparked(st)
    ensures Unparked(After(Resumed, st, args))
  {
    if args != [] {
      hide Resumed;
      ReportStaysUnparked(st, args[..|args| - 1]);
      StepKeeps(After(Resumed, st, args[..|args| - 1]), args[|args| - 1]);
    }
  }

  /** A run that refuses its listing or parks writes nothing, before or after. */
  lemma RefusedWritesNothing(c: Collection, accept: bool, args: Args, j: nat, k: nat)
    requires j < |args| && k < |args| && Refuses(TurnAt(Resumed, Initial(c, accept), args, j))
    ensures !Writes(TurnAt(Resumed, Initial(c, accept), args, k))
  {
    var st := Initial(c, accept);
    RekeyCloses();
    ReportStaysUnparked(st, args[..j]);
    RefusalIsTheLast(After(Resumed, st, args[..j]), args[j]);
    AfterStep(Resumed, st, args, j);
    if j < k {
      ClosedFromThenOn(Resumed, Closed, st, args, j + 1, k);
    } else if k < j {
      ClosingTurns(After(Resumed, st, args[..k]), args[k]);
      AfterStep(Resumed, st, args, k);
      if Writes(TurnAt(Resumed, st, args, k)) {
        ClosedFromThenOn(Resumed, Closed, st, args, k + 1, j);
      }
    }
  }

  lemma RefusalIsTheLast(st: State, arg: Option<Arg>)
    requires Unparked(st) && Refuses(Resumed(st, arg).1)
    ensures st.phase.Enumerating? && Resumed(st, arg).0.phase.Done? && !Writes(Resumed(st, arg).1)
  {
  }

  // ---------- The batch is a function of what was listed ----------

  /** What a run has been told, told apart from what it does with it. */
  datatype History = History(phase: Phase, rows: seq<Placement>, pages: seq<Page>)

  const NOTHING := History(Start, [], [])

  predicate Sound(page: Page) {
    page.complete && (page.last || page.cursor.Some?)
  }

  /** Pages count from the last cursor rejection; a page that is no round's ends the telling. */
  function Told(hist: History, arg: Option<Arg>): History {
    match (hist.phase, arg)
    case (Start, None) => hist.(phase := Loading)
    case (Loading, Some(Load(loaded))) => History(Enumerating, loaded.placements, [])
    case (Enumerating, Some(Enumerate(CursorRejected))) => hist.(pages := [])
    case (Enumerating, Some(Enumerate(Listed(page)))) =>
      if !Sound(page) then hist.(phase := Done)
      else hist.(pages := hist.pages + [page], phase := if page.last then Done else Enumerating)
    case _ => hist
  }

  function ToldAll(args: Args): History {
    if args == [] then NOTHING else Told(ToldAll(args[..|args| - 1]), args[|args| - 1])
  }

  function ListedOn(pages: seq<Page>): seq<RemoteItem> {
    if pages == [] then [] else ListedOn(pages[..|pages| - 1]) + pages[|pages| - 1].items
  }

  /** The checkpoint the last page to hand one handed. */
  function LastCheckpoint(pages: seq<Page>): Option<Checkpoint> {
    if pages == [] then None
    else Or(pages[|pages| - 1].checkpoint, LastCheckpoint(pages[..|pages| - 1]))
  }

  /** The batch a history calls for. */
  function Batch(c: Collection, hist: History): seq<WriteOp> {
    var listed := ListedOn(hist.pages);
    M.Rebuild(c, hist.rows, listed, ReadAll(map[], listed), LastCheckpoint(hist.pages)).ops
  }

  lemma {:induction false} ReadAllConcat(readings: map<Handle, M.Reading>, a: seq<RemoteItem>, b: seq<RemoteItem>)
    ensures ReadAll(readings, a + b) == ReadAll(ReadAll(readings, a), b)
    decreases |b|
  {
    if b == [] {
      assert a + b == a;
    } else {
      assert (a + b)[..|a + b| - 1] == a + b[..|b| - 1];
      ReadAllConcat(readings, a, b[..|b| - 1]);
    }
  }

  /** The machine holds what it was told, until it concludes. */
  ghost predicate Follows(st: State, hist: History) {
    && !hist.phase.Writing?
    && (st.phase == hist.phase || (st.phase.Writing? && hist.phase.Done?))
    && (hist.phase.Enumerating? ==>
        && st.rows == hist.rows && st.listed == ListedOn(hist.pages)
        && st.readings == ReadAll(map[], st.listed) && st.checkpoint == LastCheckpoint(hist.pages))
    && (hist.phase.Start? || hist.phase.Loading? ==> st.listed == [] && st.readings == map[] && st.checkpoint == None)
  }

  lemma PageIsTold(st: State, hist: History, page: Page)
    requires Follows(st, hist) && hist.phase.Enumerating?
    ensures var pages, taken := hist.pages + [page], Taken(st, page);
      && taken.listed == ListedOn(pages) && taken.readings == ReadAll(map[], taken.listed)
      && taken.checkpoint == LastCheckpoint(pages) && taken.rows == hist.rows
  {
    assert (hist.pages + [page])[..|hist.pages|] == hist.pages;
    ReadAllConcat(map[], st.listed, page.items);
  }

  lemma PageFollows(st: State, hist: History, page: Page)
    requires Follows(st, hist) && hist.phase.Enumerating?
    ensures var (st', turn) := TakePage(st, page);
      var told := Told(hist, Some(Enumerate(Listed(page))));
      Follows(st', told) && (Writes(turn) ==> turn.want.ops == Batch(st.collection, told))
  {
    hide ReadAll, ListedOn, LastCheckpoint, M.Rebuild, M.Absent, M.Guard, M.BasedHandles;
    PageIsTold(st, hist, page);
  }

  lemma StepFollows(st: State, hist: History, arg: Option<Arg>)
    requires Follows(st, hist)
    ensures Follows(Resumed(st, arg).0, Told(hist, arg))
    ensures var turn := Resumed(st, arg).1;
      Writes(turn) ==> turn.want.ops == Batch(st.collection, Told(hist, arg))
  {
    hide ReadAll, ListedOn, LastCheckpoint, TakePage, Batch;
    if hist.phase.Enumerating? && arg.Some? && arg.value.Enumerate? && arg.value.enumerated.Listed? {
      PageFollows(st, hist, arg.value.enumerated.page);
    }
    ReadNothing();
  }

  lemma ReadNothing()
    ensures ReadAll(map[], []) == map[] && ListedOn([]) == [] && LastCheckpoint([]) == None
  {
  }

  lemma {:induction false} RunFollows(c: Collection, accept: bool, args: Args)
    ensures Follows(After(Resumed, Initial(c, accept), args), ToldAll(args))
    ensures After(Resumed, Initial(c, accept), args).collection == c
  {
    if args != [] {
      var init := args[..|args| - 1];
      RunFollows(c, accept, init);
      hide Resumed, Told, Follows;
      StepFollows(After(Resumed, Initial(c, accept), init), ToldAll(init), args[|args| - 1]);
      StepKeeps(After(Resumed, Initial(c, accept), init), args[|args| - 1]);
    }
  }

  /** Whatever a run writes is the batch its history calls for. */
  lemma WritesTheBatch(c: Collection, accept: bool, args: Args, k: nat)
    requires k < |args| && Writes(TurnAt(Resumed, Initial(c, accept), args, k))
    ensures TurnAt(Resumed, Initial(c, accept), args, k).want.ops == Batch(c, ToldAll(args[..k + 1]))
  {
    RunFollows(c, accept, args[..k]);
    assert args[..k + 1][..k] == args[..k];
    hide M.Rebuild, M.Absent, M.Guard, Batch, Resumed;
    StepFollows(After(Resumed, Initial(c, accept), args[..k]), ToldAll(args[..k]), args[k]);
  }

  lemma AppendedKey(items: seq<RemoteItem>, last: RemoteItem, handle: Handle)
    ensures HasKey(M.MemberHandle, items + [last], handle) <==>
      HasKey(M.MemberHandle, items, handle) || last.handle == handle
  {
    var longer := items + [last];
    if i :| 0 <= i < |items| && M.MemberHandle(items[i]) == handle {
      assert M.MemberHandle(longer[i]) == handle;
    }
    if last.handle == handle {
      assert M.MemberHandle(longer[|items|]) == handle;
    }
    if i :| 0 <= i < |longer| && M.MemberHandle(longer[i]) == handle {
      assert i < |items| ==> M.MemberHandle(items[i]) == handle;
    }
  }

  lemma {:induction false} ReadAllKeys(items: seq<RemoteItem>, handle: Handle)
    ensures handle in ReadAll(map[], items) <==> HasKey(M.MemberHandle, items, handle)
  {
    if items != [] {
      var init, last := items[..|items| - 1], items[|items| - 1];
      assert items == init + [last];
      ReadAllKeys(init, handle);
      AppendedKey(init, last, handle);
    }
  }

  lemma {:induction false} ReadAllFinds(items: seq<RemoteItem>, i: nat)
    requires DistinctBy(M.MemberHandle, items) && i < |items|
    ensures items[i].handle in ReadAll(map[], items)
    ensures ReadAll(map[], items)[items[i].handle] ==
      M.Reading(items[i].link, items[i].summary, items[i].sortKey, items[i].revision)
  {
    if i < |items| - 1 {
      assert M.MemberHandle(items[i]) != M.MemberHandle(items[|items| - 1]);
      ReadAllFinds(items[..|items| - 1], i);
    }
  }

  lemma SameMembersSameKeys(a: seq<RemoteItem>, b: seq<RemoteItem>, handle: Handle)
    requires SameMembers(a, b) && HasKey(M.MemberHandle, a, handle)
    ensures HasKey(M.MemberHandle, b, handle)
  {
    var i :| 0 <= i < |a| && M.MemberHandle(a[i]) == handle;
    assert a[i] in b;
    var j :| 0 <= j < |b| && b[j] == a[i];
    assert M.MemberHandle(b[j]) == handle;
  }

  /** Two listings of the same members read the same. */
  lemma SameMembersSameReadings(a: seq<RemoteItem>, b: seq<RemoteItem>)
    requires DistinctBy(M.MemberHandle, a) && DistinctBy(M.MemberHandle, b) && SameMembers(a, b)
    ensures ReadAll(map[], a) == ReadAll(map[], b)
  {
    forall handle
      ensures handle in ReadAll(map[], a) <==> handle in ReadAll(map[], b)
      ensures handle in ReadAll(map[], a) ==> ReadAll(map[], a)[handle] == ReadAll(map[], b)[handle]
    {
      hide ReadAll;
      ReadAllKeys(a, handle);
      ReadAllKeys(b, handle);
      if HasKey(M.MemberHandle, b, handle) {
        SameMembersSameKeys(b, a, handle);
      }
      if i :| 0 <= i < |a| && M.MemberHandle(a[i]) == handle {
        SameMembersSameKeys(a, b, handle);
        assert a[i] in a && a[i] in b;
        var j :| 0 <= j < |b| && b[j] == a[i];
        ReadAllFinds(a, i);
        ReadAllFinds(b, j);
      }
    }
  }

  lemma SameMembersSameWalk(a: seq<RemoteItem>, b: seq<RemoteItem>)
    requires DistinctBy(M.MemberHandle, a) && DistinctBy(M.MemberHandle, b) && SameMembers(a, b)
    ensures M.Members(a) == M.Members(b)
  {
    SortByForgetsOrder(M.MemberHandle, a, b);
  }

  /**
    With distinct handles the batch is a function of the loaded rows and the set of members
    listed since the last rejection: page boundaries and listing order leave no trace but the
    checkpoint that came last.
  */
  lemma BatchForgetsPages(c: Collection, one: History, two: History)
    requires one.rows == two.rows && LastCheckpoint(one.pages) == LastCheckpoint(two.pages)
    requires DistinctBy(M.MemberHandle, ListedOn(one.pages)) && DistinctBy(M.MemberHandle, ListedOn(two.pages))
    requires SameMembers(ListedOn(one.pages), ListedOn(two.pages))
    ensures Batch(c, one) == Batch(c, two)
  {
    SameMembersSameReadings(ListedOn(one.pages), ListedOn(two.pages));
    SameMembersSameWalk(ListedOn(one.pages), ListedOn(two.pages));
    hide ReadAll, M.Members, M.WalkAll, M.LeftOf, M.DropsOf;
  }

  /** So two runs told the same, in whatever pages and order, write the same. */
  lemma RunsWriteAlike(c: Collection, acceptA: bool, a: Args, j: nat, acceptB: bool, b: Args, k: nat)
    requires j < |a| && k < |b|
    requires Writes(TurnAt(Resumed, Initial(c, acceptA), a, j)) && Writes(TurnAt(Resumed, Initial(c, acceptB), b, k))
    requires var one, two := ToldAll(a[..j + 1]), ToldAll(b[..k + 1]);
      && one.rows == two.rows && LastCheckpoint(one.pages) == LastCheckpoint(two.pages)
      && DistinctBy(M.MemberHandle, ListedOn(one.pages)) && DistinctBy(M.MemberHandle, ListedOn(two.pages))
      && SameMembers(ListedOn(one.pages), ListedOn(two.pages))
    ensures TurnAt(Resumed, Initial(c, acceptA), a, j).want.ops == TurnAt(Resumed, Initial(c, acceptB), b, k).want.ops
  {
    hide Resumed, Batch, Told, ListedOn, LastCheckpoint;
    WritesTheBatch(c, acceptA, a, j);
    WritesTheBatch(c, acceptB, b, k);
    BatchForgetsPages(c, ToldAll(a[..j + 1]), ToldAll(b[..k + 1]));
  }

  /** What a rekey asks: all its rows, then the listing page by page, from the start again after a rejection. */
  lemma AsksInTurn(st: State, arg: Option<Arg>)
    ensures var (st', turn) := Resumed(st, arg);
      && (st.phase.Start? && arg.None? ==> turn == Yielded(WantsLoad(st.collection, All)))
      && (st.phase.Loading? && arg.Some? && arg.value.Load? ==>
          turn == Yielded(WantsEnumerate(st.collection, None)) && st'.rows == arg.value.loaded.placements)
      && (st.phase.Enumerating? && arg == Some(Enumerate(CursorRejected)) ==>
          turn == Yielded(WantsEnumerate(st.collection, None)) && st'.listed == [])
      && (st.phase.Enumerating? && arg.Some? && arg.value.Enumerate? && arg.value.enumerated.Listed? ==>
          var page := arg.value.enumerated.page;
          page.complete && !page.last && page.cursor.Some? ==>
            turn == Yielded(WantsEnumerate(st.collection, page.cursor)) && st'.listed == st.listed + page.items)
  {
    hide ReadAll, M.Rebuild, M.Absent, M.Guard, M.BasedHandles;
  }

  /** And what it reports: the counts of the batch it wrote, once the write is acknowledged. */
  lemma ReportsItsBatch(st: State, page: Page, ack: Arg)
    requires st.phase.Enumerating? && st.report == NO_REPORT && (ack.Write? || ack.Written?)
    requires Writes(Resumed(st, Some(Enumerate(Listed(page)))).1)
    ensures var st1, taken := Resumed(st, Some(Enumerate(Listed(page)))).0, Taken(st, page);
      var r := M.Rebuild(st.collection, st.rows, taken.listed, taken.readings, taken.checkpoint);
      Resumed(st1, Some(ack)).1 == Complete(Ok(Report(r.rekeyed, r.pulled, r.dropped, None)))
  {
    hide ReadAll, M.Rebuild, M.Absent, M.Guard, M.BasedHandles;
  }
}
