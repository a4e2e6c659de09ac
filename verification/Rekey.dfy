/** The rekey coroutine: a state machine that lists a new handle space and writes one batch. */
module RekeyClass {
  import opened Wrappers
  import opened Text
  import opened Entities
  import opened Coroutine
  import M = RekeyModel

  datatype Phase = Start | Loading | Enumerating | Writing | Done

  datatype Report = Report(rekeyed: nat, pulled: nat, dropped: nat, parked: Option<M.Parked>)

  type Outcome = Turn<Result<Report, ArgError>>

  const NO_REPORT := Report(0, 0, 0, None)

  /** The whole state between two resumes. */
  datatype State = State(
    collection: Collection,
    rows: seq<Placement>,
    listed: seq<RemoteItem>,
    checkpoint: Option<Checkpoint>,
    readings: map<Handle, M.Reading>,
    acceptAbsences: bool,
    report: Report,
    phase: Phase)

  function Initial(c: Collection, acceptAbsences: bool): State {
    State(c, [], [], None, map[], acceptAbsences, NO_REPORT, Start)
  }

  function Read(item: RemoteItem): M.Reading {
    M.Reading(item.link, item.summary, item.sortKey, item.revision)
  }

  function ReadAll(readings: map<Handle, M.Reading>, items: seq<RemoteItem>): map<Handle, M.Reading> {
    if items == [] then readings
    else ReadAll(readings, items[..|items| - 1])[items[|items| - 1].handle := Read(items[|items| - 1])]
  }

  /** The page's members and checkpoint taken in. */
  function Taken(st: State, page: Page): State {
    st.(checkpoint := Or(page.checkpoint, st.checkpoint),
        readings := ReadAll(st.readings, page.items),
        listed := st.listed + page.items)
  }

  function RebuiltFrom(st: State): M.Rebuilt {
    M.Rebuild(st.collection, st.rows, st.listed, st.readings, st.checkpoint)
  }

  /** The state a rebuild leaves, its inputs taken out. */
  function Spent(st: State): State {
    var rebuilt := RebuiltFrom(st);
    st.(rows := [], listed := [], checkpoint := None, readings := map[],
        report := st.report.(rekeyed := st.report.rekeyed + rebuilt.rekeyed,
                             pulled := st.report.pulled + rebuilt.pulled,
                             dropped := st.report.dropped + rebuilt.dropped))
  }

  function ParkedAt(st: State): Option<M.Parked> {
    M.Guard(M.Absent(st.rows, RebuiltFrom(st).ops), |M.BasedHandles(st.rows)|, st.listed != [], st.acceptAbsences)
  }

  /** The last page is in: the batch is built once, and written unless the guard parks it. */
  function Conclude(st: State): (State, Outcome) {
    var parked := ParkedAt(st);
    if parked.Some? then (Spent(st).(phase := Done), Complete(Ok(NO_REPORT.(parked := parked))))
    else (Spent(st).(phase := Writing), Yielded(WantsWrite(RebuiltFrom(st).ops)))
  }

  function AskPage(st: State, cursor: Option<Cursor>): (State, Outcome) {
    (st.(phase := Enumerating), Yielded(WantsEnumerate(st.collection, cursor)))
  }

  function TakePage(st: State, page: Page): (State, Outcome) {
    if !page.complete then (st.(phase := Done), Complete(Err(IncompleteListing)))
    else if !page.last && page.cursor.None? then (st.(phase := Done), Complete(Err(UnresumablePage)))
    else if !page.last then AskPage(Taken(st, page), page.cursor)
    else Conclude(Taken(st, page))
  }

  function Resumed(st: State, arg: Option<Arg>): (State, Outcome) {
    match (st.phase, arg)
    case (Start, None) => (st.(phase := Loading), Yielded(WantsLoad(st.collection, All)))
    case (Loading, Some(Load(loaded))) => AskPage(st.(rows := loaded.placements), None)
    case (Enumerating, Some(Enumerate(CursorRejected))) =>
      AskPage(st.(listed := [], readings := map[], checkpoint := None), None)
    case (Enumerating, Some(Enumerate(Listed(page)))) => TakePage(st, page)
    case (Writing, Some(Write)) => (st.(phase := Done), Complete(Ok(st.report)))
    case (Writing, Some(Written(_))) => (st.(phase := Done), Complete(Ok(st.report)))
    case (Done, _) => (st, Complete(Err(UnexpectedArg)))
    case (_, Some(_)) => (st, Complete(Err(UnexpectedArg)))
    case (_, None) => (st, Complete(Err(MissingArg)))
  }

  class Rekey {
    var collection: Collection
    var rows: seq<Placement>
    var listed: seq<RemoteItem>
    var checkpoint: Option<Checkpoint>
    var readings: map<Handle, M.Reading>
    var acceptAbsences: bool
    var report: Report
    var phase: Phase

    ghost function Current(): State
      reads this
    {
      State(collection, rows, listed, checkpoint, readings, acceptAbsences, report, phase)
    }

    constructor (c: Collection, accept: bool)
      ensures Current() == Initial(c, accept)
    {
      collection, acceptAbsences := c, accept;
      rows, listed, checkpoint, readings := [], [], None, map[];
      report, phase := NO_REPORT, Start;
    }

    method Ask(cursor: Option<Cursor>) returns (turn: Outcome)
      modifies this`phase
      ensures (Current(), turn) == AskPage(old(Current()), cursor)
    {
      phase := Enumerating;
      turn := Yielded(WantsEnumerate(collection, cursor));
    }

    method Resume(arg: Option<Arg>) returns (turn: Outcome)
      modifies this
      ensures (Current(), turn) == Resumed(old(Current()), arg)
    {
      hide M.Rebuild, M.Absent, ReadAll;
      match (phase, arg) {
        case (Start, None) =>
          phase := Loading;
          turn := Yielded(WantsLoad(collection, All));
        case (Loading, Some(Load(loaded))) =>
          rows := loaded.placements;
          turn := Ask(None);
        case (Enumerating, Some(Enumerate(CursorRejected))) =>
          listed, readings, checkpoint := [], map[], None;
          turn := Ask(None);
        case (Enumerating, Some(Enumerate(Listed(page)))) =>
          if !page.complete {
            phase := Done;
            turn := Complete(Err(IncompleteListing));
          } else if !page.last && page.cursor.None? {
            phase := Done;
            turn := Complete(Err(UnresumablePage));
          } else {
            Take(page);
            if page.cursor.Some? && !page.last {
              turn := Ask(page.cursor);
            } else {
              turn := Close();
            }
          }
        case (Writing, Some(Write)) =>
          phase := Done;
          turn := Complete(Ok(report));
        case (Writing, Some(Written(_))) =>
          phase := Done;
          turn := Complete(Ok(report));
        case (Done, _) => turn := Complete(Err(UnexpectedArg));
        case (_, Some(_)) => turn := Complete(Err(UnexpectedArg));
        case (_, None) => turn := Complete(Err(MissingArg));
      }
    }

    method Take(page: Page)
      modifies this`checkpoint, this`readings, this`listed
      ensures Current() == Taken(old(Current()), page)
    {
      if page.checkpoint.Some? {
        checkpoint := page.checkpoint;
      }
      for i := 0 to |page.items|
        invariant readings == ReadAll(old(readings), page.items[..i])
        invariant listed == old(listed) + page.items[..i]
        invariant checkpoint == Or(page.checkpoint, old(checkpoint))
      {
        assert page.items[..i + 1][..i] == page.items[..i];
        var item := page.items[i];
        readings := readings[item.handle := Read(item)];
        listed := listed + [item];
      }
      assert page.items[..|page.items|] == page.items;
    }

    /** Builds the batch, then writes it or parks it. */
    method Close() returns (turn: Outcome)
      modifies this
      ensures (Current(), turn) == Conclude(old(Current()))
    {
      hide M.Rebuild, M.Absent;
      var loaded := rows;
      var based := M.BasedHandles(rows);
      var named := listed != [];
      var writes := Rebuild();
      var absent := M.Absent(loaded, writes);
      var parked := M.Guard(absent, |based|, named, acceptAbsences);
      if parked.Some? {
        phase := Done;
        turn := Complete(Ok(NO_REPORT.(parked := parked)));
        return;
      }
      phase := Writing;
      turn := Yielded(WantsWrite(writes));
    }

    /** Drops the old spine and upserts one placement per member, carried or fresh. */
    method Rebuild() returns (ops: seq<WriteOp>)
      modifies this
      ensures ops == RebuiltFrom(old(Current())).ops
      ensures Current() == Spent(old(Current()))
    {
      hide M.WalkAll, M.LeftAll, M.DropsOf, M.Upserted, M.Members, M.RowsByLink, M.LinksOf, M.CarriedHandles, M.InPlace;
      hide M.CarriedCount, M.CheckpointOps, Filter;
      var spine := Filter(M.IsSpine, rows);
      var items := M.Members(listed);
      ghost var walked := M.Walked(collection, rows, listed, readings);
      var w := WalkMembers(M.LinksOf(Filter(M.IsStaged, rows)), M.RowsByLink(spine), items);
      assert w == walked;
      var carriedCount := M.CarriedCount(w.entries);
      var left := RestageEdits(M.CarriedHandles(w.entries), spine);
      assert left == M.LeftOf(rows, w);
      var drops := DropSpine(left, M.InPlace(w.entries), spine);
      ops := drops + UpsertsOf(M.Upserted(w, left)) + M.CheckpointOps(collection, checkpoint);
      report := report.(rekeyed := report.rekeyed + (carriedCount + |left.rows|),
                        pulled := report.pulled + (|w.entries| - carriedCount),
                        dropped := report.dropped + |Filter(M.IsLost(left), spine)|);
      rows, listed, checkpoint, readings := [], [], None, map[];
    }

    /** Walks the members in handle order, each taking its key and the row under it. */
    method WalkMembers(staged: set<LinkId>, spine: M.ByLink, items: seq<RemoteItem>) returns (w: M.Walk)
      ensures w == M.WalkAll(collection, readings, M.Walk(staged, spine, []), items)
    {
      var claimed, byLink := staged, spine;
      var entries: seq<M.Entry> := [];
      ghost var from := M.Walk(staged, spine, []);
      for i := 0 to |items|
        invariant M.Walk(claimed, byLink, entries) == M.WalkAll(collection, readings, from, items[..i])
      {
        assert items[..i + 1][..i] == items[..i];
        ghost var here := M.Walk(claimed, byLink, entries);
        var item := items[i];
        var upsert, row := M.Fresh(collection, item, None, None), None;
        if item.handle in readings {
          var reading := readings[item.handle];
          var revision := Or(item.revision, reading.revision);
          var key := M.KeyOf(reading.link, item.handle, revision, item.body, claimed, byLink);
          if key in byLink {
            row := Some(byLink[key]);
            upsert := M.Carry(collection, byLink[key], item, Some(reading));
          } else {
            upsert := M.Fresh(collection, item, Some(reading), Some(key));
          }
          byLink := byLink - {key};
          claimed := claimed + {key};
        }
        entries := entries + [M.Entry(item, row, upsert)];
        assert M.Walk(claimed, byLink, entries) == M.WalkStep(collection, readings, here, item);
      }
      assert items[..|items|] == items;
      w := M.Walk(claimed, byLink, entries);
    }

    /** Restages every edit left behind under the provisional handle of its key. */
    method RestageEdits(carried: set<Handle>, spine: seq<Placement>) returns (left: M.Left)
      ensures left == M.LeftAll(M.Left(carried, {}, []), spine)
    {
      left := M.Left(carried, {}, []);
      for i := 0 to |spine|
        invariant left == M.LeftAll(M.Left(carried, {}, []), spine[..i])
      {
        assert spine[..i + 1][..i] == spine[..i];
        var p := spine[i];
        if p.handle in left.carried {
          continue;
        }
        if M.Edited(p) {
          var moved := left.moved;
          if p.link.Some? {
            moved := moved + {p.handle};
          }
          left := M.Left(left.carried + {p.handle}, moved, left.rows + [p]);
        }
      }
      assert spine[..|spine|] == spine;
    }

    /** Drops every old handle but one carried onto itself, for the reason its row left it. */
    method DropSpine(left: M.Left, inPlace: set<Handle>, spine: seq<Placement>) returns (drops: seq<WriteOp>)
      ensures drops == M.DropsOf(collection, left, inPlace, spine)
    {
      drops := [];
      for i := 0 to |spine|
        invariant drops == M.DropsOf(collection, left, inPlace, spine[..i])
      {
        assert spine[..i + 1][..i] == spine[..i];
        var handle := spine[i].handle;
        var moved := handle in left.moved;
        if handle in inPlace && !moved {
          continue;
        }
        var reason := if moved then Superseded else if handle in left.carried then Rekeyed else Deleted;
        drops := drops + [Drop(collection, handle, reason)];
      }
      assert spine[..|spine|] == spine;
    }
  }
}
