/** One execution, alone, from its start to its end. */
module CampaignExecution {
  import opened CampaignRuns
  import opened Wrappers

  /** How an execution ends: all cells recorded, stopped by the stop file, refused at a partial cell, or
      ended by an unusable row. */
  datatype End = Complete | Stopped | Partial(i: nat) | Unusable(i: nat)

  /** A finished cell keeps its row; an untouched one is run once and takes the runner's row. */
  ghost predicate Recorded(cell: Cell, starts: nat, was: Cell, ran: nat, row: Row) {
    (was.Finished? && cell == was && starts == ran) || (was == Untouched && cell == Finished(row) && starts == ran + 1)
  }

  /** The cells before i are recorded, the others are as they were. */
  ghost predicate EndedAt(cells: seq<Cell>, starts: seq<nat>, i: nat, was: seq<Cell>, ran: seq<nat>, runner: nat -> Row) {
    && |cells| == |was| == |starts| == |ran| && i <= |was|
    && (forall k :: 0 <= k < i ==> Recorded(cells[k], starts[k], was[k], ran[k], runner(k)))
    && (forall k :: i <= k < |was| ==> cells[k] == was[k] && starts[k] == ran[k])
  }

  ghost predicate UpTo(cells: seq<Cell>, starts: seq<nat>, i: nat, was: seq<Cell>, ran: seq<nat>, runner: nat -> Row, rows: seq<Row>) {
    EndedAt(cells, starts, i, was, ran, runner) && |rows| == i && FirstRows(cells, rows)
  }

  lemma CellRun(cells: seq<Cell>, starts: seq<nat>, i: nat, was: seq<Cell>, ran: seq<nat>, runner: nat -> Row, rows: seq<Row>)
    requires UpTo(cells, starts, i, was, ran, runner, rows) && i < |cells| && cells[i] == Untouched
    ensures cells[i := Begun][i := Finished(runner(i))] == cells[i := Finished(runner(i))]
    ensures UpTo(cells[i := Finished(runner(i))], starts[i := starts[i] + 1], i + 1, was, ran, runner, rows + [runner(i)])
  {
  }

  /** The output directory: its cells, how often each cell's runner was started, and the result file. */
  class Directory {
    var cells: seq<Cell>
    var starts: seq<nat>
    var results: Option<seq<Row>>

    constructor (n: nat)
      ensures cells == seq(n, _ => Untouched) && starts == seq(n, _ => 0) && results == None
    {
      cells := seq(n, _ => Untouched);
      starts := seq(n, _ => 0);
      results := None;
    }

    /** Runs the cells that have no row, in order, and leaves every other as it is. `runner` is what the
        runner would answer for each cell, `stop` whether the stop file is there before it. */
    method Execute(runner: nat -> Row, stop: nat -> bool) returns (end: End)
      requires |starts| == |cells|
      modifies this
      ensures end == Complete ==> EndedAt(cells, starts, |cells|, old(cells), old(starts), runner)
      ensures end == Complete ==> results.Some? && FirstRows(cells, results.value) && |results.value| == |cells|
      ensures end == Stopped ==> exists i: nat :: i < |cells| && stop(i) && EndedAt(cells, starts, i, old(cells), old(starts), runner)
      ensures end.Partial? ==> end.i < |cells| && EndedAt(cells, starts, end.i, old(cells), old(starts), runner)
      ensures end.Partial? ==> cells[end.i] == Begun || cells[end.i] == Torn
      ensures end.Unusable? ==> end.i < |cells| && EndedAt(cells, starts, end.i + 1, old(cells), old(starts), runner)
      ensures end.Unusable? ==> old(cells)[end.i] == Untouched && !runner(end.i).usable
      ensures end.Unusable? ==> results.Some? && FirstRows(cells, results.value) && |results.value| == end.i + 1
    {
      ghost var was, ran := cells, starts;
      var rows: seq<Row> := [];
      for i := 0 to |cells|
        invariant |cells| == |starts| == |was| && UpTo(cells, starts, i, was, ran, runner, rows)
      {
        if stop(i) {
          return Stopped;
        }
        if cells[i].Finished? {
          rows := rows + [cells[i].row];
          continue;
        }
        if cells[i] != Untouched {
          return Partial(i);
        }
        var row := runner(i);
        CellRun(cells, starts, i, was, ran, runner, rows);
        cells := cells[i := Begun];
        starts := starts[i := starts[i] + 1];
        cells := cells[i := Finished(row)];
        rows := rows + [row];
        results := Some(rows);
        if !row.usable {
          return Unusable(i);
        }
      }
      results := Some(rows);
      return Complete;
    }
  }
}
