/** Running the cells: executions that stop, crash and start again, several at once, over one directory. */
module CampaignRuns {
  import opened Wrappers

  /** A result row; an unusable one is "unsupported" or "skipped". */
  datatype Row = Row(text: string, usable: bool)

  /** A cell on disk: no directory; a directory without a row; a row cut off while it was written; a row. */
  datatype Cell = Untouched | Begun | Torn | Finished(row: Row)

  /** Where an execution stands within its cell. */
  datatype Phase = Looks | Makes | Starts | Waits | Writes(row: Row) | Publishes(row: Row)

  /** An execution that is not running, or is at cell i with the rows it has gathered. */
  datatype Execution = Off | At(i: nat, phase: Phase, rows: seq<Row>)

  datatype World = World(cells: seq<Cell>, starts: seq<nat>, stop: bool, results: Option<seq<Row>>, procs: seq<Execution>)

  /** Crash may come at any point; a crash while a row is written may leave part of it. */
  datatype Step =
    | Begin(p: nat)
    | Stop(on: bool)
    | Look(p: nat)
    | Make(p: nat)
    | StartRunner(p: nat)
    | RunnerEnds(p: nat, row: Row)
    | WriteRow(p: nat)
    | Publish(p: nat)
    | Crash(p: nat, torn: bool)

  predicate Shape(w: World) {
    |w.starts| == |w.cells| && forall p :: 0 <= p < |w.procs| && w.procs[p].At? ==> InRange(w, w.procs[p])
  }

  predicate InRange(w: World, e: Execution)
    requires e.At?
  {
    e.i <= |w.cells| && (e.phase != Looks ==> e.i < |w.cells|)
  }

  function Put(w: World, p: nat, e: Execution): World
    requires p < |w.procs|
  {
    w.(procs := w.procs[p := e])
  }

  /** At the top of the loop: the end of the list, the stop file, then what is on disk. */
  function Looked(w: World, p: nat, e: Execution): World
    requires p < |w.procs| && e.At? && e.i <= |w.cells|
  {
    if e.i == |w.cells| then Put(w, p, Off).(results := Some(e.rows))
    else if w.stop then Put(w, p, Off)
    else
      match w.cells[e.i]
      case Finished(row) => Put(w, p, At(e.i + 1, Looks, e.rows + [row]))
      case Untouched => Put(w, p, e.(phase := Makes))
      case _ => Put(w, p, Off)
  }

  /** Making the directory fails when it has come to be in the meantime. */
  function Made(w: World, p: nat, e: Execution): World
    requires p < |w.procs| && e.At? && e.i < |w.cells|
  {
    if w.cells[e.i] == Untouched then Put(w, p, e.(phase := Starts)).(cells := w.cells[e.i := Begun])
    else Put(w, p, Off)
  }

  function Started(w: World, p: nat, e: Execution): World
    requires p < |w.procs| && e.At? && e.i < |w.starts|
  {
    Put(w, p, e.(phase := Waits)).(starts := w.starts[e.i := w.starts[e.i] + 1])
  }

  function Written(w: World, p: nat, e: Execution): World
    requires p < |w.procs| && e.At? && e.phase.Writes? && e.i < |w.cells|
  {
    Put(w, p, At(e.i, Publishes(e.phase.row), e.rows + [e.phase.row])).(cells := w.cells[e.i := Finished(e.phase.row)])
  }

  /** The gathered rows are written out; an unusable row ends the execution. */
  function Published(w: World, p: nat, e: Execution): World
    requires p < |w.procs| && e.At? && e.phase.Publishes?
  {
    Put(w, p, if e.phase.row.usable then At(e.i + 1, Looks, e.rows) else Off).(results := Some(e.rows))
  }

  function Crashed(w: World, p: nat, e: Execution, torn: bool): World
    requires p < |w.procs| && e.At? && (e.phase.Writes? ==> e.i < |w.cells|)
  {
    if torn && e.phase.Writes? then Put(w, p, Off).(cells := w.cells[e.i := Torn]) else Put(w, p, Off)
  }

  predicate Is(w: World, p: nat, phase: Phase) {
    p < |w.procs| && w.procs[p].At? && w.procs[p].phase == phase
  }

  /** One step, or None where it is not possible. */
  function Next(w: World, step: Step): Option<World>
    requires Shape(w)
  {
    match step
    case Begin(p) => if p < |w.procs| && w.procs[p].Off? then Some(Put(w, p, At(0, Looks, []))) else None
    case Stop(on) => Some(w.(stop := on))
    case Look(p) => if Is(w, p, Looks) then Some(Looked(w, p, w.procs[p])) else None
    case Make(p) => if Is(w, p, Makes) then Some(Made(w, p, w.procs[p])) else None
    case StartRunner(p) => if Is(w, p, Starts) then Some(Started(w, p, w.procs[p])) else None
    case RunnerEnds(p, row) => if Is(w, p, Waits) then Some(Put(w, p, w.procs[p].(phase := Writes(row)))) else None
    case WriteRow(p) =>
      if p < |w.procs| && w.procs[p].At? && w.procs[p].phase.Writes? then Some(Written(w, p, w.procs[p])) else None
    case Publish(p) =>
      if p < |w.procs| && w.procs[p].At? && w.procs[p].phase.Publishes? then Some(Published(w, p, w.procs[p])) else None
    case Crash(p, torn) => if p < |w.procs| && w.procs[p].At? then Some(Crashed(w, p, w.procs[p], torn)) else None
  }

  // ----- what every step keeps

  /** The execution owns cell i: it made the directory and has not finished with it. */
  predicate Owns(e: Execution, i: nat) {
    e.At? && e.i == i && (e.phase == Starts || e.phase == Waits || e.phase.Writes?)
  }

  /** An owner's cell has a directory and no row, and its runner has started only if it is past that. */
  predicate OwnerOk(cells: seq<Cell>, starts: seq<nat>, e: Execution)
    requires |starts| == |cells|
  {
    e.At? && (e.phase == Starts || e.phase == Waits || e.phase.Writes?) ==>
      e.i < |cells| && cells[e.i] == Begun && starts[e.i] == (if e.phase == Starts then 0 else 1)
  }

  predicate StartOk(cell: Cell, starts: nat) { starts <= 1 && (cell == Untouched ==> starts == 0) }

  /** The rows are those of the first cells, in order. */
  predicate FirstRows(cells: seq<Cell>, rows: seq<Row>) {
    |rows| <= |cells| && forall k :: 0 <= k < |rows| ==> cells[k] == Finished(rows[k])
  }

  predicate Gathers(cells: seq<Cell>, e: Execution) {
    e.At? ==> FirstRows(cells, e.rows) && |e.rows| == e.i + (if e.phase.Publishes? then 1 else 0)
  }

  /** No two executions own the same cell. */
  predicate Disjoint(a: Execution, b: Execution) { a.At? && Owns(a, a.i) ==> !Owns(b, a.i) }

  ghost predicate Kept(w: World) {
    && Shape(w)
    && (forall i :: 0 <= i < |w.cells| ==> StartOk(w.cells[i], w.starts[i]))
    && (forall p :: 0 <= p < |w.procs| ==> OwnerOk(w.cells, w.starts, w.procs[p]) && Gathers(w.cells, w.procs[p]))
    && (forall p, q :: 0 <= p < q < |w.procs| ==> Disjoint(w.procs[p], w.procs[q]))
    && (w.results.Some? ==> FirstRows(w.cells, w.results.value))
  }

  /** Nothing on disk changes but perhaps the result file. */
  lemma KeptMovingOn(w: World, p: nat, e: Execution, results: Option<seq<Row>>)
    requires Kept(w) && p < |w.procs|
    requires e.At? ==> InRange(w, e) && (Owns(e, e.i) ==> Owns(w.procs[p], e.i))
    requires OwnerOk(w.cells, w.starts, e) && Gathers(w.cells, e)
    requires results.Some? ==> FirstRows(w.cells, results.value)
    ensures Kept(Put(w, p, e).(results := results))
  {
    var v := Put(w, p, e).(results := results);
    forall q, r | 0 <= q < r < |v.procs| ensures Disjoint(v.procs[q], v.procs[r]) {
      assert Disjoint(w.procs[q], w.procs[r]);
    }
  }

  lemma KeptLook(w: World, p: nat)
    requires Kept(w) && Is(w, p, Looks)
    ensures Kept(Looked(w, p, w.procs[p]))
  {
    var e := w.procs[p];
    var v := Looked(w, p, e);
    assert Gathers(w.cells, e) && InRange(w, e);
    KeptMovingOn(w, p, v.procs[p], v.results);
    assert v == Put(w, p, v.procs[p]).(results := v.results);
  }

  lemma KeptMake(w: World, p: nat)
    requires Kept(w) && Is(w, p, Makes)
    ensures Kept(Made(w, p, w.procs[p]))
  {
    var e := w.procs[p];
    assert Gathers(w.cells, e) && InRange(w, e);
    assert StartOk(w.cells[e.i], w.starts[e.i]);
    if w.cells[e.i] == Untouched {
      assert w.starts[e.i := 0] == w.starts;
    } else {
      KeptMovingOn(w, p, Off, w.results);
    }
  }

  lemma KeptStart(w: World, p: nat)
    requires Kept(w) && Is(w, p, Starts)
    ensures Kept(Started(w, p, w.procs[p]))
  {
    var e := w.procs[p];
    assert OwnerOk(w.cells, w.starts, e) && Gathers(w.cells, e) && InRange(w, e);
    assert w.cells[e.i := Begun] == w.cells;
  }

  lemma RowsStay(cells: seq<Cell>, rows: seq<Row>, i: nat, cell: Cell)
    requires FirstRows(cells, rows) && i < |cells| && cells[i] == Begun
    ensures FirstRows(cells[i := cell], rows)
  {
    assert forall k :: 0 <= k < |rows| ==> cells[k].Finished?;
  }

  // What an owner writes into its cell leaves every other execution's cell and rows alone.
  lemma OthersStay(w: World, p: nat, q: nat, cell: Cell)
    requires Kept(w) && p < |w.procs| && q < |w.procs| && p != q && w.procs[p].At? && w.procs[p].phase.Writes?
    ensures w.procs[p].i < |w.cells|
    ensures var cells := w.cells[w.procs[p].i := cell]; OwnerOk(cells, w.starts, w.procs[q]) && Gathers(cells, w.procs[q])
  {
    var e := w.procs[p];
    assert OwnerOk(w.cells, w.starts, e) && OwnerOk(w.cells, w.starts, w.procs[q]) && Gathers(w.cells, w.procs[q]);
    assert if p < q then Disjoint(e, w.procs[q]) else Disjoint(w.procs[q], e);
    if w.procs[q].At? {
      RowsStay(w.cells, w.procs[q].rows, e.i, cell);
    }
  }

  // An owner leaves its cell with a row or part of one.
  lemma KeptEnding(w: World, p: nat, cell: Cell, e: Execution)
    requires Kept(w) && p < |w.procs| && w.procs[p].At? && w.procs[p].phase.Writes? && w.procs[p].i < |w.cells|
    requires !cell.Untouched? && (e.At? ==> InRange(w, e) && !Owns(e, e.i))
    requires Gathers(w.cells[w.procs[p].i := cell], e)
    ensures Kept(Put(w, p, e).(cells := w.cells[w.procs[p].i := cell]))
  {
    var i := w.procs[p].i;
    var v := Put(w, p, e).(cells := w.cells[i := cell]);
    assert OwnerOk(w.cells, w.starts, w.procs[p]);
    forall q | 0 <= q < |v.procs| ensures OwnerOk(v.cells, v.starts, v.procs[q]) && Gathers(v.cells, v.procs[q]) {
      if q != p {
        OthersStay(w, p, q, cell);
      }
    }
    forall q, r | 0 <= q < r < |v.procs| ensures Disjoint(v.procs[q], v.procs[r]) {
      assert Disjoint(w.procs[q], w.procs[r]);
    }
    if w.results.Some? {
      RowsStay(w.cells, w.results.value, i, cell);
    }
  }

  lemma KeptWrite(w: World, p: nat)
    requires Kept(w) && p < |w.procs| && w.procs[p].At? && w.procs[p].phase.Writes?
    ensures Kept(Written(w, p, w.procs[p]))
  {
    var e := w.procs[p];
    assert OwnerOk(w.cells, w.starts, e) && Gathers(w.cells, e) && InRange(w, e);
    KeptEnding(w, p, Finished(e.phase.row), At(e.i, Publishes(e.phase.row), e.rows + [e.phase.row]));
  }

  lemma KeptCrash(w: World, p: nat, torn: bool)
    requires Kept(w) && p < |w.procs| && w.procs[p].At?
    ensures Kept(Crashed(w, p, w.procs[p], torn))
  {
    var e := w.procs[p];
    assert OwnerOk(w.cells, w.starts, e) && InRange(w, e);
    if torn && e.phase.Writes? {
      KeptEnding(w, p, Torn, Off);
    } else {
      KeptMovingOn(w, p, Off, w.results);
    }
  }

  lemma KeptPublish(w: World, p: nat)
    requires Kept(w) && p < |w.procs| && w.procs[p].At? && w.procs[p].phase.Publishes?
    ensures Kept(Published(w, p, w.procs[p]))
  {
    var e := w.procs[p];
    assert Gathers(w.cells, e) && InRange(w, e);
    var next := if e.phase.row.usable then At(e.i + 1, Looks, e.rows) else Off;
    KeptMovingOn(w, p, next, Some(e.rows));
  }

  lemma KeptStep(w: World, step: Step)
    requires Kept(w) && Next(w, step).Some?
    ensures Kept(Next(w, step).value)
  {
    match step
    case Begin(p) => KeptMovingOn(w, p, At(0, Looks, []), w.results);
    case Stop(on) =>
    case Look(p) => KeptLook(w, p);
    case Make(p) => KeptMake(w, p);
    case StartRunner(p) => KeptStart(w, p);
    case RunnerEnds(p, row) =>
      assert OwnerOk(w.cells, w.starts, w.procs[p]) && Gathers(w.cells, w.procs[p]);
      KeptMovingOn(w, p, w.procs[p].(phase := Writes(row)), w.results);
    case WriteRow(p) => KeptWrite(w, p);
    case Publish(p) => KeptPublish(w, p);
    case Crash(p, torn) => KeptCrash(w, p, torn);
  }

  // ----- whole runs

  ghost function Exec(w: World, steps: seq<Step>): Option<World>
    requires Kept(w)
    decreases |steps|
  {
    if steps == [] then Some(w)
    else
      var n := Next(w, steps[0]);
      if n.None? then None
      else
        KeptStep(w, steps[0]);
        Exec(n.value, steps[1..])
  }

  /** A directory with a finished row or a torn one, or whose runner has started, is never given back. */
  predicate Lasting(w: World, v: World) {
    && |v.cells| == |w.cells| && |w.starts| == |w.cells| && |v.starts| == |w.cells|
    && forall i :: 0 <= i < |w.cells| ==> CellLasts(w.cells[i], v.cells[i]) && w.starts[i] <= v.starts[i]
  }

  predicate CellLasts(a: Cell, b: Cell) {
    (a.Finished? || a.Torn? ==> b == a) && (a.Begun? ==> !b.Untouched?)
  }

  lemma OneCellLasts(w: World, v: World, i: nat, cell: Cell)
    requires |w.starts| == |w.cells| && i < |w.cells| && v.starts == w.starts && v.cells == w.cells[i := cell]
    requires CellLasts(w.cells[i], cell)
    ensures Lasting(w, v)
  {
  }

  lemma OneStepLasts(w: World, step: Step)
    requires Kept(w) && Next(w, step).Some?
    ensures Lasting(w, Next(w, step).value)
  {
    match step
    case Make(p) =>
    case StartRunner(p) =>
    case WriteRow(p) =>
      assert OwnerOk(w.cells, w.starts, w.procs[p]);
      OneCellLasts(w, Next(w, step).value, w.procs[p].i, Finished(w.procs[p].phase.row));
    case Crash(p, torn) =>
      assert OwnerOk(w.cells, w.starts, w.procs[p]);
      if torn && w.procs[p].phase.Writes? {
        OneCellLasts(w, Next(w, step).value, w.procs[p].i, Torn);
      }
    case _ => assert Next(w, step).value.cells == w.cells;
  }

  /** Over any executions, one after another or at the same time, crashing and stopped anywhere: every
      cell's runner starts at most once; a finished row is never replaced, nor a torn one; and the rows an
      execution holds, and those in the result file, are the rows of the first cells in schedule order. */
  lemma {:induction false} EvidenceIsKept(w: World, steps: seq<Step>)
    requires Kept(w) && Exec(w, steps).Some?
    ensures Kept(Exec(w, steps).value) && Lasting(w, Exec(w, steps).value)
    decreases |steps|
  {
    if steps == [] {
      assert Lasting(w, w);
    } else {
      KeptStep(w, steps[0]);
      OneStepLasts(w, steps[0]);
      var n := Next(w, steps[0]).value;
      EvidenceIsKept(n, steps[1..]);
    }
  }

  // ----- what one execution does at one cell, undisturbed

  lemma ExecStep(w: World, step: Step, steps: seq<Step>)
    requires Kept(w) && Next(w, step).Some? && Kept(Next(w, step).value)
    ensures Exec(w, [step] + steps) == Exec(Next(w, step).value, steps)
  {
    assert ([step] + steps)[1..] == steps;
  }

  lemma RunnerEnded(w: World, p: nat, i: nat, rows: seq<Row>, row: Row)
    requires Kept(w) && p < |w.procs| && w.procs[p] == At(i, Waits, rows)
    ensures var n := w.(procs := w.procs[p := At(i, Writes(row), rows)]); Next(w, RunnerEnds(p, row)) == Some(n) && Kept(n)
  {
    KeptStep(w, RunnerEnds(p, row));
  }

  lemma RowWritten(w: World, p: nat, i: nat, rows: seq<Row>, row: Row)
    requires Kept(w) && p < |w.procs| && w.procs[p] == At(i, Writes(row), rows)
    ensures i < |w.cells|
    ensures var n := w.(cells := w.cells[i := Finished(row)], procs := w.procs[p := At(i, Publishes(row), rows + [row])]);
      Next(w, WriteRow(p)) == Some(n) && Kept(n)
  {
    assert InRange(w, w.procs[p]);
    KeptStep(w, WriteRow(p));
  }

  lemma RowPublished(w: World, p: nat, i: nat, rows: seq<Row>, row: Row)
    requires Kept(w) && p < |w.procs| && w.procs[p] == At(i, Publishes(row), rows)
    ensures var n := w.(results := Some(rows), procs := w.procs[p := if row.usable then At(i + 1, Looks, rows) else Off]);
      Next(w, Publish(p)) == Some(n) && Kept(n)
  {
    KeptStep(w, Publish(p));
  }

  lemma CellMade(w: World, p: nat, i: nat, rows: seq<Row>)
    requires Kept(w) && p < |w.procs| && w.procs[p] == At(i, Makes, rows) && i < |w.cells| && w.cells[i] == Untouched
    ensures var n := w.(cells := w.cells[i := Begun], procs := w.procs[p := At(i, Starts, rows)]);
      Next(w, Make(p)) == Some(n) && Kept(n)
  {
    KeptStep(w, Make(p));
  }

  lemma RunnerStarted(w: World, p: nat, i: nat, rows: seq<Row>)
    requires Kept(w) && p < |w.procs| && w.procs[p] == At(i, Starts, rows) && i < |w.cells|
    ensures var n := w.(starts := w.starts[i := w.starts[i] + 1], procs := w.procs[p := At(i, Waits, rows)]);
      Next(w, StartRunner(p)) == Some(n) && Kept(n)
  {
    KeptStep(w, StartRunner(p));
  }

  lemma CellFound(w: World, p: nat, i: nat, rows: seq<Row>)
    requires Kept(w) && p < |w.procs| && w.procs[p] == At(i, Looks, rows) && i < |w.cells| && w.cells[i] == Untouched && !w.stop
    ensures var n := w.(procs := w.procs[p := At(i, Makes, rows)]); Next(w, Look(p)) == Some(n) && Kept(n)
  {
    KeptStep(w, Look(p));
  }

  // From the waiting for the runner on.
  lemma CellIsEnded(w: World, p: nat, i: nat, rows: seq<Row>, row: Row, procs: seq<Execution>)
    requires Kept(w) && p < |w.procs| && w.procs[p] == At(i, Waits, rows) && i < |w.cells|
    requires procs == w.procs[p := if row.usable then At(i + 1, Looks, rows + [row]) else Off]
    ensures Exec(w, [RunnerEnds(p, row), WriteRow(p), Publish(p)]) ==
      Some(World(w.cells[i := Finished(row)], w.starts, w.stop, Some(rows + [row]), procs))
  {
    RunnerEnded(w, p, i, rows, row);
    ExecStep(w, RunnerEnds(p, row), [WriteRow(p), Publish(p)]);
    var w1 := w.(procs := w.procs[p := At(i, Writes(row), rows)]);
    RowWritten(w1, p, i, rows, row);
    ExecStep(w1, WriteRow(p), [Publish(p)]);
    var w2 := w1.(cells := w1.cells[i := Finished(row)], procs := w1.procs[p := At(i, Publishes(row), rows + [row])]);
    RowPublished(w2, p, i, rows + [row], row);
    ExecStep(w2, Publish(p), []);
    assert w2.procs[p := procs[p]] == procs;
  }

  // Up to the waiting for the runner.
  lemma CellIsBegun(w: World, p: nat, i: nat, rows: seq<Row>, more: seq<Step>) returns (n: World)
    requires Kept(w) && p < |w.procs| && w.procs[p] == At(i, Looks, rows) && i < |w.cells| && w.cells[i] == Untouched && !w.stop
    ensures n == World(w.cells[i := Begun], w.starts[i := w.starts[i] + 1], false, w.results, w.procs[p := At(i, Waits, rows)])
    ensures Kept(n) && Exec(w, [Look(p)] + ([Make(p)] + ([StartRunner(p)] + more))) == Exec(n, more)
  {
    CellFound(w, p, i, rows);
    ExecStep(w, Look(p), [Make(p)] + ([StartRunner(p)] + more));
    var w1 := w.(procs := w.procs[p := At(i, Makes, rows)]);
    CellMade(w1, p, i, rows);
    ExecStep(w1, Make(p), [StartRunner(p)] + more);
    var w2 := w1.(cells := w1.cells[i := Begun], procs := w1.procs[p := At(i, Starts, rows)]);
    RunnerStarted(w2, p, i, rows);
    ExecStep(w2, StartRunner(p), more);
    n := w2.(starts := w2.starts[i := w2.starts[i] + 1], procs := w2.procs[p := At(i, Waits, rows)]);
    assert n.procs == w.procs[p := At(i, Waits, rows)];
  }

  /** At a cell without a directory, the stop file away: the cell is run, once, its row is written and the rows so far are
      published; and a row that is not usable ends the execution. */
  lemma CellIsRun(w: World, p: nat, i: nat, rows: seq<Row>, row: Row)
    requires Kept(w) && p < |w.procs| && w.procs[p] == At(i, Looks, rows) && i < |w.cells| && w.cells[i] == Untouched && !w.stop
    ensures Exec(w, [Look(p)] + ([Make(p)] + ([StartRunner(p)] + [RunnerEnds(p, row), WriteRow(p), Publish(p)]))) ==
      Some(World(w.cells[i := Finished(row)], w.starts[i := w.starts[i] + 1], false, Some(rows + [row]),
                 w.procs[p := if row.usable then At(i + 1, Looks, rows + [row]) else Off]))
  {
    var procs := w.procs[p := if row.usable then At(i + 1, Looks, rows + [row]) else Off];
    var n := CellIsBegun(w, p, i, rows, [RunnerEnds(p, row), WriteRow(p), Publish(p)]);
    assert n.procs[p := procs[p]] == procs && n.cells[i := Finished(row)] == w.cells[i := Finished(row)];
    CellIsEnded(n, p, i, rows, row, procs);
  }

  /** At any other place: at the end the rows are published and the execution is over; the stop file ends it; a finished
      cell gives its row; and a cell with a directory and no whole row ends it, touching nothing. */
  lemma OtherLooks(w: World, p: nat, i: nat, rows: seq<Row>)
    requires Kept(w) && p < |w.procs| && w.procs[p] == At(i, Looks, rows)
    ensures i == |w.cells| ==> Next(w, Look(p)) == Some(w.(procs := w.procs[p := Off], results := Some(rows)))
    ensures i < |w.cells| && w.stop ==> Next(w, Look(p)) == Some(w.(procs := w.procs[p := Off]))
    ensures i < |w.cells| && !w.stop && w.cells[i].Finished? ==>
      Next(w, Look(p)) == Some(w.(procs := w.procs[p := At(i + 1, Looks, rows + [w.cells[i].row])]))
    ensures i < |w.cells| && !w.stop && w.cells[i] in {Begun, Torn} ==> Next(w, Look(p)) == Some(w.(procs := w.procs[p := Off]))
  {
  }

  /** What comes from outside: an execution begins at the first cell with no row gathered; the stop file comes and goes;
      and a crash ends the execution wherever it is, leaving what is on disk but for a row that was being written, of
      which a part may stay. */
  lemma FromOutside(w: World, p: nat, on: bool, torn: bool)
    requires Kept(w) && p < |w.procs|
    ensures Next(w, Stop(on)) == Some(w.(stop := on))
    ensures Next(w, Begin(p)) == if w.procs[p] == Off then Some(w.(procs := w.procs[p := At(0, Looks, [])])) else None
    ensures w.procs[p] == Off ==> Next(w, Crash(p, torn)) == None
    ensures w.procs[p] != Off && !(torn && w.procs[p].phase.Writes?) ==> Next(w, Crash(p, torn)) == Some(w.(procs := w.procs[p := Off]))
    ensures w.procs[p] != Off && torn && w.procs[p].phase.Writes? ==>
      w.procs[p].i < |w.cells| && Next(w, Crash(p, torn)) == Some(w.(cells := w.cells[w.procs[p].i := Torn], procs := w.procs[p := Off]))
  {
    assert OwnerOk(w.cells, w.starts, w.procs[p]);
  }

  lemma FreshIsKept(n: nat, procs: nat)
    ensures Kept(World(seq(n, _ => Untouched), seq(n, _ => 0), false, None, seq(procs, _ => Off)))
  {
  }
}
