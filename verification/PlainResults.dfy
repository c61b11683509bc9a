/**
 Reading the plain output of a test run: which package owns each test result.

   Test       a result; its package is not on the line
   Package    ends an ordinary package and owns the results above it
   Shard      opens the output of one shard, and owns the results below it
   Summary    ends a sharded package and names its failures

 Two shapes are mixed in one output, and the reader keeps the results that still wait for their
 package line. The owner of a test line is also defined without the reader, from the boundary
 lines around it, and the main result is that the two agree whenever the reader has no fault to
 report.
 */
module PlainResults {
  import opened Wrappers

  datatype Action = Pass | Fail | Skip

  datatype Mark = Ok | Failed | NoTests

  /** A line of output, already recognized. The names of a failing summary are empty when the line gives
      none or says "unknown". */
  datatype Line =
    | Shard(package: string)
    | Summary(package: string, failing: bool, names: seq<string>)
    | Test(name: string, action: Action)
    | Package(package: string, mark: Mark)
    | Other

  /** A test result with its owner, and the number of the line it was read from. */
  datatype Owned = Owned(package: string, name: string, action: Action, line: nat)

  datatype Waiting = Waiting(name: string, action: Action, line: nat)

  datatype Fault = EndedByShard | NoSummary(package: string) | WrongSummary | Nameless | NeverEnded

  datatype State = State(tests: seq<Owned>, packages: seq<(string, Mark)>, faults: seq<Fault>, pending: seq<Waiting>, shard: Option<string>)

  const START := State([], [], [], [], None)

  function Give(package: string, ws: seq<Waiting>): seq<Owned> {
    seq(|ws|, i requires 0 <= i < |ws| => Owned(package, ws[i].name, ws[i].action, ws[i].line))
  }

  function Blame(package: string, names: seq<string>, line: nat): seq<Owned> {
    seq(|names|, i requires 0 <= i < |names| => Owned(package, names[i], Fail, line))
  }

  function OnShard(st: State, package: string): State {
    st.(faults := st.faults + (if st.pending != [] then [EndedByShard] else [])
          + (if st.shard.Some? && st.shard.value != package then [NoSummary(st.shard.value)] else []),
        pending := [], shard := Some(package))
  }

  function OnSummary(st: State, package: string, failing: bool, names: seq<string>, at: nat): State {
    st.(faults := st.faults + (if st.shard.Some? && st.shard.value != package then [WrongSummary] else [])
          + (if failing && names == [] then [Nameless] else []),
        packages := st.packages + [(package, if failing then Failed else Ok)],
        tests := st.tests + (if failing then Blame(package, names, at) else []),
        shard := None)
  }

  function OnTest(st: State, name: string, action: Action, at: nat): State {
    if st.shard.Some? then st.(tests := st.tests + [Owned(st.shard.value, name, action, at)])
    else st.(pending := st.pending + [Waiting(name, action, at)])
  }

  function OnPackage(st: State, package: string, mark: Mark): State {
    st.(faults := st.faults + (if st.shard.Some? then [NoSummary(st.shard.value)] else []),
        packages := st.packages + [(package, mark)],
        tests := st.tests + Give(package, st.pending), pending := [], shard := None)
  }

  function Read(st: State, l: Line, at: nat): State {
    match l
    case Shard(package) => OnShard(st, package)
    case Summary(package, failing, names) => OnSummary(st, package, failing, names, at)
    case Test(name, action) => OnTest(st, name, action, at)
    case Package(package, mark) => OnPackage(st, package, mark)
    case Other => st
  }

  function ReadAll(lines: seq<Line>): State {
    if lines == [] then START else Read(ReadAll(lines[..|lines| - 1]), lines[|lines| - 1], |lines| - 1)
  }

  function Close(st: State): seq<Fault> {
    st.faults + (if st.pending != [] then [NeverEnded] else []) + (if st.shard.Some? then [NoSummary(st.shard.value)] else [])
  }

  datatype Results = Results(tests: seq<Owned>, packages: seq<(string, Mark)>, faults: seq<Fault>)

  function ResultsOf(lines: seq<Line>): Results {
    var st := ReadAll(lines);
    Results(st.tests, st.packages, Close(st))
  }

  /** The reader, line by line. What it makes of the lines is told here from the boundary lines around each test line,
      not from the reading. */
  method PlainResults(lines: seq<Line>) returns (r: Results)
    ensures r == ResultsOf(lines)
    ensures forall j :: 0 <= j < |r.tests| ==> FromItsLine(lines, r.tests[j])
    ensures Rising(lines, r.tests)
    ensures r.faults == [] ==> forall i: nat :: i < |lines| && lines[i].Test? ==> exists j: nat :: Reported(r.tests, i, j)
    ensures forall i, name :: 0 <= i < |lines| && lines[i].Summary? && lines[i].failing && name in lines[i].names ==>
              Owned(lines[i].package, name, Fail, i) in r.tests
    ensures forall package, mark :: (package, mark) in r.packages <==>
              exists i :: 0 <= i < |lines| && Ends(lines[i], package, mark)
    ensures r.faults == [] <==> AllClean(lines) && Unsharded(lines, |lines|) && NoneWaits(lines, |lines|)
  {
    var st := START;
    for i := 0 to |lines|
      invariant st == ReadAll(lines[..i])
    {
      assert lines[..i + 1][..i] == lines[..i];
      match lines[i] {
        case Shard(package) =>
          var faults := st.faults;
          if st.pending != [] {
            faults := faults + [EndedByShard];
          }
          if st.shard.Some? && st.shard.value != package {
            faults := faults + [NoSummary(st.shard.value)];
          }
          st := st.(faults := faults, pending := [], shard := Some(package));
        case Summary(package, failing, names) =>
          st := OnSummary(st, package, failing, names, i);
        case Test(name, action) =>
          if st.shard.Some? {
            st := st.(tests := st.tests + [Owned(st.shard.value, name, action, i)]);
          } else {
            st := st.(pending := st.pending + [Waiting(name, action, i)]);
          }
        case Package(package, mark) =>
          st := OnPackage(st, package, mark);
        case Other =>
      }
    }
    assert lines[..|lines|] == lines;
    r := Results(st.tests, st.packages, Close(st));
    Told(lines);
  }

  // ---- who owns a test line, said without running the reader

  predicate Boundary(l: Line) { l.Shard? || l.Summary? || l.Package? }

  /** The last boundary before line n is the shard header at s. */
  predicate OpenAt(lines: seq<Line>, n: nat, s: nat) {
    s < n <= |lines| && lines[s].Shard? && forall m :: s < m < n ==> !Boundary(lines[m])
  }

  ghost predicate Unsharded(lines: seq<Line>, n: nat) {
    n <= |lines| && forall s: nat :: !OpenAt(lines, n, s)
  }

  /** The first package line after line i is k, and no shard header comes between. */
  predicate EndedAt(lines: seq<Line>, i: nat, k: nat) {
    i < k < |lines| && lines[k].Package? && forall m :: i < m < k ==> !lines[m].Shard? && !lines[m].Package?
  }

  /** A test line belongs to the shard whose header is open above it, or else to the package line below. */
  ghost predicate Belongs(lines: seq<Line>, i: nat, package: string) {
    || (exists s: nat :: OpenAt(lines, i, s) && lines[s].package == package)
    || (Unsharded(lines, i) && exists k: nat :: EndedAt(lines, i, k) && lines[k].package == package)
  }

  lemma OwnerIsUnique(lines: seq<Line>, i: nat, p: string, q: string)
    requires Belongs(lines, i, p) && Belongs(lines, i, q)
    ensures p == q
  {
  }

  /** What is known of one result: it was read from its own line, and given to that line's owner. */
  ghost predicate FromItsLine(lines: seq<Line>, o: Owned) {
    && o.line < |lines|
    && (lines[o.line].Test? ==> (
      lines[o.line] == Test(o.name, o.action) && Belongs(lines, o.line, o.package)))
    && (lines[o.line].Summary? ==> (
      lines[o.line].failing && lines[o.line].package == o.package && o.name in lines[o.line].names && o.action == Fail))
    && (lines[o.line].Test? || lines[o.line].Summary?)
  }

  ghost predicate StillWaiting(lines: seq<Line>, w: Waiting) {
    && w.line < |lines| && lines[w.line] == Test(w.name, w.action) && Unsharded(lines, w.line)
    && forall m :: w.line < m < |lines| ==> !lines[m].Shard? && !lines[m].Package?
  }

  predicate Reported(tests: seq<Owned>, i: nat, j: nat) { j < |tests| && tests[j].line == i }

  predicate Held(pending: seq<Waiting>, i: nat, j: nat) { j < |pending| && pending[j].line == i }

  ghost predicate Accounted(st: State, i: nat) {
    (exists j: nat :: Reported(st.tests, i, j)) || (exists j: nat :: Held(st.pending, i, j))
  }

  predicate Once(tests: seq<Owned>, lines: seq<Line>) {
    forall j, k :: 0 <= j < k < |tests| && tests[j].line == tests[k].line && tests[j].line < |lines|
      ==> lines[tests[j].line].Summary?
  }

  predicate Apart(st: State) {
    && (forall j, k :: 0 <= j < k < |st.pending| ==> st.pending[j].line != st.pending[k].line)
    && (forall j, k :: 0 <= j < |st.tests| && 0 <= k < |st.pending| ==> st.tests[j].line != st.pending[k].line)
  }

  ghost predicate ShardKnown(lines: seq<Line>, shard: Option<string>) {
    if shard.None? then Unsharded(lines, |lines|)
    else exists s: nat :: OpenAt(lines, |lines|, s) && lines[s].package == shard.value
  }

  ghost predicate Reads(lines: seq<Line>, st: State) {
    && ShardKnown(lines, st.shard)
    && (forall j :: 0 <= j < |st.tests| ==> FromItsLine(lines, st.tests[j]))
    && (forall j :: 0 <= j < |st.pending| ==> StillWaiting(lines, st.pending[j]))
    && Once(st.tests, lines) && Apart(st)
    && (st.faults == [] ==> forall i: nat :: i < |lines| && lines[i].Test? ==> Accounted(st, i))
  }

  // ---- one more line

  lemma StillBelongs(lines: seq<Line>, l: Line, i: nat, p: string)
    requires i < |lines| && Belongs(lines, i, p)
    ensures Belongs(lines + [l], i, p)
  {
    var more := lines + [l];
    if s: nat :| OpenAt(lines, i, s) && lines[s].package == p {
      assert OpenAt(more, i, s);
    } else {
      var k: nat :| EndedAt(lines, i, k) && lines[k].package == p;
      assert EndedAt(more, i, k);
      StillUnsharded(lines, l, i);
    }
  }

  lemma SameOpening(lines: seq<Line>, l: Line, i: nat, s: nat)
    requires i <= |lines|
    ensures OpenAt(lines, i, s) <==> OpenAt(lines + [l], i, s)
  {
    var more := lines + [l];
    assert forall m :: 0 <= m < i ==> more[m] == lines[m];
    if OpenAt(more, i, s) {
      forall m | s < m < i ensures !Boundary(lines[m]) {
        assert !Boundary(more[m]);
      }
    }
  }

  lemma SameOpeningPast(lines: seq<Line>, l: Line, s: nat)
    requires !Boundary(l)
    ensures OpenAt(lines, |lines|, s) <==> OpenAt(lines + [l], |lines| + 1, s)
  {
    var more := lines + [l];
    assert forall m :: 0 <= m < |lines| ==> more[m] == lines[m];
    if OpenAt(more, |more|, s) {
      forall m | s < m < |lines| ensures !Boundary(lines[m]) {
        assert !Boundary(more[m]);
      }
    }
  }

  lemma StillUnsharded(lines: seq<Line>, l: Line, i: nat)
    requires i <= |lines|
    ensures Unsharded(lines, i) <==> Unsharded(lines + [l], i)
  {
    forall s: nat ensures OpenAt(lines, i, s) <==> OpenAt(lines + [l], i, s) {
      SameOpening(lines, l, i, s);
    }
  }

  lemma StillFromItsLine(lines: seq<Line>, l: Line, o: Owned)
    requires FromItsLine(lines, o)
    ensures FromItsLine(lines + [l], o)
  {
    if lines[o.line].Test? {
      StillBelongs(lines, l, o.line, o.package);
    }
  }

  lemma AllStillFromTheirLines(lines: seq<Line>, l: Line, tests: seq<Owned>)
    requires forall j :: 0 <= j < |tests| ==> FromItsLine(lines, tests[j])
    ensures forall j :: 0 <= j < |tests| ==> FromItsLine(lines + [l], tests[j])
  {
    forall j | 0 <= j < |tests| ensures FromItsLine(lines + [l], tests[j]) {
      StillFromItsLine(lines, l, tests[j]);
    }
  }

  lemma ShardStep(lines: seq<Line>, l: Line, shard: Option<string>)
    requires ShardKnown(lines, shard)
    ensures ShardKnown(lines + [l], if l.Shard? then Some(l.package) else if Boundary(l) then None else shard)
  {
    var more := lines + [l];
    if l.Shard? {
      assert OpenAt(more, |more|, |lines|);
    } else if Boundary(l) {
      assert Boundary(more[|lines|]);
    } else {
      forall s: nat ensures OpenAt(lines, |lines|, s) <==> OpenAt(more, |more|, s) {
        SameOpeningPast(lines, l, s);
      }
    }
  }

  lemma WaitingStep(lines: seq<Line>, l: Line, pending: seq<Waiting>)
    requires forall j :: 0 <= j < |pending| ==> StillWaiting(lines, pending[j])
    requires !l.Shard? && !l.Package?
    ensures forall j :: 0 <= j < |pending| ==> StillWaiting(lines + [l], pending[j])
  {
    forall j | 0 <= j < |pending| ensures StillWaiting(lines + [l], pending[j]) {
      StillUnsharded(lines, l, pending[j].line);
    }
  }

  /** What carries over when results and waiting lines only grow at the end. */
  lemma AccountedStep(st: State, v: State, i: nat)
    requires Accounted(st, i) && st.tests <= v.tests && st.pending <= v.pending
    ensures Accounted(v, i)
  {
    if j: nat :| Reported(st.tests, i, j) {
      assert Reported(v.tests, i, j);
    } else {
      var j: nat :| Held(st.pending, i, j);
      assert Held(v.pending, i, j);
    }
  }

  lemma ReadShard(lines: seq<Line>, st: State, package: string)
    requires Reads(lines, st)
    ensures Reads(lines + [Shard(package)], OnShard(st, package))
  {
    var l := Shard(package);
    ShardStep(lines, l, st.shard);
    AllStillFromTheirLines(lines, l, st.tests);
    var v := OnShard(st, package);
    if v.faults == [] {
      assert st.faults == [] && st.pending == [];
    }
  }

  lemma ReadSummary(lines: seq<Line>, st: State, package: string, failing: bool, names: seq<string>)
    requires Reads(lines, st)
    ensures Reads(lines + [Summary(package, failing, names)], OnSummary(st, package, failing, names, |lines|))
  {
    var l := Summary(package, failing, names);
    var more := lines + [l];
    ShardStep(lines, l, st.shard);
    AllStillFromTheirLines(lines, l, st.tests);
    WaitingStep(lines, l, st.pending);
    var v := OnSummary(st, package, failing, names, |lines|);
    if v.faults == [] {
      assert st.faults == [];
      forall i: nat | i < |more| && more[i].Test? ensures Accounted(v, i) {
        AccountedStep(st, v, i);
      }
    }
  }

  lemma ReadShardedTest(lines: seq<Line>, st: State, name: string, action: Action)
    requires Reads(lines, st) && st.shard.Some?
    ensures Reads(lines + [Test(name, action)], OnTest(st, name, action, |lines|))
  {
    var l := Test(name, action);
    var more := lines + [l];
    ShardStep(lines, l, st.shard);
    AllStillFromTheirLines(lines, l, st.tests);
    WaitingStep(lines, l, st.pending);
    var v := OnTest(st, name, action, |lines|);
    assert FromItsLine(more, v.tests[|st.tests|]) by {
      var s: nat :| OpenAt(lines, |lines|, s) && lines[s].package == st.shard.value;
      SameOpening(lines, l, |lines|, s);
    }
    AccountedAfterTest(lines, st, name, action);
  }

  lemma ReadPlainTest(lines: seq<Line>, st: State, name: string, action: Action)
    requires Reads(lines, st) && st.shard.None?
    ensures Reads(lines + [Test(name, action)], OnTest(st, name, action, |lines|))
  {
    var l := Test(name, action);
    ShardStep(lines, l, st.shard);
    AllStillFromTheirLines(lines, l, st.tests);
    WaitingStep(lines, l, st.pending);
    StillUnsharded(lines, l, |lines|);
    AccountedAfterTest(lines, st, name, action);
  }

  lemma AccountedAfterTest(lines: seq<Line>, st: State, name: string, action: Action)
    requires st.faults == [] ==> forall i: nat :: i < |lines| && lines[i].Test? ==> Accounted(st, i)
    ensures var v := OnTest(st, name, action, |lines|);
      v.faults == [] ==> forall i: nat :: i <= |lines| && (lines + [Test(name, action)])[i].Test? ==> Accounted(v, i)
  {
    var v := OnTest(st, name, action, |lines|);
    assert Accounted(v, |lines|) by {
      if st.shard.Some? {
        assert Reported(v.tests, |lines|, |st.tests|);
      } else {
        assert Held(v.pending, |lines|, |st.pending|);
      }
    }
    if v.faults == [] {
      forall i: nat | i < |lines| && lines[i].Test? ensures Accounted(v, i) {
        AccountedStep(st, v, i);
      }
    }
  }

  lemma Given(lines: seq<Line>, package: string, mark: Mark, pending: seq<Waiting>)
    requires forall j :: 0 <= j < |pending| ==> StillWaiting(lines, pending[j])
    ensures forall j :: 0 <= j < |pending| ==> FromItsLine(lines + [Package(package, mark)], Give(package, pending)[j])
  {
    var l := Package(package, mark);
    var more := lines + [l];
    forall j | 0 <= j < |pending| ensures FromItsLine(more, Give(package, pending)[j]) {
      var i := pending[j].line;
      StillUnsharded(lines, l, i);
      assert EndedAt(more, i, |lines|);
    }
  }

  lemma GivenAreAccounted(st: State, package: string, mark: Mark, i: nat)
    requires Accounted(st, i)
    ensures Accounted(OnPackage(st, package, mark), i)
  {
    var v := OnPackage(st, package, mark);
    if j: nat :| Reported(st.tests, i, j) {
      assert Reported(v.tests, i, j);
    } else {
      var j: nat :| Held(st.pending, i, j);
      assert Reported(v.tests, i, |st.tests| + j);
    }
  }

  lemma ReadPackage(lines: seq<Line>, st: State, package: string, mark: Mark)
    requires Reads(lines, st)
    ensures Reads(lines + [Package(package, mark)], OnPackage(st, package, mark))
  {
    var l := Package(package, mark);
    ShardStep(lines, l, st.shard);
    AllStillFromTheirLines(lines, l, st.tests);
    Given(lines, package, mark, st.pending);
    var v := OnPackage(st, package, mark);
    if v.faults == [] {
      assert st.faults == [];
      forall i: nat | i < |lines| && lines[i].Test? ensures Accounted(v, i) {
        GivenAreAccounted(st, package, mark, i);
      }
    }
  }

  lemma ReadOther(lines: seq<Line>, st: State)
    requires Reads(lines, st)
    ensures Reads(lines + [Other], st)
  {
    ShardStep(lines, Other, st.shard);
    AllStillFromTheirLines(lines, Other, st.tests);
    WaitingStep(lines, Other, st.pending);
  }

  lemma {:induction false} ReaderKeepsAccount(lines: seq<Line>)
    ensures Reads(lines, ReadAll(lines))
  {
    if lines != [] {
      var front, l := lines[..|lines| - 1], lines[|lines| - 1];
      ReaderKeepsAccount(front);
      assert lines == front + [l];
      match l
      case Shard(package) => ReadShard(front, ReadAll(front), package);
      case Summary(package, failing, names) => ReadSummary(front, ReadAll(front), package, failing, names);
      case Test(name, action) =>
        if ReadAll(front).shard.Some? {
          ReadShardedTest(front, ReadAll(front), name, action);
        } else {
          ReadPlainTest(front, ReadAll(front), name, action);
        }
      case Package(package, mark) => ReadPackage(front, ReadAll(front), package, mark);
      case Other => ReadOther(front, ReadAll(front));
    }
  }

  /** When the reader reports no fault, each test line became exactly one result, under the package that
      owns the line; and every result that is not a test line comes from a failing shard summary. */
  lemma EveryTestLineHasOneOwner(lines: seq<Line>)
    ensures var r := ResultsOf(lines);
      && (forall j :: 0 <= j < |r.tests| ==> FromItsLine(lines, r.tests[j]))
      && Once(r.tests, lines)
      && (r.faults == [] ==> forall i: nat :: i < |lines| && lines[i].Test? ==> exists j: nat :: Reported(r.tests, i, j))
  {
    ReaderKeepsAccount(lines);
    var st := ReadAll(lines);
    if Close(st) == [] {
      assert st.faults == [] && |st.pending| == 0;
      forall i: nat | i < |lines| && lines[i].Test? ensures exists j: nat :: Reported(st.tests, i, j) {
        assert Accounted(st, i);
      }
    }
  }

  // ---- the packages, the named failures and the order, told from the lines

  /** The line ends a package, with this mark. */
  predicate Ends(l: Line, package: string, mark: Mark) {
    || l == Package(package, mark)
    || (l.Summary? && l.package == package && mark == if l.failing then Failed else Ok)
  }

  lemma EndsLine(l: Line, st: State, at: nat, package: string, mark: Mark)
    ensures (package, mark) in Read(st, l, at).packages <==> (package, mark) in st.packages || Ends(l, package, mark)
  {
  }

  /** The packages of the result are those some line ends, each with the mark of that line. */
  lemma {:induction false} PackagesAreEnded(lines: seq<Line>)
    ensures forall package, mark :: (package, mark) in ReadAll(lines).packages <==>
              exists i :: 0 <= i < |lines| && Ends(lines[i], package, mark)
  {
    if lines != [] {
      var n := |lines| - 1;
      var front := lines[..n];
      PackagesAreEnded(front);
      forall package, mark
        ensures (package, mark) in ReadAll(lines).packages <==> exists i :: 0 <= i < |lines| && Ends(lines[i], package, mark)
      {
        EndsLine(lines[n], ReadAll(front), n, package, mark);
        if i :| 0 <= i < |front| && Ends(front[i], package, mark) {
          assert Ends(lines[i], package, mark);
        }
        if i :| 0 <= i < |lines| && Ends(lines[i], package, mark) {
          assert i < n ==> Ends(front[i], package, mark);
        }
      }
    }
  }

  lemma ReadGrows(st: State, l: Line, at: nat)
    ensures st.tests <= Read(st, l, at).tests
  {
  }

  lemma {:induction false} Grows(lines: seq<Line>, i: nat)
    requires i < |lines|
    ensures ReadAll(lines[..i + 1]).tests <= ReadAll(lines).tests
    decreases |lines|
  {
    var n := |lines| - 1;
    if i < n {
      assert lines[..n][..i + 1] == lines[..i + 1];
      Grows(lines[..n], i);
      ReadGrows(ReadAll(lines[..n]), lines[n], n);
    } else {
      assert lines[..i + 1] == lines;
    }
  }

  /** Each name of a failing summary is a failure of its package. */
  lemma NamesAreFailures(lines: seq<Line>, i: nat, name: string)
    requires i < |lines| && lines[i].Summary? && lines[i].failing && name in lines[i].names
    ensures Owned(lines[i].package, name, Fail, i) in ReadAll(lines).tests
  {
    var st, l := ReadAll(lines[..i]), lines[i];
    assert lines[..i + 1][..i] == lines[..i];
    var j :| 0 <= j < |l.names| && l.names[j] == name;
    var after := ReadAll(lines[..i + 1]);
    assert after == OnSummary(st, l.package, l.failing, l.names, i);
    assert after.tests[|st.tests| + j] == Owned(l.package, name, Fail, i);
    Grows(lines, i);
    assert ReadAll(lines).tests[|st.tests| + j] == Owned(l.package, name, Fail, i);
  }

  // ---- the order of the results of test lines

  predicate FromTest(lines: seq<Line>, o: Owned) { o.line < |lines| && lines[o.line].Test? }

  predicate Rising(lines: seq<Line>, tests: seq<Owned>) {
    forall j, k :: 0 <= j < k < |tests| && FromTest(lines, tests[j]) && FromTest(lines, tests[k]) ==> tests[j].line < tests[k].line
  }

  predicate Ordered(lines: seq<Line>, st: State) {
    && Rising(lines, st.tests)
    && (forall j :: 0 <= j < |st.tests| ==> st.tests[j].line < |lines|)
    && (forall j :: 0 <= j < |st.pending| ==> st.pending[j].line < |lines|)
    && (forall j, k :: 0 <= j < k < |st.pending| ==> st.pending[j].line < st.pending[k].line)
    && (forall j, k :: 0 <= j < |st.tests| && 0 <= k < |st.pending| && FromTest(lines, st.tests[j])
          ==> st.tests[j].line < st.pending[k].line)
    && (st.shard.Some? ==> st.pending == [])
  }

  lemma SameTests(lines: seq<Line>, l: Line, st: State)
    requires Ordered(lines, st)
    ensures Ordered(lines + [l], st)
  {
    assert forall o: Owned :: o.line < |lines| ==> FromTest(lines + [l], o) == FromTest(lines, o);
  }

  lemma OrderedSummary(lines: seq<Line>, l: Line, st: State)
    requires Ordered(lines, st) && l.Summary?
    ensures Ordered(lines + [l], OnSummary(st, l.package, l.failing, l.names, |lines|))
  {
    SameTests(lines, l, st);
    var v := OnSummary(st, l.package, l.failing, l.names, |lines|);
    assert forall j :: |st.tests| <= j < |v.tests| ==> v.tests[j].line == |lines|;
    assert (lines + [l])[|lines|] == l;
  }

  lemma OrderedPackage(lines: seq<Line>, l: Line, st: State)
    requires Ordered(lines, st) && l.Package?
    ensures Ordered(lines + [l], OnPackage(st, l.package, l.mark))
  {
    SameTests(lines, l, st);
    var v := OnPackage(st, l.package, l.mark);
    assert forall j :: |st.tests| <= j < |v.tests| ==> v.tests[j].line == st.pending[j - |st.tests|].line;
  }

  lemma OrderedTest(lines: seq<Line>, l: Line, st: State)
    requires Ordered(lines, st) && l.Test?
    ensures Ordered(lines + [l], OnTest(st, l.name, l.action, |lines|))
  {
    SameTests(lines, l, st);
  }

  lemma OrderedStep(lines: seq<Line>, l: Line, st: State)
    requires Ordered(lines, st)
    ensures Ordered(lines + [l], Read(st, l, |lines|))
  {
    match l
    case Shard(_) => SameTests(lines, l, st);
    case Summary(_, _, _) => OrderedSummary(lines, l, st);
    case Test(_, _) => OrderedTest(lines, l, st);
    case Package(_, _) => OrderedPackage(lines, l, st);
    case Other => SameTests(lines, l, st);
  }

  /** The results of test lines stand in the order of those lines, each once. */
  lemma {:induction false} TestsStandInOrder(lines: seq<Line>)
    ensures Ordered(lines, ReadAll(lines))
    ensures Rising(lines, ResultsOf(lines).tests)
  {
    if lines != [] {
      var front, l := lines[..|lines| - 1], lines[|lines| - 1];
      TestsStandInOrder(front);
      assert lines == front + [l];
      OrderedStep(front, l, ReadAll(front));
    }
  }

  // ---- when there is no fault, told from the lines

  /** The test result of line m still waits for its package line when line n is read. */
  ghost predicate Waits(lines: seq<Line>, n: nat, m: nat) {
    m < n <= |lines| && lines[m].Test? && Unsharded(lines, m) && forall k :: m < k < n ==> !lines[k].Shard? && !lines[k].Package?
  }

  ghost predicate NoneWaits(lines: seq<Line>, n: nat) { forall m: nat :: !Waits(lines, n, m) }

  ghost predicate OpenIsOf(lines: seq<Line>, n: nat, package: string) {
    forall s: nat :: OpenAt(lines, n, s) ==> lines[s].package == package
  }

  /** A shard opens when nothing waits and no other package is open; a summary ends its own package and says who
      failed; an ordinary package ends outside every shard. */
  ghost predicate CleanAt(lines: seq<Line>, i: nat)
    requires i < |lines|
  {
    match lines[i]
    case Shard(package) => NoneWaits(lines, i) && OpenIsOf(lines, i, package)
    case Summary(package, failing, names) => OpenIsOf(lines, i, package) && (failing ==> names != [])
    case Package(_, _) => Unsharded(lines, i)
    case _ => true
  }

  ghost predicate AllClean(lines: seq<Line>) { forall i: nat :: i < |lines| ==> CleanAt(lines, i) }

  lemma WaitsBefore(lines: seq<Line>, l: Line, n: nat, m: nat)
    requires n <= |lines|
    ensures Waits(lines + [l], n, m) <==> Waits(lines, n, m)
  {
    if m < n {
      StillUnsharded(lines, l, m);
      assert forall k :: 0 <= k < n ==> (lines + [l])[k] == lines[k];
    }
  }

  lemma CleanStays(lines: seq<Line>, l: Line, i: nat)
    requires i < |lines|
    ensures CleanAt(lines + [l], i) <==> CleanAt(lines, i)
  {
    forall m: nat ensures Waits(lines + [l], i, m) <==> Waits(lines, i, m) {
      WaitsBefore(lines, l, i, m);
    }
    forall s: nat ensures OpenAt(lines, i, s) <==> OpenAt(lines + [l], i, s) {
      SameOpening(lines, l, i, s);
    }
  }

  lemma AllCleanStep(lines: seq<Line>, l: Line)
    ensures AllClean(lines + [l]) <==> AllClean(lines) && CleanAt(lines + [l], |lines|)
  {
    forall i: nat | i < |lines| ensures CleanAt(lines + [l], i) <==> CleanAt(lines, i) {
      CleanStays(lines, l, i);
    }
  }

  // What the reader holds open and waiting, against the lines.
  ghost predicate Knows(lines: seq<Line>, st: State) {
    ShardKnown(lines, st.shard) && (st.pending == [] <==> NoneWaits(lines, |lines|))
  }

  lemma OpenIsKnown(lines: seq<Line>, shard: Option<string>, package: string)
    requires ShardKnown(lines, shard)
    ensures OpenIsOf(lines, |lines|, package) <==> shard.None? || shard.value == package
    ensures Unsharded(lines, |lines|) <==> shard.None?
  {
    if shard.Some? {
      var s: nat :| OpenAt(lines, |lines|, s) && lines[s].package == shard.value;
    }
  }

  lemma OpenIsOfBefore(lines: seq<Line>, l: Line, package: string)
    ensures OpenIsOf(lines + [l], |lines|, package) <==> OpenIsOf(lines, |lines|, package)
    ensures Unsharded(lines + [l], |lines|) <==> Unsharded(lines, |lines|)
    ensures NoneWaits(lines + [l], |lines|) <==> NoneWaits(lines, |lines|)
  {
    forall s: nat ensures OpenAt(lines, |lines|, s) <==> OpenAt(lines + [l], |lines|, s) {
      SameOpening(lines, l, |lines|, s);
    }
    forall m: nat ensures Waits(lines + [l], |lines|, m) <==> Waits(lines, |lines|, m) {
      WaitsBefore(lines, l, |lines|, m);
    }
  }

  /** One more line leaves the faults as they are exactly when it is clean where it stands. */
  lemma FaultStep(lines: seq<Line>, st: State, l: Line)
    requires Knows(lines, st)
    ensures Read(st, l, |lines|).faults == [] <==> st.faults == [] && CleanAt(lines + [l], |lines|)
  {
    var package := if l.Shard? || l.Summary? then l.package else "";
    OpenIsKnown(lines, st.shard, package);
    OpenIsOfBefore(lines, l, package);
  }

  lemma WaitsAfter(lines: seq<Line>, l: Line, m: nat)
    ensures Waits(lines + [l], |lines| + 1, m) <==>
      if m == |lines| then l.Test? && Unsharded(lines, |lines|) else Waits(lines, |lines|, m) && !l.Shard? && !l.Package?
  {
    var more := lines + [l];
    if m <= |lines| {
      StillUnsharded(lines, l, m);
      assert forall k :: 0 <= k < |lines| ==> more[k] == lines[k];
      assert more[|lines|] == l;
    }
  }

  lemma KnowsStep(lines: seq<Line>, st: State, l: Line)
    requires Knows(lines, st)
    ensures Knows(lines + [l], Read(st, l, |lines|))
  {
    ShardStep(lines, l, st.shard);
    OpenIsKnown(lines, st.shard, "");
    NoneWaitsStep(lines, l);
  }

  lemma NoneWaitsStep(lines: seq<Line>, l: Line)
    ensures NoneWaits(lines + [l], |lines| + 1) <==>
      (l.Test? ==> !Unsharded(lines, |lines|)) && (l.Shard? || l.Package? || NoneWaits(lines, |lines|))
  {
    if NoneWaits(lines + [l], |lines| + 1) {
      WaitsAfter(lines, l, |lines|);
      assert !Waits(lines + [l], |lines| + 1, |lines|);
      if !l.Shard? && !l.Package? {
        forall m: nat ensures !Waits(lines, |lines|, m) {
          WaitsAfter(lines, l, m);
          assert !Waits(lines + [l], |lines| + 1, m);
        }
      }
    } else {
      var m: nat :| Waits(lines + [l], |lines| + 1, m);
      WaitsAfter(lines, l, m);
    }
  }

  lemma {:induction false} ReaderKnows(lines: seq<Line>)
    ensures Knows(lines, ReadAll(lines))
    ensures ReadAll(lines).faults == [] <==> AllClean(lines)
  {
    if lines != [] {
      var front, l := lines[..|lines| - 1], lines[|lines| - 1];
      ReaderKnows(front);
      assert lines == front + [l];
      KnowsStep(front, ReadAll(front), l);
      FaultStep(front, ReadAll(front), l);
      AllCleanStep(front, l);
    }
  }

  /** The reader reports no fault exactly when every boundary is clean where it stands and nothing is left open or
      waiting at the end. */
  lemma FaultlessExactlyWhenClean(lines: seq<Line>)
    ensures ResultsOf(lines).faults == [] <==>
      AllClean(lines) && Unsharded(lines, |lines|) && NoneWaits(lines, |lines|)
  {
    ReaderKnows(lines);
    OpenIsKnown(lines, ReadAll(lines).shard, "");
  }

  // All that is told of the results, in one place.
  lemma Told(lines: seq<Line>)
    ensures var r := ResultsOf(lines);
      && (forall j :: 0 <= j < |r.tests| ==> FromItsLine(lines, r.tests[j]))
      && Rising(lines, r.tests)
      && (r.faults == [] ==> forall i: nat :: i < |lines| && lines[i].Test? ==> exists j: nat :: Reported(r.tests, i, j))
      && (forall i, name :: 0 <= i < |lines| && lines[i].Summary? && lines[i].failing && name in lines[i].names ==>
            Owned(lines[i].package, name, Fail, i) in r.tests)
      && (forall package, mark :: (package, mark) in r.packages <==>
            exists i :: 0 <= i < |lines| && Ends(lines[i], package, mark))
      && (r.faults == [] <==> AllClean(lines) && Unsharded(lines, |lines|) && NoneWaits(lines, |lines|))
  {
    EveryTestLineHasOneOwner(lines);
    TestsStandInOrder(lines);
    PackagesAreEnded(lines);
    FaultlessExactlyWhenClean(lines);
    forall i, name | 0 <= i < |lines| && lines[i].Summary? && lines[i].failing && name in lines[i].names
      ensures Owned(lines[i].package, name, Fail, i) in ResultsOf(lines).tests
    {
      NamesAreFailures(lines, i, name);
    }
  }
}
