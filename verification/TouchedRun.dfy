/** The verdict on the touched packages: one run, then a bounded number of probes. */
module TouchedRun {
  import opened PlainResults
  import opened Failures
  import opened Wrappers

  const FAILURE_CAP := 5

  /** The first run; NotStarted is a command that could not be started. */
  datatype First = NotStarted | Started(printed: Option<nat>, results: Results, status: int)

  datatype Checkout = NoDirectory | Unstartable | Refused | Added

  /** How taking the base checkout down again goes. */
  datatype Removal = Gone | Stuck | Interrupted

  /** Everything the outside world will answer: each case probed at head and on the base. */
  datatype Answers = Answers(head: Case -> Probe, base: Case -> Probe, checkout: Checkout, removal: Removal)

  datatype Verdict = Flaky | NoRetry(probe: Probe) | OnBase | Introduced | IntroducedNoBase | Inconclusive | OverCap

  datatype Row = Row(test: Case, verdict: Verdict)

  datatype Outcome = Outcome(green: bool, rows: seq<Row>, written: bool, heads: nat, bases: nat, checkouts: nat)

  function VerdictOf(head: Probe, base: Probe): Verdict {
    match head
    case Passes => Flaky
    case FailsAgain => (
      match base
      case FailsAgain => OnBase
      case Passes => Introduced
      case Absent(skipped) => if skipped then Inconclusive else IntroducedNoBase
      case _ => Inconclusive)
    case _ => NoRetry(head)
  }

  /** A failure the change is not blamed for: it does not repeat, or the base has it too. */
  predicate Excused(a: Answers, c: Case) {
    a.head(c) == Passes || (a.head(c) == FailsAgain && a.base(c) == FailsAgain)
  }

  predicate AllExcused(a: Answers, cs: seq<Case>) { forall k :: 0 <= k < |cs| ==> Excused(a, cs[k]) }

  predicate NeedsBase(a: Answers, cs: seq<Case>) { exists k :: 0 <= k < |cs| && a.head(cs[k]) == FailsAgain }

  predicate RowsFor(a: Answers, cs: seq<Case>, rows: seq<Row>) {
    && |rows| <= |cs|
    && forall k :: 0 <= k < |rows| ==> rows[k] == Row(cs[k], VerdictOf(a.head(cs[k]), a.base(cs[k])))
  }

  /** What cuts the probing short after n rows. */
  predicate CutShort(a: Answers, cs: seq<Case>, n: nat) {
    && n < |cs|
    && ((n > 0 && a.head(cs[n - 1]) == Broken)
      || a.head(cs[n]) == Crash
      || (a.head(cs[n]) == FailsAgain && (a.checkout != Added || a.base(cs[n]) == Crash)))
  }

  /** What the first n leaves answered when each has its row: nothing that ends the probing, but for a broken retry of
      the last of them. */
  predicate Listed(a: Answers, cs: seq<Case>, n: nat) {
    && n <= |cs|
    && forall k :: 0 <= k < n ==>
         && a.head(cs[k]) != Crash
         && (a.head(cs[k]) == Broken ==> k == n - 1)
         && (a.head(cs[k]) == FailsAgain ==> a.checkout == Added && a.base(cs[k]) != Crash)
  }

  datatype Probed = Probed(green: bool, rows: seq<Row>, made: bool, heads: nat, bases: nat, checkouts: nat)

  predicate Within(p: Probed, n: nat) {
    p.bases <= p.heads <= n && p.checkouts <= 1 && (p.checkouts == 0 ==> p.bases == 0) && (p.made ==> p.checkouts == 1)
  }

  /** The state after a stretch of complete rows. */
  predicate SoFar(a: Answers, cs: seq<Case>, i: nat, p: Probed) {
    && i <= |cs| && |p.rows| == i && RowsFor(a, cs, p.rows) && Within(p, i) && p.heads == i
    && (p.green <==> AllExcused(a, cs[..i]))
    && (p.made <==> NeedsBase(a, cs[..i]))
    && (p.made ==> a.checkout == Added)
    && (p.checkouts == 1 ==> p.made)
  }

  /** The loop over the failing leaves. Each row is told here by its own two probes. */
  method ProbeAll(cs: seq<Case>, a: Answers) returns (p: Probed)
    ensures RowsFor(a, cs, p.rows) && Within(p, |cs|)
    ensures |p.rows| <= |cs|
    ensures forall k :: 0 <= k < |p.rows| ==>
              p.rows[k].test == cs[k]
    ensures forall k :: 0 <= k < |p.rows| ==>
              (p.rows[k].verdict == Flaky <==> a.head(cs[k]) == Passes)
    ensures forall k :: 0 <= k < |p.rows| ==>
              (p.rows[k].verdict == OnBase <==> a.head(cs[k]) == FailsAgain && a.base(cs[k]) == FailsAgain)
    ensures forall k :: 0 <= k < |p.rows| ==>
              (p.rows[k].verdict == Introduced <==> a.head(cs[k]) == FailsAgain && a.base(cs[k]) == Passes)
    ensures forall k :: 0 <= k < |p.rows| ==>
              (p.rows[k].verdict == IntroducedNoBase <==> a.head(cs[k]) == FailsAgain && a.base(cs[k]) == Absent(false))
    ensures forall k :: 0 <= k < |p.rows| ==>
              (p.rows[k].verdict == Inconclusive <==>
               a.head(cs[k]) == FailsAgain && a.base(cs[k]) in {Absent(true), Broken, Crash})
    ensures forall k, probe :: 0 <= k < |p.rows| ==>
              (p.rows[k].verdict == NoRetry(probe) <==> a.head(cs[k]) == probe && probe !in {Passes, FailsAgain})
    ensures p.green <==> AllExcused(a, cs) && (NeedsBase(a, cs) ==> a.checkout == Added)
    ensures p.green ==> |p.rows| == |cs| && (p.made <==> NeedsBase(a, cs))
    ensures Listed(a, cs, |p.rows|)
    ensures |p.rows| < |cs| ==> CutShort(a, cs, |p.rows|)
    ensures p.heads == if |p.rows| == |cs| || (|p.rows| > 0 && a.head(cs[|p.rows| - 1]) == Broken) then |p.rows| else |p.rows| + 1
    ensures p.checkouts == if a.checkout != NoDirectory && NeedsBase(a, cs[..p.heads]) then 1 else 0
  {
    p := Probed(true, [], false, 0, 0, 0);
    for i := 0 to |cs|
      invariant SoFar(a, cs, i, p) && Listed(a, cs, i)
      invariant i > 0 ==> a.head(cs[i - 1]) != Broken
    {
      var stop, q := ProbeOne(cs, a, i, p);
      p := q;
      if stop {
        break;
      }
      assert i + 1 == |cs| ==> cs[..i + 1] == cs;
    }
    assert cs[..|cs|] == cs;
    RowsTold(a, cs, p.rows);
  }

  // The verdicts of a list of rows, told from the probes alone.
  lemma RowsTold(a: Answers, cs: seq<Case>, rows: seq<Row>)
    requires RowsFor(a, cs, rows)
    ensures forall k :: 0 <= k < |rows| ==>
              rows[k].test == cs[k]
    ensures forall k :: 0 <= k < |rows| ==>
              (rows[k].verdict == Flaky <==> a.head(cs[k]) == Passes)
    ensures forall k :: 0 <= k < |rows| ==>
              (rows[k].verdict == OnBase <==> a.head(cs[k]) == FailsAgain && a.base(cs[k]) == FailsAgain)
    ensures forall k :: 0 <= k < |rows| ==>
              (rows[k].verdict == Introduced <==> a.head(cs[k]) == FailsAgain && a.base(cs[k]) == Passes)
    ensures forall k :: 0 <= k < |rows| ==>
              (rows[k].verdict == IntroducedNoBase <==> a.head(cs[k]) == FailsAgain && a.base(cs[k]) == Absent(false))
    ensures forall k :: 0 <= k < |rows| ==>
              (rows[k].verdict == Inconclusive <==>
               a.head(cs[k]) == FailsAgain && a.base(cs[k]) in {Absent(true), Broken, Crash})
    ensures forall k, probe :: 0 <= k < |rows| ==>
              (rows[k].verdict == NoRetry(probe) <==> a.head(cs[k]) == probe && probe !in {Passes, FailsAgain})
  {
    forall k | 0 <= k < |rows| {
      VerdictsOfProbes(a, cs[k]);
    }
  }

  // One case is enough to keep the run from being green.
  lemma OneIsEnough(a: Answers, cs: seq<Case>, i: nat)
    requires i < |cs| && (!Excused(a, cs[i]) || (a.head(cs[i]) == FailsAgain && a.checkout != Added))
    ensures !(AllExcused(a, cs) && (NeedsBase(a, cs) ==> a.checkout == Added))
  {
  }

  lemma OneMoreCase(a: Answers, cs: seq<Case>, i: nat)
    requires i < |cs|
    ensures AllExcused(a, cs[..i + 1]) <==> AllExcused(a, cs[..i]) && Excused(a, cs[i])
    ensures NeedsBase(a, cs[..i + 1]) <==> NeedsBase(a, cs[..i]) || a.head(cs[i]) == FailsAgain
  {
    assert forall k :: 0 <= k < i ==> cs[..i + 1][k] == cs[..i][k];
    assert cs[..i + 1][i] == cs[i];
  }

  lemma OneMoreListed(a: Answers, cs: seq<Case>, n: nat)
    requires Listed(a, cs, n) && n < |cs| && (n > 0 ==> a.head(cs[n - 1]) != Broken) && a.head(cs[n]) != Crash
    requires a.head(cs[n]) == FailsAgain ==> a.checkout == Added && a.base(cs[n]) != Crash
    ensures Listed(a, cs, n + 1)
  {
  }

  lemma OneMoreRow(a: Answers, cs: seq<Case>, rows: seq<Row>)
    requires RowsFor(a, cs, rows) && |rows| < |cs|
    ensures var c := cs[|rows|]; RowsFor(a, cs, rows + [Row(c, VerdictOf(a.head(c), a.base(c)))])
  {
  }

  /** What a verdict says of the two probes, one line a verdict. */
  predicate Told(a: Answers, c: Case, v: Verdict) {
    && (v == Flaky <==> a.head(c) == Passes)
    && (v == OnBase <==> a.head(c) == FailsAgain && a.base(c) == FailsAgain)
    && (v == Introduced <==> a.head(c) == FailsAgain && a.base(c) == Passes)
    && (v == IntroducedNoBase <==> a.head(c) == FailsAgain && a.base(c) == Absent(false))
    && (v == Inconclusive <==> a.head(c) == FailsAgain && a.base(c) in {Absent(true), Broken, Crash})
    && (v.NoRetry? <==> a.head(c) !in {Passes, FailsAgain}) && (v.NoRetry? ==> v.probe == a.head(c))
    && v != OverCap
  }

  lemma VerdictsOfProbes(a: Answers, c: Case)
    ensures Told(a, c, VerdictOf(a.head(c), a.base(c)))
  {
  }

  lemma RowsAreTold(a: Answers, cs: seq<Case>, rows: seq<Row>)
    requires RowsFor(a, cs, rows)
    ensures forall k :: 0 <= k < |rows| ==> Told(a, cs[k], rows[k].verdict) && rows[k].verdict != OverCap
  {
  }

  lemma VerdictExcuses(a: Answers, c: Case)
    ensures VerdictOf(a.head(c), a.base(c)) in {Flaky, OnBase} <==> Excused(a, c)
  {
  }

  method ProbeOne(cs: seq<Case>, a: Answers, i: nat, p: Probed) returns (stop: bool, q: Probed)
    requires i < |cs| && SoFar(a, cs, i, p) && Listed(a, cs, i)
    requires i > 0 ==> a.head(cs[i - 1]) != Broken
    ensures !stop ==> SoFar(a, cs, i + 1, q) && Listed(a, cs, i + 1) && a.head(cs[i]) != Broken
    ensures stop ==> Listed(a, cs, |q.rows|) && q.heads == i + 1
    ensures stop ==> |q.rows| == if a.head(cs[i]) == Broken then i + 1 else i
    ensures stop ==> q.checkouts == if a.checkout != NoDirectory && NeedsBase(a, cs[..i + 1]) then 1 else 0
    ensures stop ==> RowsFor(a, cs, q.rows) && Within(q, |cs|) && !q.green
    ensures stop ==> !(AllExcused(a, cs) && (NeedsBase(a, cs) ==> a.checkout == Added))
    ensures stop && |q.rows| < |cs| ==> CutShort(a, cs, |q.rows|)
  {
    var c := cs[i];
    VerdictExcuses(a, c);
    if !Excused(a, c) || (a.head(c) == FailsAgain && a.checkout != Added) {
      OneIsEnough(a, cs, i);
    }
    OneMoreCase(a, cs, i);
    q := p.(heads := p.heads + 1);
    var head := a.head(c);
    if head == Crash {
      return true, q.(green := false);
    }
    if head == FailsAgain {
      if !q.made {
        if a.checkout == NoDirectory {
          return true, q.(green := false);
        }
        q := q.(made := true, checkouts := q.checkouts + 1);
        if a.checkout != Added {
          return true, q.(green := false);
        }
      }
      q := q.(bases := q.bases + 1);
      if a.base(c) == Crash {
        return true, q.(green := false);
      }
    }
    OneMoreListed(a, cs, i);
    var verdict := VerdictOf(head, a.base(c));
    OneMoreRow(a, cs, q.rows);
    q := q.(rows := q.rows + [Row(c, verdict)], green := q.green && verdict in {Flaky, OnBase});
    if head == Broken {
      return true, q.(green := false);
    }
    return false, q;
  }

  /** Whatever happened, the base checkout is taken down; a checkout that stays, or an error while it goes,
      turns the run red. */
  method Finish(p: Probed, a: Answers) returns (out: Outcome)
    ensures out == Outcome(p.green && (p.made ==> a.removal == Gone), p.rows, p.made ==> a.removal != Interrupted,
                           p.heads, p.bases, p.checkouts)
  {
    out := Outcome(p.green, p.rows, true, p.heads, p.bases, p.checkouts);
    if p.made {
      if a.removal == Stuck {
        out := out.(green := false);
      } else if a.removal == Interrupted {
        out := out.(green := false, written := false);
      }
    }
  }

  /** The leaves probed and the base checkout taken down again. */
  method Retry(cs: seq<Case>, a: Answers) returns (out: Outcome)
    ensures out.green <==> AllExcused(a, cs) && (NeedsBase(a, cs) ==> a.checkout == Added && a.removal == Gone)
    ensures RowsFor(a, cs, out.rows) && Listed(a, cs, |out.rows|)
    ensures forall k :: 0 <= k < |out.rows| ==> Told(a, cs[k], out.rows[k].verdict) && out.rows[k].verdict != OverCap
    ensures out.green ==> |out.rows| == |cs|
    ensures |out.rows| < |cs| ==> CutShort(a, cs, |out.rows|)
    ensures out.bases <= out.heads <= |cs| && out.checkouts <= 1 && (out.bases > 0 ==> out.checkouts == 1)
    ensures !out.written ==> out.checkouts == 1 && a.removal == Interrupted
  {
    var p := ProbeAll(cs, a);
    RowsAreTold(a, cs, p.rows);
    out := Finish(p, a);
  }

  function OverCapRows(cs: seq<Case>): seq<Row> { seq(|cs|, i requires 0 <= i < |cs| => Row(cs[i], OverCap)) }

  /** The run is green exactly when it can be believed and each failing leaf, five at most, is excused: it passes when
      retried, or it fails on a base checkout that could be made and taken away again as well. */
  ghost predicate GreenWhen(first: First, a: Answers) {
    && first.Started? && Believable(first.printed, first.results, first.status)
    && |FailedTests(first.results.tests)| <= 5
    && forall c :: c in FailedTests(first.results.tests) ==>
         || a.head(c) == Passes
         || (a.head(c) == FailsAgain && a.base(c) == FailsAgain && a.checkout == Added && a.removal == Gone)
  }

  /** The whole run. Its rows and its colour are told here by what the first run printed and by what the probes, the
      checkout and its removal answer. */
  method Run(first: First, a: Answers) returns (out: Outcome)
    ensures out.green <==> GreenWhen(first, a)
    ensures out.heads <= 5 && out.bases <= out.heads && out.checkouts <= 1
    ensures out.bases > 0 ==> out.checkouts == 1
    ensures !out.written ==> out.checkouts == 1 && a.removal == Interrupted
    ensures first.NotStarted? ==> out.rows == []
    ensures first.Started? ==> RightRows(first, a, out)
    ensures out.rows != [] ==> first.Started? && |out.rows| <= |FailedTests(first.results.tests)|
    ensures forall k :: 0 <= k < |out.rows| ==> out.rows[k].test == FailedTests(first.results.tests)[k]
    ensures forall k :: 0 <= k < |out.rows| ==> (out.rows[k].verdict == OverCap <==> |FailedTests(first.results.tests)| > 5)
    ensures forall k :: 0 <= k < |out.rows| && out.rows[k].verdict != OverCap ==> Told(a, out.rows[k].test, out.rows[k].verdict)
  {
    if first.NotStarted? {
      return Outcome(false, [], true, 0, 0, 0);
    }
    BelievedIffConsistent(first.printed, first.results, first.status);
    var failures := FailedTests(first.results.tests);
    if Infrastructure(first.printed, first.results, first.status).Some? {
      return Outcome(false, [], true, 0, 0, 0);
    }
    if first.status == 0 && failures == [] {
      return Outcome(true, [], true, 0, 0, 0);
    }
    if |failures| > FAILURE_CAP {
      return Outcome(false, OverCapRows(failures), true, 0, 0, 0);
    }
    out := Retry(failures, a);
    GreenOnLeaves(first, a);
  }

  lemma GreenOnLeaves(first: First, a: Answers)
    requires first.Started? && Believable(first.printed, first.results, first.status)
    ensures var cs := FailedTests(first.results.tests);
      GreenWhen(first, a) <==> |cs| <= 5 && AllExcused(a, cs) && (NeedsBase(a, cs) ==> a.checkout == Added && a.removal == Gone)
  {
    var cs := FailedTests(first.results.tests);
    assert forall k :: 0 <= k < |cs| ==> cs[k] in cs;
  }

  /** No row unless the run is believed; over the cap every leaf is listed and nothing is probed; else the
      rows are the leaves in order, each with the verdict its own probes call for, complete when green. */
  ghost predicate RightRows(first: First, a: Answers, out: Outcome)
    requires first.Started?
  {
    var cs := FailedTests(first.results.tests);
    if !Believable(first.printed, first.results, first.status) then out.rows == [] && out.heads == 0
    else if |cs| > 5 then |out.rows| == |cs| && out.heads == 0
    else
      && RowsFor(a, cs, out.rows) && Listed(a, cs, |out.rows|)
      && (out.green ==> |out.rows| == |cs|)
      && (|out.rows| < |cs| ==> CutShort(a, cs, |out.rows|))
  }

  /** A green run lists no verdict but flaky and already failing on the base. */
  lemma GreenRowsAreExcuses(first: First, a: Answers, out: Outcome)
    requires first.Started? && GreenWhen(first, a) && RightRows(first, a, out)
    ensures forall k :: 0 <= k < |out.rows| ==> out.rows[k].verdict in {Flaky, OnBase}
  {
    var cs := FailedTests(first.results.tests);
    forall k | 0 <= k < |out.rows| ensures out.rows[k].verdict in {Flaky, OnBase} {
      assert Excused(a, cs[k]);
    }
  }
}
