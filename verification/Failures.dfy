/** The failing leaves of a run, in order, and whether the run can be believed at all. */
module Failures {
  import opened PlainResults
  import opened Wrappers

  datatype Case = Case(package: string, name: string)

  predicate Less(a: string, b: string) {
    if b == "" then false
    else if a == "" then true
    else if a[0] != b[0] then a[0] < b[0]
    else Less(a[1..], b[1..])
  }

  predicate Before(a: Case, b: Case) {
    Less(a.package, b.package) || (a.package == b.package && Less(a.name, b.name))
  }

  lemma {:induction false} LessIsTotal(a: string, b: string)
    ensures a == b || Less(a, b) || Less(b, a)
    ensures !(Less(a, b) && Less(b, a))
    ensures a == b ==> !Less(a, b)
  {
    if a != "" && b != "" && a[0] == b[0] {
      LessIsTotal(a[1..], b[1..]);
      assert a == [a[0]] + a[1..] && b == [b[0]] + b[1..];
    }
  }

  /** The order of texts is that of the first place where they differ; a text comes before those it begins. */
  lemma {:induction false} LessTold(a: string, b: string)
    ensures Less(a, b) <==> exists k: nat :: DiffersAt(a, b, k) && k < |b| && (k == |a| || a[k] < b[k])
  {
    if a != "" && b != "" && a[0] == b[0] {
      LessTold(a[1..], b[1..]);
      forall k: nat ensures DiffersAt(a, b, k + 1) <==> DiffersAt(a[1..], b[1..], k) {
        SameFront(a, b, k);
      }
      if k: nat :| DiffersAt(a[1..], b[1..], k) && k < |b[1..]| && (k == |a[1..]| || a[1..][k] < b[1..][k]) {
        assert DiffersAt(a, b, k + 1);
      }
      if k: nat :| DiffersAt(a, b, k) && k < |b| && (k == |a| || a[k] < b[k]) {
        assert DiffersAt(a[1..], b[1..], k - 1);
      }
    } else if b != "" {
      assert DiffersAt(a, b, 0);
    }
  }

  predicate DiffersAt(a: string, b: string, k: nat) {
    k <= |a| && k <= |b| && a[..k] == b[..k] && (k < |a| && k < |b| ==> a[k] != b[k])
  }

  lemma SameFront(a: string, b: string, k: nat)
    requires a != "" && b != "" && a[0] == b[0]
    ensures DiffersAt(a, b, k + 1) <==> DiffersAt(a[1..], b[1..], k)
  {
    if k < |a| && k < |b| {
      assert a[..k + 1] == [a[0]] + a[1..][..k] && b[..k + 1] == [b[0]] + b[1..][..k];
    }
  }

  lemma {:induction false} LessIsTransitive(a: string, b: string, c: string)
    requires Less(a, b) && Less(b, c)
    ensures Less(a, c)
  {
    if a != "" && a[0] == b[0] == c[0] {
      LessIsTransitive(a[1..], b[1..], c[1..]);
    }
  }

  lemma BeforeIsTotal(a: Case, b: Case)
    ensures a == b || Before(a, b) || Before(b, a)
    ensures !(Before(a, b) && Before(b, a))
    ensures a == b ==> !Before(a, b)
  {
    LessIsTotal(a.package, b.package);
    LessIsTotal(a.name, b.name);
  }

  lemma BeforeIsTransitive(a: Case, b: Case, c: Case)
    requires Before(a, b) && Before(b, c)
    ensures Before(a, c)
  {
    LessIsTotal(a.package, b.package);
    LessIsTotal(b.package, c.package);
    if a.package == b.package == c.package {
      LessIsTransitive(a.name, b.name, c.name);
    } else if a.package != b.package && b.package != c.package {
      LessIsTransitive(a.package, b.package, c.package);
    }
  }

  /** Sorted, each case once. */
  predicate Ascending(cs: seq<Case>) {
    forall i, j :: 0 <= i < j < |cs| ==> Before(cs[i], cs[j])
  }

  function Put(c: Case, cs: seq<Case>): seq<Case> {
    if cs == [] then [c]
    else if cs[0] == c then cs
    else if Before(c, cs[0]) then [c] + cs
    else [cs[0]] + Put(c, cs[1..])
  }

  lemma {:induction false} PutMembers(c: Case, cs: seq<Case>, x: Case)
    ensures x in Put(c, cs) <==> x == c || x in cs
  {
    if cs != [] && cs[0] != c && !Before(c, cs[0]) {
      PutMembers(c, cs[1..], x);
      assert cs == [cs[0]] + cs[1..];
    }
  }

  lemma {:induction false} HeadIsBefore(c: Case, cs: seq<Case>)
    requires forall x :: x in cs ==> Before(c, x)
    requires Ascending(cs)
    ensures Ascending([c] + cs)
  {
  }

  lemma {:induction false} PutAscends(c: Case, cs: seq<Case>)
    requires Ascending(cs)
    ensures Ascending(Put(c, cs))
  {
    if cs == [] || cs[0] == c {
    } else if Before(c, cs[0]) {
      forall x | x in cs ensures Before(c, x) {
        var i :| 0 <= i < |cs| && cs[i] == x;
        if i > 0 {
          BeforeIsTransitive(c, cs[0], cs[i]);
        }
      }
      HeadIsBefore(c, cs);
    } else {
      PutAscends(c, cs[1..]);
      BeforeIsTotal(c, cs[0]);
      forall x | x in Put(c, cs[1..]) ensures Before(cs[0], x) {
        PutMembers(c, cs[1..], x);
      }
      HeadIsBefore(cs[0], Put(c, cs[1..]));
    }
  }

  /** An ascending list is settled by its members: the order results were read in does not matter. */
  lemma {:induction false} AscendingIsUnique(a: seq<Case>, b: seq<Case>)
    requires Ascending(a) && Ascending(b) && forall x :: x in a <==> x in b
    ensures a == b
  {
    EmptyTogether(a, b);
    EmptyTogether(b, a);
    if a != [] {
      SameLeast(a, b);
      SameRest(a, b);
      AscendingIsUnique(a[1..], b[1..]);
      assert a == [a[0]] + a[1..] && b == [b[0]] + b[1..];
    }
  }

  lemma EmptyTogether(a: seq<Case>, b: seq<Case>)
    requires forall x :: x in a ==> x in b
    ensures b == [] ==> a == []
  {
    if a != [] {
      assert a[0] in b;
    }
  }

  lemma SameLeast(a: seq<Case>, b: seq<Case>)
    requires Ascending(a) && Ascending(b) && (forall x :: x in a <==> x in b) && |a| > 0 && |b| > 0
    ensures a[0] == b[0]
  {
    assert a[0] in b && b[0] in a;
    var i :| 0 <= i < |b| && b[i] == a[0];
    var j :| 0 <= j < |a| && a[j] == b[0];
    BeforeIsTotal(a[0], b[0]);
  }

  lemma SameRest(a: seq<Case>, b: seq<Case>)
    requires Ascending(a) && Ascending(b) && (forall x :: x in a <==> x in b) && |a| > 0 && |b| > 0 && a[0] == b[0]
    ensures forall x :: x in a[1..] <==> x in b[1..]
  {
    RestHasNoHead(a);
    RestHasNoHead(b);
    assert a == [a[0]] + a[1..] && b == [b[0]] + b[1..];
    forall x ensures x in a[1..] <==> x in b[1..] {
      assert x in a <==> x == a[0] || x in a[1..];
      assert x in b <==> x == b[0] || x in b[1..];
    }
  }

  lemma RestHasNoHead(a: seq<Case>)
    requires Ascending(a) && |a| > 0
    ensures a[0] !in a[1..]
  {
    if a[0] in a[1..] {
      var i :| 0 <= i < |a[1..]| && a[1..][i] == a[0];
      BeforeIsTotal(a[0], a[i + 1]);
    }
  }

  predicate Under(name: string, other: string) { name + "/" <= other }

  predicate IsLeaf(c: Case, failed: seq<Case>) {
    forall o :: o in failed && o.package == c.package ==> !Under(c.name, o.name)
  }

  function FailedCases(tests: seq<Owned>): seq<Case> {
    if tests == [] then []
    else if tests[|tests| - 1].action == Fail then
      Put(Case(tests[|tests| - 1].package, tests[|tests| - 1].name), FailedCases(tests[..|tests| - 1]))
    else FailedCases(tests[..|tests| - 1])
  }

  function Leaves(cs: seq<Case>, failed: seq<Case>): seq<Case> {
    if cs == [] then []
    else (if IsLeaf(cs[0], failed) then [cs[0]] else []) + Leaves(cs[1..], failed)
  }

  function FailedTests(tests: seq<Owned>): seq<Case> { Leaves(FailedCases(tests), FailedCases(tests)) }

  predicate Fails(tests: seq<Owned>, c: Case) {
    exists j :: 0 <= j < |tests| && IsFailure(tests[j], c)
  }

  predicate IsFailure(o: Owned, c: Case) { o.package == c.package && o.name == c.name && o.action == Fail }

  lemma {:induction false} FailedCasesAre(tests: seq<Owned>)
    ensures Ascending(FailedCases(tests))
    ensures forall c :: c in FailedCases(tests) <==> Fails(tests, c)
  {
    if tests != [] {
      var front, o := tests[..|tests| - 1], tests[|tests| - 1];
      FailedCasesAre(front);
      assert tests == front + [o];
      forall c ensures Fails(tests, c) <==> Fails(front, c) || IsFailure(o, c) {
        if IsFailure(o, c) {
          assert IsFailure(tests[|front|], c);
        }
        if j :| 0 <= j < |front| && IsFailure(front[j], c) {
          assert IsFailure(tests[j], c);
        }
      }
      if o.action == Fail {
        PutAscends(Case(o.package, o.name), FailedCases(front));
        forall c ensures c in FailedCases(tests) <==> Fails(tests, c) {
          PutMembers(Case(o.package, o.name), FailedCases(front), c);
        }
      }
    }
  }

  lemma {:induction false} LeavesAre(cs: seq<Case>, failed: seq<Case>)
    requires Ascending(cs)
    ensures Ascending(Leaves(cs, failed))
    ensures forall c :: c in Leaves(cs, failed) <==> c in cs && IsLeaf(c, failed)
  {
    if cs != [] {
      LeavesAre(cs[1..], failed);
      assert cs == [cs[0]] + cs[1..];
      if IsLeaf(cs[0], failed) {
        HeadIsBefore(cs[0], Leaves(cs[1..], failed));
      }
    }
  }

  /** A failing case below c that has no failing case below it. */
  lemma {:induction false} LeafBelow(failed: seq<Case>, c: Case, room: nat) returns (l: Case)
    requires c in failed && forall o :: o in failed ==> |o.name| <= |c.name| + room
    ensures l in failed && IsLeaf(l, failed) && l.package == c.package
    ensures l == c || Under(c.name, l.name)
    decreases room
  {
    l := c;
    if !IsLeaf(c, failed) {
      var o :| o in failed && o.package == c.package && Under(c.name, o.name);
      l := LeafBelow(failed, o, room - (|o.name| - |c.name|));
    }
  }

  function Longest(failed: seq<Case>): (n: nat)
    ensures forall o :: o in failed ==> |o.name| <= n
  {
    if failed == [] then 0
    else
      var n := Longest(failed[1..]);
      assert failed == [failed[0]] + failed[1..];
      if |failed[0].name| > n then |failed[0].name| else n
  }

  predicate Covers(l: Case, c: Case) { l.package == c.package && (l == c || Under(c.name, l.name)) }

  /** The cases worth a retry: each is a failure, none is above another, in order and each once, and
      every failure is one of them or above one of them. */
  lemma LeavesStandForAllFailures(tests: seq<Owned>)
    ensures var ls := FailedTests(tests);
      && Ascending(ls)
      && (forall l :: l in ls ==> Fails(tests, l))
      && (forall l, m :: l in ls && m in ls && l.package == m.package ==> !Under(l.name, m.name))
      && (forall c :: Fails(tests, c) ==> exists l :: l in ls && Covers(l, c))
  {
    var failed := FailedCases(tests);
    FailedCasesAre(tests);
    LeavesAre(failed, failed);
    forall c | Fails(tests, c) ensures exists l :: l in FailedTests(tests) && Covers(l, c) {
      var l := LeafBelow(failed, c, Longest(failed));
      assert Covers(l, c);
    }
  }

  // ---- can the run be believed

  datatype Reason =
    | Killed
    | Printed(pattern: nat)
    | Unread(fault: Fault)
    | NoPackage
    | NoTestName
    | PackageWithoutTest
    | TestWithoutPackage
    | FailingButZero

  function FailedPackages(packages: seq<(string, Mark)>): set<string> {
    set i | 0 <= i < |packages| && packages[i].1 == Failed :: packages[i].0
  }

  function Packages(cs: seq<Case>): set<string> { set i | 0 <= i < |cs| :: cs[i].package }

  /** Why the run proves nothing, or None. `printed` is the first trouble pattern found in the output. */
  function Infrastructure(printed: Option<nat>, r: Results, status: int): Option<Reason> {
    if status < 0 || status == 137 || status == 143 then Some(Killed)
    else if printed.Some? then Some(Printed(printed.value))
    else if r.faults != [] then Some(Unread(r.faults[0]))
    else if r.packages == [] then Some(NoPackage)
    else
      var failures := FailedTests(r.tests);
      var failed := FailedPackages(r.packages);
      var attributed := Packages(failures);
      if status != 0 && failures == [] then Some(NoTestName)
      else if failed - attributed != {} then Some(PackageWithoutTest)
      else if attributed - failed != {} then Some(TestWithoutPackage)
      else if status == 0 && failed != {} then Some(FailingButZero)
      else None
  }

  predicate HasFailure(tests: seq<Owned>, package: string) {
    exists j :: 0 <= j < |tests| && tests[j].package == package && tests[j].action == Fail
  }

  /** The packages reported as failed are those with a failing test, and the status is zero when none fails. */
  ghost predicate Believable(printed: Option<nat>, r: Results, status: int) {
    && status >= 0 && status != 137 && status != 143 && printed.None? && r.faults == [] && r.packages != []
    && (forall package :: (package, Failed) in r.packages <==> HasFailure(r.tests, package))
    && (status == 0 <==> forall j :: 0 <= j < |r.tests| ==> r.tests[j].action != Fail)
  }

  lemma LeafFails(tests: seq<Owned>, i: nat)
    requires i < |FailedTests(tests)|
    ensures HasFailure(tests, FailedTests(tests)[i].package)
  {
    var l := FailedTests(tests)[i];
    LeavesStandForAllFailures(tests);
    assert l in FailedTests(tests);
    var j :| 0 <= j < |tests| && IsFailure(tests[j], l);
    assert tests[j].package == l.package;
  }

  lemma FailureHasLeaf(tests: seq<Owned>, j: nat) returns (i: nat)
    requires j < |tests| && tests[j].action == Fail
    ensures i < |FailedTests(tests)| && FailedTests(tests)[i].package == tests[j].package
  {
    var c := Case(tests[j].package, tests[j].name);
    LeavesStandForAllFailures(tests);
    assert IsFailure(tests[j], c);
    assert Fails(tests, c);
    var l :| l in FailedTests(tests) && Covers(l, c);
    i :| 0 <= i < |FailedTests(tests)| && FailedTests(tests)[i] == l;
  }

  lemma PackagesOfLeaves(tests: seq<Owned>, package: string)
    ensures package in Packages(FailedTests(tests)) <==> HasFailure(tests, package)
  {
    if package in Packages(FailedTests(tests)) {
      var i :| 0 <= i < |FailedTests(tests)| && FailedTests(tests)[i].package == package;
      LeafFails(tests, i);
    }
    if j :| 0 <= j < |tests| && tests[j].package == package && tests[j].action == Fail {
      var i := FailureHasLeaf(tests, j);
    }
  }

  lemma NoLeafNoFailure(tests: seq<Owned>)
    ensures FailedTests(tests) == [] <==> forall j :: 0 <= j < |tests| ==> tests[j].action != Fail
  {
    if FailedTests(tests) != [] {
      LeafFails(tests, 0);
    }
    if j :| 0 <= j < |tests| && tests[j].action == Fail {
      var i := FailureHasLeaf(tests, j);
    }
  }

  lemma SamePackages(packages: seq<(string, Mark)>, tests: seq<Owned>)
    ensures FailedPackages(packages) == Packages(FailedTests(tests)) <==>
      forall package :: (package, Failed) in packages <==> HasFailure(tests, package)
  {
    forall package
      ensures package in FailedPackages(packages) <==> (package, Failed) in packages
      ensures package in Packages(FailedTests(tests)) <==> HasFailure(tests, package)
    {
      if (package, Failed) in packages {
        var i :| 0 <= i < |packages| && packages[i] == (package, Failed);
      }
      PackagesOfLeaves(tests, package);
    }
  }

  /** A run is believed exactly when it was not killed and printed no trouble, every line has its owner,
      the packages that failed are the packages with a failing test, and the status says the same. */
  lemma BelievedIffConsistent(printed: Option<nat>, r: Results, status: int)
    ensures Infrastructure(printed, r, status).None? <==> Believable(printed, r, status)
  {
    var failures := FailedTests(r.tests);
    var failed := FailedPackages(r.packages);
    SamePackages(r.packages, r.tests);
    NoLeafNoFailure(r.tests);
    assert failures != [] ==> failures[0].package in Packages(failures);
    assert failures == [] <==> Packages(failures) == {};
    assert failed - Packages(failures) == {} && Packages(failures) - failed == {} <==> failed == Packages(failures);
  }

  // ---- one focused run

  datatype Probe = Passes | FailsAgain | Absent(skipped: bool) | Broken | Crash

  function LastResult(tests: seq<Owned>, c: Case): Option<Action> {
    if tests == [] then None
    else
      var o := tests[|tests| - 1];
      if o.package == c.package && o.name == c.name then Some(o.action) else LastResult(tests[..|tests| - 1], c)
  }

  predicate Inside(c: Case, l: Case) { l.package == c.package && (l.name == c.name || Under(c.name, l.name)) }

  /** `unresolved`: the output says that the package itself cannot be found. */
  function Focused(c: Case, printed: Option<nat>, r: Results, status: int, unresolved: bool): Probe {
    var reason := Infrastructure(printed, r, status);
    var target := LastResult(r.tests, c);
    if reason.Some? && unresolved then Absent(false)
    else if reason.Some? then Broken
    else if target.None? then Absent(false)
    else if target.value == Skip then Absent(true)
    else if target.value == Fail then
      if exists l :: l in FailedTests(r.tests) && !Inside(c, l) then Broken else FailsAgain
    else if status != 0 || FailedTests(r.tests) != [] then Broken
    else Passes
  }

  predicate IsAbout(o: Owned, c: Case) { o.package == c.package && o.name == c.name }

  predicate LastAt(tests: seq<Owned>, c: Case, j: nat) {
    j < |tests| && IsAbout(tests[j], c) && forall k :: j < k < |tests| ==> !IsAbout(tests[k], c)
  }

  /** The last of the results about a case is the one that counts. */
  lemma {:induction false} LastResultIsLast(tests: seq<Owned>, c: Case)
    ensures LastResult(tests, c) == None <==> forall j :: 0 <= j < |tests| ==> !IsAbout(tests[j], c)
    ensures LastResult(tests, c).Some? ==> exists j: nat :: LastAt(tests, c, j) && tests[j].action == LastResult(tests, c).value
  {
    if tests != [] {
      var n := |tests| - 1;
      var front := tests[..n];
      if IsAbout(tests[n], c) {
        assert LastAt(tests, c, n);
      } else {
        LastResultIsLast(front, c);
        assert forall k :: 0 <= k < n ==> front[k] == tests[k];
        if j: nat :| LastAt(front, c, j) && front[j].action == LastResult(front, c).value {
          assert LastAt(tests, c, j);
        }
      }
    }
  }

  lemma LastFailureFails(tests: seq<Owned>, c: Case)
    requires LastResult(tests, c) == Some(Fail)
    ensures Fails(tests, c)
  {
    LastResultIsLast(tests, c);
    var j: nat :| LastAt(tests, c, j) && tests[j].action == Fail;
    assert IsFailure(tests[j], c);
  }

  // Every leaf lies inside the target exactly when every failure lies inside it or above it.
  lemma OnlyInside(tests: seq<Owned>, c: Case)
    requires Fails(tests, c)
    ensures (forall l :: l in FailedTests(tests) ==> Inside(c, l)) <==>
      forall x :: Fails(tests, x) ==> Inside(c, x) || Inside(x, c)
  {
    LeavesStandForAllFailures(tests);
    if forall l :: l in FailedTests(tests) ==> Inside(c, l) {
      forall x | Fails(tests, x) ensures Inside(c, x) || Inside(x, c) {
        var l :| l in FailedTests(tests) && Covers(l, x);
        assert Inside(c, l);
        OneOfTwoAbove(c.name, x.name, l.name);
      }
    } else {
      var l :| l in FailedTests(tests) && !Inside(c, l);
      if Inside(l, c) {
        LeafIsNotAbove(tests, l, c);
      }
      assert Fails(tests, l);
    }
  }

  lemma LeafIsNotAbove(tests: seq<Owned>, l: Case, c: Case)
    requires l in FailedTests(tests) && Fails(tests, c) && Inside(l, c)
    ensures l == c
  {
    FailedCasesAre(tests);
    LeavesAre(FailedCases(tests), FailedCases(tests));
    assert c in FailedCases(tests);
  }

  /** What a focused run says of its target, each answer exactly when. It passes when the target reported a pass last and
      nothing failed at all; it fails when the target reported a failure last and every other failure is above or
      below it; it is absent when it was skipped last, was not there, or its package could not be found. */
  lemma FocusedMeansTheTarget(c: Case, printed: Option<nat>, r: Results, status: int, unresolved: bool)
    ensures var p := Focused(c, printed, r, status, unresolved);
      && (p == Passes <==>
          Believable(printed, r, status) && LastResult(r.tests, c) == Some(Pass) && forall x :: !Fails(r.tests, x))
      && (p == FailsAgain <==>
          && Believable(printed, r, status) && LastResult(r.tests, c) == Some(Fail)
          && forall x :: Fails(r.tests, x) ==> Inside(c, x) || Inside(x, c))
      && (p == Absent(true) <==> Believable(printed, r, status) && LastResult(r.tests, c) == Some(Skip))
      && (p == Absent(false) <==>
          if Believable(printed, r, status) then LastResult(r.tests, c) == None else unresolved)
      && p != Crash
  {
    BelievedIffConsistent(printed, r, status);
    NothingFails(r.tests);
    if LastResult(r.tests, c) == Some(Fail) {
      LastFailureFails(r.tests, c);
      OnlyInside(r.tests, c);
    }
  }

  lemma NothingFails(tests: seq<Owned>)
    ensures FailedTests(tests) == [] <==> forall x :: !Fails(tests, x)
    ensures FailedTests(tests) == [] <==> forall j :: 0 <= j < |tests| ==> tests[j].action != Fail
  {
    NoLeafNoFailure(tests);
    LeavesStandForAllFailures(tests);
    if FailedTests(tests) != [] {
      assert FailedTests(tests)[0] in FailedTests(tests);
    }
    if x :| Fails(tests, x) {
      var l :| l in FailedTests(tests) && Covers(l, x);
    }
  }

  /** Two names that both lie above a third, or are it, lie on one path. */
  lemma OneOfTwoAbove(a: string, b: string, l: string)
    requires (a == l || Under(a, l)) && (b == l || Under(b, l))
    ensures a == b || Under(a, b) || Under(b, a)
  {
    PathTo(a, l);
    PathTo(b, l);
    if |a| < |b| {
      assert (a + "/")[..] == l[..|a| + 1] == b[..|a| + 1];
    } else if |b| < |a| {
      assert (b + "/")[..] == l[..|b| + 1] == a[..|b| + 1];
    }
  }

  lemma PathTo(a: string, l: string)
    requires a == l || Under(a, l)
    ensures |a| <= |l| && a == l[..|a|]
    ensures a != l ==> |a| < |l| && a + "/" == l[..|a| + 1]
  {
    if a != l {
      assert (a + "/")[..|a|] == a;
    }
  }
}
