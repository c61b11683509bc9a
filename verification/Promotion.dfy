/** Promoting a dev commit to staging: choosing it, checking it, and moving the pointer without force. */
module Promotion {
  import opened Cutoff
  import opened Wrappers

  type Sha = string

  /** "Is an ancestor of, or is": the only relation the tool asks git about. */
  type Order = (Sha, Sha) -> bool

  ghost predicate IsOrder(anc: Order) {
    && (forall a :: anc(a, a))
    && (forall a, b, c :: anc(a, b) && anc(b, c) ==> anc(a, c))
    && (forall a, b :: anc(a, b) && anc(b, a) ==> a == b)
  }

  /** An entry of the first-parent log, newest first; Bad does not read as a commit and a time. */
  datatype Line = Bad | Commit(sha: Sha, at: int)

  /** A first-parent log of a branch: every entry is a commit, newer ones descend from older ones. */
  ghost predicate Trunk(anc: Order, log: seq<Line>) {
    && |log| > 0
    && (forall i :: 0 <= i < |log| ==> log[i].Commit?)
    && (forall i, j :: 0 <= i <= j < |log| ==> Follows(anc, log[j], log[i]))
  }

  ghost predicate Follows(anc: Order, older: Line, newer: Line) {
    older.Commit? && newer.Commit? && anc(older.sha, newer.sha)
  }

  /** Entry i is the newest one at or before the cutoff, and everything above it reads well. */
  predicate FoundAt(log: seq<Line>, cut: int, i: int) {
    && 0 <= i < |log| && log[i].Commit? && log[i].at <= cut
    && forall k :: 0 <= k < i ==> log[k].Commit? && log[k].at > cut
  }

  function FirstAt(log: seq<Line>, cut: int): Option<Sha> {
    if log == [] || log[0].Bad? then None
    else if log[0].at <= cut then Some(log[0].sha)
    else FirstAt(log[1..], cut)
  }

  lemma {:induction false} FirstAtIsFound(log: seq<Line>, cut: int, i: int)
    requires FoundAt(log, cut, i)
    ensures FirstAt(log, cut) == Some(log[i].sha)
  {
    if i > 0 {
      assert FoundAt(log[1..], cut, i - 1);
      FirstAtIsFound(log[1..], cut, i - 1);
    }
  }

  lemma {:induction false} FoundByFirstAt(log: seq<Line>, cut: int) returns (i: int)
    requires FirstAt(log, cut).Some?
    ensures FoundAt(log, cut, i) && FirstAt(log, cut) == Some(log[i].sha)
  {
    if log[0].at <= cut {
      i := 0;
    } else {
      var j := FoundByFirstAt(log[1..], cut);
      i := j + 1;
    }
  }

  method FirstParentCandidate(log: seq<Line>, cut: int) returns (r: Option<Sha>)
    ensures r == FirstAt(log, cut)
    ensures r.Some? ==> exists i :: FoundAt(log, cut, i) && r.value == log[i].sha
    ensures r.None? ==> forall i :: !FoundAt(log, cut, i)
  {
    for i := 0 to |log|
      invariant forall k :: 0 <= k < i ==> log[k].Commit? && log[k].at > cut
    {
      if log[i].Bad? {
        NothingFound(log, cut, i);
        return None;
      }
      if log[i].at <= cut {
        assert FoundAt(log, cut, i);
        FirstAtIsFound(log, cut, i);
        return Some(log[i].sha);
      }
    }
    NothingFound(log, cut, |log|);
    return None;
  }

  /** What the scan finds, told entry by entry: the newest commit at or before the cutoff with nothing unreadable
      above it; and when it finds none, something unreadable stands above every such commit. */
  lemma FirstIsNewest(log: seq<Line>, cut: int)
    ensures FirstAt(log, cut).Some? ==>
      exists i :: 0 <= i < |log| && log[i].Commit? && log[i].sha == FirstAt(log, cut).value && log[i].at <= cut
        && forall k :: 0 <= k < i ==> log[k].Commit? && cut < log[k].at
    ensures FirstAt(log, cut).None? ==>
      forall i :: 0 <= i < |log| && log[i].Commit? && log[i].at <= cut ==> exists k :: 0 <= k < i && log[k].Bad?
  {
    if FirstAt(log, cut).Some? {
      var i := FoundByFirstAt(log, cut);
    } else {
      forall i | 0 <= i < |log| && log[i].Commit? && log[i].at <= cut ensures exists k :: 0 <= k < i && log[k].Bad? {
        BadAbove(log, cut, i);
      }
    }
  }

  lemma {:induction false} BadAbove(log: seq<Line>, cut: int, i: nat)
    requires FirstAt(log, cut).None? && i < |log| && log[i].Commit? && log[i].at <= cut
    ensures exists k :: 0 <= k < i && log[k].Bad?
  {
    if !log[0].Bad? {
      BadAbove(log[1..], cut, i - 1);
      var k :| 0 <= k < i - 1 && log[1..][k].Bad?;
      assert log[k + 1].Bad?;
    }
  }

  lemma NothingFound(log: seq<Line>, cut: int, n: int)
    requires 0 <= n <= |log| && (n < |log| ==> log[n].Bad?)
    requires forall k :: 0 <= k < n ==> log[k].Commit? && log[k].at > cut
    ensures FirstAt(log, cut).None?
    ensures forall i :: !FoundAt(log, cut, i)
  {
    if FirstAt(log, cut).Some? {
      var i := FoundByFirstAt(log, cut);
    }
  }

  lemma {:induction false} SomethingFound(log: seq<Line>, cut: int, k: int) returns (i: int)
    requires 0 <= k < |log| && log[k].Commit? && log[k].at <= cut
    requires forall j :: 0 <= j < |log| ==> log[j].Commit?
    ensures FoundAt(log, cut, i) && i <= k
    ensures FirstAt(log, cut) == Some(log[i].sha)
  {
    i := 0;
    while log[i].at > cut
      invariant 0 <= i <= k
      decreases k - i
      invariant forall j :: 0 <= j < i ==> log[j].at > cut
    {
      i := i + 1;
    }
    FirstAtIsFound(log, cut, i);
  }

  /** A branch that only grows at its head, read again at the same or a later cutoff, never answers an
      older commit. Commit times need not rise along the branch. */
  lemma CandidateNeverStepsBack(anc: Order, log: seq<Line>, more: seq<Line>, cut: int, later: int)
    requires Trunk(anc, more + log) && cut <= later && FirstAt(log, cut).Some?
    ensures FirstAt(more + log, later).Some?
    ensures anc(FirstAt(log, cut).value, FirstAt(more + log, later).value)
  {
    var k := FoundByFirstAt(log, cut);
    var all := more + log;
    assert all[|more| + k] == log[k];
    var i := SomethingFound(all, later, |more| + k);
    assert Follows(anc, all[|more| + k], all[i]);
  }

  datatype Target = AtCutoff | Tip | Named(commit: Option<Sha>)

  datatype Outcome = OffDev | Current | Promote | Diverged

  datatype Plan = Plan(outcome: Outcome, candidate: Option<Sha>, staging: Sha)

  function Classify(anc: Order, candidate: Sha, staging: Sha, dev: Sha): Outcome {
    if !anc(candidate, dev) then OffDev
    else if anc(staging, candidate) then if staging == candidate then Current else Promote
    else if anc(candidate, staging) then Current
    else Diverged
  }

  function Candidate(target: Target, log: seq<Line>, cut: int, dev: Sha): Option<Sha> {
    match target
    case AtCutoff => FirstAt(log, cut)
    case Tip => Some(dev)
    case Named(commit) => commit
  }

  function PlanOf(anc: Order, target: Target, log: seq<Line>, cut: int, staging: Sha, dev: Sha): Plan {
    match Candidate(target, log, cut, dev)
    case None => Plan(OffDev, None, staging)
    case Some(c) => Plan(Classify(anc, c, staging, dev), Some(c), staging)
  }

  /** A plan, or the fault that stops it: an unreadable ref, a bad cutoff, or an unreadable change list. */
  method PlanPromotion(anc: Order, staging: Option<Sha>, main: Option<Sha>, dev: Option<Sha>, target: Target,
                       cut: Result, log: seq<Line>, listReads: bool) returns (r: Option<Plan>)
    ensures r.None? <==> (
      || staging.None? || main.None? || dev.None? || (target.AtCutoff? && cut.Err?)
      || (!listReads && PlanOf(anc, target, log, CutIn(cut), staging.value, dev.value).outcome.Promote?))
    ensures r.Some? ==> r.value == PlanOf(anc, target, log, CutIn(cut), staging.value, dev.value)
    ensures r.Some? ==> r.value.staging == staging.value && (r.value.outcome == Promote ==> listReads)
    ensures r.Some? && target.Tip? ==> r.value.candidate == dev
    ensures r.Some? && target.Named? ==> r.value.candidate == target.commit
    ensures r.Some? && target.AtCutoff? && r.value.candidate.None? ==>
      forall i :: 0 <= i < |log| && log[i].Commit? && log[i].at <= cut.cut ==> exists k :: 0 <= k < i && log[k].Bad?
    ensures r.Some? && target.AtCutoff? && r.value.candidate.Some? ==>
      exists i :: 0 <= i < |log| && log[i].Commit? && log[i].sha == r.value.candidate.value && log[i].at <= cut.cut
        && forall k :: 0 <= k < i ==> log[k].Commit? && cut.cut < log[k].at
    ensures r.Some? && r.value.candidate.None? ==> r.value.outcome == OffDev
    ensures r.Some? && r.value.candidate.Some? && IsOrder(anc) ==> (
      var c, at := r.value.candidate.value, staging.value;
      && (r.value.outcome == OffDev <==> !anc(c, dev.value))
      && (r.value.outcome == Promote <==> anc(c, dev.value) && anc(at, c) && at != c)
      && (r.value.outcome == Current <==> anc(c, dev.value) && anc(c, at))
      && (r.value.outcome == Diverged <==> anc(c, dev.value) && !anc(c, at) && !anc(at, c)))
    ensures r.None? && staging.Some? && main.Some? && dev.Some? && !(target.AtCutoff? && cut.Err?) ==> (
      && !listReads
      && exists c :: anc(c, dev.value) && anc(staging.value, c) && staging.value != c
           && (target.Tip? ==> c == dev.value) && (target.Named? ==> target.commit == Some(c)))
  {
    if staging.None? || main.None? || dev.None? {
      return None;
    }
    var plan := Plan(OffDev, None, staging.value);
    match target {
      case AtCutoff =>
        if cut.Err? {
          return None;
        }
        var found := FirstParentCandidate(log, cut.cut);
        FirstIsNewest(log, cut.cut);
        plan := plan.(candidate := found);
      case Tip =>
        plan := plan.(candidate := dev);
      case Named(commit) =>
        plan := plan.(candidate := commit);
    }
    if plan.candidate.None? {
      return Some(plan);
    }
    var candidate := plan.candidate.value;
    if !anc(candidate, dev.value) {
      return Some(plan);
    }
    if anc(staging.value, candidate) {
      if staging.value == candidate {
        plan := plan.(outcome := Current);
      } else {
        plan := plan.(outcome := Promote);
        if !listReads {
          return None;
        }
      }
    } else if anc(candidate, staging.value) {
      plan := plan.(outcome := Current);
    } else {
      plan := plan.(outcome := Diverged);
    }
    return Some(plan);
  }

  function CutIn(cut: Result): int { if cut.Ok? then cut.cut else 0 }

  /** The second look, after the check has run, at freshly fetched refs. */
  method Recheck(anc: Order, candidate: Sha, dev: Sha, staging: Sha) returns (r: Outcome)
    ensures r == Classify(anc, candidate, staging, dev)
    ensures IsOrder(anc) ==> (
      && (r == OffDev <==> !anc(candidate, dev))
      && (r == Promote <==> anc(candidate, dev) && anc(staging, candidate) && staging != candidate)
      && (r == Current <==> anc(candidate, dev) && anc(candidate, staging))
      && (r == Diverged <==> anc(candidate, dev) && !anc(candidate, staging) && !anc(staging, candidate)))
  {
    r := Diverged;
    if !anc(candidate, dev) {
      r := OffDev;
    } else if anc(staging, candidate) {
      if staging == candidate {
        r := Current;
      } else {
        r := Promote;
      }
    } else if anc(candidate, staging) {
      r := Current;
    }
  }

  /** Each outcome told from the order alone: on dev or not, and strictly ahead of staging, at or behind it, or
      neither. */
  lemma OutcomesAreTheOrder(anc: Order, c: Sha, staging: Sha, dev: Sha)
    requires IsOrder(anc)
    ensures Classify(anc, c, staging, dev) == OffDev <==> !anc(c, dev)
    ensures Classify(anc, c, staging, dev) == Promote <==> anc(c, dev) && anc(staging, c) && staging != c
    ensures Classify(anc, c, staging, dev) == Current <==> anc(c, dev) && anc(c, staging)
    ensures Classify(anc, c, staging, dev) == Diverged <==> anc(c, dev) && !anc(c, staging) && !anc(staging, c)
  {
  }

  /** What a plan to promote still says when only dev has moved on, and once its own push has landed. */
  lemma PromoteHolds(anc: Order, candidate: Sha, staging: Sha, dev: Sha, newDev: Sha)
    requires IsOrder(anc) && anc(dev, newDev) && Classify(anc, candidate, staging, dev) == Promote
    ensures Classify(anc, candidate, staging, newDev) == Promote
    ensures Classify(anc, candidate, candidate, newDev) == Current
  {
  }

  /** With two commits of one line, the outcome only says which is ahead. */
  lemma OneLineNeverDiverges(anc: Order, log: seq<Line>, i: int, j: int)
    requires Trunk(anc, log) && 0 <= i < |log| && 0 <= j < |log|
    ensures Classify(anc, log[i].sha, log[j].sha, log[0].sha) in {Current, Promote}
  {
    assert Follows(anc, log[i], log[0]);
    if i <= j {
      assert Follows(anc, log[j], log[i]);
    } else {
      assert Follows(anc, log[i], log[j]);
    }
  }

  datatype Check = Success | Failure | Cancelled | Skipped

  datatype Phase = AtPlan | AtCheck

  datatype Decision = Report(phase: Phase, success: bool) | GoAhead

  /** decidePromotion: a push needs a plan to promote, a check that passed, a real run and a token. */
  function Decide(outcome: Outcome, check: Check, dry: bool, tokenSet: bool): (d: Decision)
    ensures d == GoAhead <==> outcome == Promote && check == Success && !dry && tokenSet
    ensures d.Report? && d.success <==> outcome == Current || (outcome == Promote && check == Success && dry)
    ensures d.Report? && d.phase == AtCheck <==> outcome == Promote && (check != Success || dry || !tokenSet)
  {
    if outcome != Promote then Report(AtPlan, outcome == Current)
    else if check != Success then Report(AtCheck, false)
    else if dry then Report(AtCheck, true)
    else if !tokenSet then Report(AtCheck, false)
    else GoAhead
  }
}
