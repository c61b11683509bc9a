/** Waiting for the build of a pushed commit: which release run speaks for this push. */
module ReleaseState {
  import opened Wrappers

  datatype Run = Run(sha: string, created: Option<int>, attempt: int, completed: bool, conclusion: string, id: int)

  datatype State = Absent | Pending(run: Run) | Finished(run: Run, conclusion: string)

  const GRACE := 120

  /** A run of this commit made no earlier than two minutes before the push. */
  predicate Counts(r: Run, sha: string, pushedAt: int) {
    r.sha == sha && r.created.Some? && r.created.value >= pushedAt - GRACE
  }

  predicate Newer(a: Run, b: Run)
    requires a.created.Some? && b.created.Some?
  {
    a.created.value > b.created.value || (a.created == b.created && a.attempt > b.attempt)
  }

  /** Run n is the newest of the first i that count, the first of its equals. */
  predicate Newest(runs: seq<Run>, i: nat, sha: string, pushedAt: int, n: nat) {
    && n < i <= |runs| && Counts(runs[n], sha, pushedAt)
    && (forall k :: 0 <= k < i && Counts(runs[k], sha, pushedAt) ==> !Newer(runs[k], runs[n]))
    && (forall k :: 0 <= k < n && Counts(runs[k], sha, pushedAt) ==> Newer(runs[n], runs[k]))
  }

  predicate NoneCounts(runs: seq<Run>, i: nat, sha: string, pushedAt: int) {
    i <= |runs| && forall k :: 0 <= k < i ==> !Counts(runs[k], sha, pushedAt)
  }

  function StateOf(r: Run): State { if r.completed then Finished(r, r.conclusion) else Pending(r) }

  predicate Unreadable(r: Run, sha: string) { r.sha == sha && r.created.None? }

  /** None is the error for a run of this commit whose date does not parse, old or new. */
  method ClassifyRelease(runs: seq<Run>, sha: string, pushedAt: int) returns (r: Option<State>)
    ensures r.None? <==> exists k :: 0 <= k < |runs| && Unreadable(runs[k], sha)
    ensures r == Some(Absent) ==> NoneCounts(runs, |runs|, sha, pushedAt)
    ensures r.Some? && r.value != Absent ==> exists n: nat :: Newest(runs, |runs|, sha, pushedAt, n) && r.value == StateOf(runs[n])
    ensures r == Some(Absent) ==>
              forall k :: 0 <= k < |runs| && runs[k].sha == sha ==> runs[k].created.Some? && runs[k].created.value < pushedAt - 120
    ensures r.Some? && r.value != Absent ==>
              && r.value.run in runs && r.value.run.sha == sha
              && r.value.run.created.Some? && pushedAt - 120 <= r.value.run.created.value
              && (r.value.Finished? <==> r.value.run.completed)
              && (r.value.Finished? ==> r.value.conclusion == r.value.run.conclusion)
    ensures r.Some? && r.value != Absent ==>
              forall k :: 0 <= k < |runs| && runs[k].sha == sha && runs[k].created.Some? ==>
                && runs[k].created.value <= r.value.run.created.value
                && (runs[k].created == r.value.run.created ==> runs[k].attempt <= r.value.run.attempt)
  {
    var newest := -1;
    for i := 0 to |runs|
      invariant forall k :: 0 <= k < i ==> !Unreadable(runs[k], sha)
      invariant -1 <= newest < i
      invariant newest == -1 ==> NoneCounts(runs, i, sha, pushedAt)
      invariant newest >= 0 ==> Newest(runs, i, sha, pushedAt, newest)
    {
      if runs[i].sha != sha {
        continue;
      }
      if runs[i].created.None? {
        assert Unreadable(runs[i], sha);
        return None;
      }
      if runs[i].created.value < pushedAt - GRACE {
        continue;
      }
      if newest == -1 || Newer(runs[i], runs[newest]) {
        newest := i;
      }
    }
    if newest == -1 {
      AbsentTold(runs, sha, pushedAt);
      return Some(Absent);
    }
    NewestTold(runs, sha, pushedAt, newest);
    return Some(StateOf(runs[newest]));
  }

  lemma AbsentTold(runs: seq<Run>, sha: string, pushedAt: int)
    requires NoneCounts(runs, |runs|, sha, pushedAt) && forall k :: 0 <= k < |runs| ==> !Unreadable(runs[k], sha)
    ensures forall k :: 0 <= k < |runs| && runs[k].sha == sha ==> runs[k].created.Some? && runs[k].created.value < pushedAt - 120
  {
    forall k | 0 <= k < |runs| && runs[k].sha == sha
      ensures runs[k].created.Some? && runs[k].created.value < pushedAt - 120
    {
      assert !Counts(runs[k], sha, pushedAt) && !Unreadable(runs[k], sha);
    }
  }

  lemma NewestTold(runs: seq<Run>, sha: string, pushedAt: int, n: nat)
    requires Newest(runs, |runs|, sha, pushedAt, n)
    ensures forall k :: 0 <= k < |runs| && runs[k].sha == sha && runs[k].created.Some? ==>
              && runs[k].created.value <= runs[n].created.value
              && (runs[k].created == runs[n].created ==> runs[k].attempt <= runs[n].attempt)
  {
    forall k | 0 <= k < |runs| && runs[k].sha == sha && runs[k].created.Some?
      ensures runs[k].created.value <= runs[n].created.value
      ensures runs[k].created == runs[n].created ==> runs[k].attempt <= runs[n].attempt
    {
      if Counts(runs[k], sha, pushedAt) {
        assert !Newer(runs[k], runs[n]);
      }
    }
  }

  /** Only one run can be the newest, so the answer is settled by the list alone. */
  lemma OnlyOneNewest(runs: seq<Run>, sha: string, pushedAt: int, m: nat, n: nat)
    requires Newest(runs, |runs|, sha, pushedAt, m) && Newest(runs, |runs|, sha, pushedAt, n)
    ensures m == n
  {
  }
}
