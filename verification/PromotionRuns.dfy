/** Overlapping promotion runs over one staging pointer, while dev advances and others move staging. */
module PromotionRuns {
  import opened Cutoff
  import opened Promotion
  import opened Wrappers

  datatype Setup = Setup(anc: Order, weekly: Weekly)

  datatype Stage = Planned | Checked | Allowed | Cleared | Over

  /** A run keeps what its plan was made from: the target, the cutoff and the log it read. */
  datatype Run = Run(target: Target, now: int, log: seq<Line>, plan: Plan, dry: bool, tokenSet: bool, check: Check, stage: Stage)

  datatype Push = Push(run: nat, source: Sha, to: Sha)

  datatype World = World(log: seq<Line>, staging: Sha, now: int, runs: seq<Run>, pushes: seq<Push>)

  datatype Step =
    | DevAdvances(log: seq<Line>)
    | StagingMoves(to: Sha)
    | Start(now: int, target: Target, dry: bool, tokenSet: bool)
    | CheckEnds(run: nat, result: Check)
    | Decides(run: nat)
    | Rechecks(run: nat)
    | Pushes(run: nat)

  ghost predicate Good(s: Setup, w: World) {
    IsOrder(s.anc) && Set(s.weekly) && Trunk(s.anc, w.log)
  }

  function Dev(w: World): Sha
    requires |w.log| > 0 && w.log[0].Commit?
  {
    w.log[0].sha
  }

  function With(w: World, i: nat, r: Run): World
    requires i < |w.runs|
  {
    w.(runs := w.runs[i := r])
  }

  /** dev only moves to descendants: its head is what a push to dev may fast-forward. */
  ghost predicate DevMayBecome(s: Setup, w: World, log: seq<Line>)
    requires Good(s, w)
  {
    Trunk(s.anc, log) && s.anc(Dev(w), log[0].sha)
  }

  function Begin(s: Setup, w: World, now: int, target: Target, dry: bool, tokenSet: bool): World
    requires |w.log| > 0 && w.log[0].Commit?
  {
    var plan := PlanOf(s.anc, target, w.log, CutoffOf(s.weekly, now), w.staging, Dev(w));
    w.(now := now, runs := w.runs + [Run(target, now, w.log, plan, dry, tokenSet, Skipped, Planned)])
  }

  function Decided(r: Run): Run {
    r.(stage := if Decide(r.plan.outcome, r.check, r.dry, r.tokenSet) == GoAhead then Allowed else Over)
  }

  function Rechecked(s: Setup, w: World, r: Run): Run
    requires r.plan.candidate.Some? && |w.log| > 0 && w.log[0].Commit?
  {
    r.(stage := if Classify(s.anc, r.plan.candidate.value, w.staging, Dev(w)) == Promote then Cleared else Over)
  }

  /** The server takes an unforced push when the pointer's commit is an ancestor of the new one, and
      records a move when they differ. */
  function Pushed(s: Setup, w: World, i: nat): World
    requires i < |w.runs| && w.runs[i].plan.candidate.Some?
  {
    var to := w.runs[i].plan.candidate.value;
    var over := With(w, i, w.runs[i].(stage := Over));
    if s.anc(w.staging, to) && w.staging != to then
      over.(staging := to, pushes := w.pushes + [Push(i, w.staging, to)])
    else
      over
  }

  predicate Ready(w: World, i: nat, stage: Stage) {
    i < |w.runs| && w.runs[i].stage == stage && (stage in {Allowed, Cleared} ==> w.runs[i].plan.candidate.Some?)
  }

  /** One step, or None where the step is not possible. The check runs only on a plan to promote. */
  ghost function Next(s: Setup, w: World, step: Step): (r: Option<World>)
    requires Good(s, w)
    ensures r.Some? ==> Good(s, r.value)
  {
    match step
    case DevAdvances(log) => if DevMayBecome(s, w, log) then Some(w.(log := log)) else None
    case StagingMoves(to) => Some(w.(staging := to))
    case Start(now, target, dry, tokenSet) =>
      if w.now <= now then Some(Begin(s, w, now, target, dry, tokenSet)) else None
    case CheckEnds(i, result) =>
      if Ready(w, i, Planned) && (w.runs[i].plan.outcome == Promote || result == Skipped)
      then Some(With(w, i, w.runs[i].(check := result, stage := Checked))) else None
    case Decides(i) => if Ready(w, i, Checked) then Some(With(w, i, Decided(w.runs[i]))) else None
    case Rechecks(i) => if Ready(w, i, Allowed) then Some(With(w, i, Rechecked(s, w, w.runs[i]))) else None
    case Pushes(i) => if Ready(w, i, Cleared) then Some(Pushed(s, w, i)) else None
  }

  ghost function Exec(s: Setup, w: World, steps: seq<Step>): (r: Option<World>)
    requires Good(s, w)
    ensures r.Some? ==> Good(s, r.value)
    decreases |steps|
  {
    if steps == [] then Some(w)
    else var n := Next(s, w, steps[0]); if n.None? then None else Exec(s, n.value, steps[1..])
  }

  // ---- what each step of a run comes to, told by the order

  /** A new run keeps the log it read; its plan is about the tip, the commit named, or the newest at or before the latest
      weekly mark, and its outcome is how that commit stands to dev and to staging. */
  lemma StartTold(s: Setup, w: World, now: int, target: Target, dry: bool, tokenSet: bool)
    requires Good(s, w) && w.now <= now
    ensures var n := Next(s, w, Start(now, target, dry, tokenSet));
      && n.Some? && |n.value.runs| == |w.runs| + 1 && n.value.runs[..|w.runs|] == w.runs
      && n.value == w.(now := now, runs := n.value.runs)
      && var r := n.value.runs[|w.runs|];
         && r.log == w.log && r.dry == dry && r.tokenSet == tokenSet && r.stage == Planned && r.check != Success
         && (target == Tip ==> r.plan.candidate == Some(Dev(w)))
         && (target.Named? ==> r.plan.candidate == target.commit)
         && (target == AtCutoff ==> ChosenAt(s, w, now, r.plan.candidate))
         && (r.plan.candidate == None ==> r.plan.outcome == OffDev)
         && (r.plan.candidate.Some? ==> StandsAs(s.anc, r.plan.candidate.value, w.staging, Dev(w), r.plan.outcome))
  {
    CutoffIsLatestMark(s.weekly, now);
    var cut := CutoffOf(s.weekly, now);
    FirstIsNewest(w.log, cut);
    var c := Candidate(target, w.log, cut, Dev(w));
    if c.Some? {
      OutcomesAreTheOrder(s.anc, c.value, w.staging, Dev(w));
    }
    if target == AtCutoff {
      NoneBad(s, w);
      assert ChosenAt(s, w, now, c);
    }
  }

  lemma NoneBad(s: Setup, w: World)
    requires Good(s, w)
    ensures forall i :: 0 <= i < |w.log| ==> !w.log[i].Bad?
  {
  }

  /** The newest commit of the log at or before the latest weekly mark that has passed, if there is one. */
  ghost predicate ChosenAt(s: Setup, w: World, now: int, c: Option<Sha>) {
    exists cut ::
      && LatestMark(s.weekly, now, cut)
      && (c == None ==> forall i :: 0 <= i < |w.log| && w.log[i].Commit? ==> cut < w.log[i].at)
      && (c.Some? ==> exists i :: FoundAt(w.log, cut, i) && w.log[i].sha == c.value)
  }

  /** How a commit stands to staging and dev. */
  predicate StandsAs(anc: Order, c: Sha, staging: Sha, dev: Sha, outcome: Outcome) {
    && (outcome == OffDev <==> !anc(c, dev))
    && (outcome == Promote <==> anc(c, dev) && anc(staging, c) && staging != c)
    && (outcome == Current <==> anc(c, dev) && anc(c, staging))
    && (outcome == Diverged <==> anc(c, dev) && !anc(c, staging) && !anc(staging, c))
  }

  /** A check ends on a planned run: as it may when the plan is to promote, and only as skipped when it is not. */
  lemma CheckTold(s: Setup, w: World, i: nat, result: Check)
    requires Good(s, w) && i < |w.runs|
    ensures var r := w.runs[i];
      Next(s, w, CheckEnds(i, result)) ==
      if r.stage == Planned && (r.plan.outcome == Promote || result == Skipped)
      then Some(w.(runs := w.runs[i := r.(check := result, stage := Checked)])) else None
  {
  }

  /** A checked run goes on exactly with a plan to promote, a check that passed, a real run and a token. */
  lemma DecideTold(s: Setup, w: World, i: nat)
    requires Good(s, w) && i < |w.runs| && w.runs[i].stage == Checked
    ensures var r := w.runs[i];
      Next(s, w, Decides(i)) == Some(w.(runs := w.runs[i := r.(stage :=
        if r.plan.outcome == Promote && r.check == Success && !r.dry && r.tokenSet then Allowed else Over)]))
  {
  }

  /** Others move staging anywhere, and dev to a longer log of its line. */
  lemma OthersMove(s: Setup, w: World, to: Sha, log: seq<Line>)
    requires Good(s, w)
    ensures Next(s, w, StagingMoves(to)) == Some(w.(staging := to))
    ensures Trunk(s.anc, log) && s.anc(w.log[0].sha, log[0].sha) <==> Next(s, w, DevAdvances(log)) == Some(w.(log := log))
    ensures Next(s, w, DevAdvances(log)).Some? ==> Next(s, w, DevAdvances(log)) == Some(w.(log := log))
  {
  }

  /** The second look lets a run push exactly when its commit is on dev as dev is now and strictly ahead of staging as
      staging is now; it changes nothing but where the run stands. */
  lemma RecheckTold(s: Setup, w: World, i: nat)
    requires Good(s, w) && Ready(w, i, Allowed)
    ensures var n, c := Next(s, w, Rechecks(i)), w.runs[i].plan.candidate.value;
      n == Some(With(w, i, w.runs[i].(stage :=
        if s.anc(c, Dev(w)) && s.anc(w.staging, c) && w.staging != c then Cleared else Over)))
  {
    OutcomesAreTheOrder(s.anc, w.runs[i].plan.candidate.value, w.staging, Dev(w));
  }

  /** A push moves staging to the run's commit when staging is behind it, and is recorded when it moves; otherwise nothing
      happens but that the run is over. */
  lemma PushTold(s: Setup, w: World, i: nat)
    requires Good(s, w) && Ready(w, i, Cleared)
    ensures var n, to := Next(s, w, Pushes(i)), w.runs[i].plan.candidate.value;
      && n.Some? && n.value.runs == w.runs[i := w.runs[i].(stage := Over)] && n.value.log == w.log && n.value.now == w.now
      && n.value.staging == (if s.anc(w.staging, to) then to else w.staging)
      && n.value.pushes == (if s.anc(w.staging, to) && w.staging != to then w.pushes + [Push(i, w.staging, to)] else w.pushes)
  {
  }

  // ---- what a push stands on

  predicate Gate(r: Run) {
    r.plan.outcome == Promote && r.check == Success && !r.dry && r.tokenSet
  }

  predicate RunOk(anc: Order, dev: Sha, r: Run) {
    && (r.plan.outcome == Promote ==> r.plan.candidate.Some? && anc(r.plan.candidate.value, dev))
    && (r.stage in {Allowed, Cleared} ==> Gate(r))
  }

  predicate PushOk(anc: Order, dev: Sha, runs: seq<Run>, p: Push) {
    && p.run < |runs| && Gate(runs[p.run]) && runs[p.run].stage == Over
    && runs[p.run].plan.candidate == Some(p.to)
    && anc(p.source, p.to) && p.source != p.to && anc(p.to, dev)
  }

  predicate RunsOk(anc: Order, dev: Sha, runs: seq<Run>) {
    forall i :: 0 <= i < |runs| ==> RunOk(anc, dev, runs[i])
  }

  predicate PushesOk(anc: Order, dev: Sha, runs: seq<Run>, pushes: seq<Push>) {
    && (forall k :: 0 <= k < |pushes| ==> PushOk(anc, dev, runs, pushes[k]))
    && (forall j, k :: 0 <= j < k < |pushes| ==> pushes[j].run != pushes[k].run)
  }

  ghost predicate Safe(s: Setup, w: World)
    requires Good(s, w)
  {
    RunsOk(s.anc, Dev(w), w.runs) && PushesOk(s.anc, Dev(w), w.runs, w.pushes)
  }

  lemma SafeWhenARunPushes(s: Setup, w: World, i: nat)
    requires Good(s, w) && Safe(s, w) && Ready(w, i, Cleared)
    ensures Safe(s, Pushed(s, w, i))
  {
    assert RunOk(s.anc, Dev(w), w.runs[i]);
  }

  lemma SafeStep(s: Setup, w: World, step: Step)
    requires Good(s, w) && Safe(s, w) && Next(s, w, step).Some?
    ensures Safe(s, Next(s, w, step).value)
  {
    if step.Pushes? {
      SafeWhenARunPushes(s, w, step.run);
    }
  }

  lemma NoRunsIsSafe(s: Setup, w: World)
    requires Good(s, w) && w.runs == [] && w.pushes == []
    ensures Safe(s, w)
  {
  }

  /** Over every interleaving: each move a run made of staging had a plan to promote, a check that
      passed, a real run and a token; it went to a strict descendant that is on dev; and no run made two. */
  lemma {:induction false} EveryPushIsEarned(s: Setup, w: World, steps: seq<Step>)
    requires Good(s, w) && Safe(s, w) && Exec(s, w, steps).Some?
    ensures Safe(s, Exec(s, w, steps).value)
    decreases |steps|
  {
    if steps != [] {
      SafeStep(s, w, steps[0]);
      EveryPushIsEarned(s, Next(s, w, steps[0]).value, steps[1..]);
    }
  }

  /** While only runs move staging it never steps back, whatever dev and the runs do. */
  lemma {:induction false} StagingOnlyMovesForward(s: Setup, w: World, steps: seq<Step>)
    requires Good(s, w) && Exec(s, w, steps).Some?
    requires forall k :: 0 <= k < |steps| ==> !steps[k].StagingMoves?
    ensures s.anc(w.staging, Exec(s, w, steps).value.staging)
    decreases |steps|
  {
    if steps != [] {
      var n := Next(s, w, steps[0]).value;
      assert !steps[0].StagingMoves?;
      assert s.anc(w.staging, n.staging);
      StagingOnlyMovesForward(s, n, steps[1..]);
    }
  }

  /** Between a plan to promote and its push, dev may have moved on and other runs may have finished:
      with staging where the plan saw it, the second look still says promote, and the push lands. */
  lemma PlanThenPush(s: Setup, w: World, i: nat, dev: Sha)
    requires Good(s, w) && Ready(w, i, Allowed) && s.anc(dev, Dev(w))
    requires Classify(s.anc, w.runs[i].plan.candidate.value, w.staging, dev) == Promote
    ensures var c := With(w, i, w.runs[i].(stage := Cleared));
      Next(s, w, Rechecks(i)) == Some(c) && Next(s, c, Pushes(i)).Some? &&
      Next(s, c, Pushes(i)).value.staging == w.runs[i].plan.candidate.value
  {
    PromoteHolds(s.anc, w.runs[i].plan.candidate.value, w.staging, dev, Dev(w));
  }

  // ---- a line that only grows, and staging moved only along it

  ghost predicate Within(part: seq<Line>, log: seq<Line>) {
    |part| <= |log| && part == log[|log| - |part|..]
  }

  predicate OnLine(sha: Sha, log: seq<Line>) {
    exists i :: 0 <= i < |log| && IsAt(log[i], sha)
  }

  predicate IsAt(l: Line, sha: Sha) { l.Commit? && l.sha == sha }

  /** dev grows at its head; staging is moved by nobody else; and nobody names a commit by hand. */
  ghost predicate Plain(w: World, step: Step) {
    match step
    case DevAdvances(log) => Within(w.log, log)
    case StagingMoves(to) => false
    case Start(now, target, dry, tokenSet) => target == AtCutoff || target == Tip
    case _ => true
  }

  ghost predicate PlainRun(s: Setup, w: World, steps: seq<Step>)
    requires Good(s, w)
    decreases |steps|
  {
    steps == [] || (
      Plain(w, steps[0]) && Next(s, w, steps[0]).Some? && PlainRun(s, Next(s, w, steps[0]).value, steps[1..]))
  }

  /** How a run stands to the line now: it read an earlier stretch of it, and its candidate came from there. */
  ghost predicate Aligned(s: Setup, log: seq<Line>, now: int, r: Run) {
    && Trunk(s.anc, r.log) && Within(r.log, log) && r.now <= now
    && (r.target == AtCutoff || r.target == Tip)
    && (r.target == AtCutoff ==> r.plan.candidate == FirstAt(r.log, CutoffOf(s.weekly, r.now)))
    && (r.plan.candidate.Some? ==> OnLine(r.plan.candidate.value, r.log))
    && (r.plan.candidate.None? ==> r.plan.outcome == OffDev)
    && (r.plan.candidate.Some? ==> r.plan.outcome in {Current, Promote})
  }

  ghost predicate AlignedRuns(s: Setup, log: seq<Line>, now: int, runs: seq<Run>) {
    && (forall i :: 0 <= i < |runs| ==> Aligned(s, log, now, runs[i]))
    && (forall i, j :: 0 <= i < j < |runs| ==> Before(runs[i], runs[j]))
  }

  ghost predicate Before(a: Run, b: Run) { Within(a.log, b.log) && a.now <= b.now }

  ghost predicate OneLine(s: Setup, w: World)
    requires Good(s, w)
  {
    OnLine(w.staging, w.log) && AlignedRuns(s, w.log, w.now, w.runs)
  }

  lemma StillOnLine(sha: Sha, part: seq<Line>, log: seq<Line>)
    requires Within(part, log) && OnLine(sha, part)
    ensures OnLine(sha, log)
  {
    var i :| 0 <= i < |part| && IsAt(part[i], sha);
    assert IsAt(log[|log| - |part| + i], sha);
  }

  lemma OneLineWhenDevGrows(s: Setup, w: World, log: seq<Line>)
    requires Good(s, w) && OneLine(s, w) && Trunk(s.anc, log) && Within(w.log, log)
    ensures OneLine(s, w.(log := log))
  {
    StillOnLine(w.staging, w.log, log);
    forall i | 0 <= i < |w.runs| ensures Aligned(s, log, w.now, w.runs[i]) {
      assert Aligned(s, w.log, w.now, w.runs[i]);
    }
  }

  /** On a line that holds staging, a plan for the cutoff or the tip is never diverged, and it is off dev
      only when the log has nothing at or before the cutoff. */
  lemma PlanOnALine(s: Setup, w: World, target: Target, cut: int) returns (r: Plan)
    requires Good(s, w) && OnLine(w.staging, w.log) && (target == AtCutoff || target == Tip)
    ensures r == PlanOf(s.anc, target, w.log, cut, w.staging, Dev(w))
    ensures r.outcome != Diverged
    ensures r.outcome == OffDev <==> target == AtCutoff && forall k :: 0 <= k < |w.log| ==> w.log[k].at > cut
    ensures r.outcome == OffDev <==> r.candidate.None?
    ensures r.candidate.Some? ==> OnLine(r.candidate.value, w.log)
  {
    r := PlanOf(s.anc, target, w.log, cut, w.staging, Dev(w));
    var j :| 0 <= j < |w.log| && IsAt(w.log[j], w.staging);
    var i := 0;
    if target == AtCutoff {
      if FirstAt(w.log, cut).None? {
        forall k | 0 <= k < |w.log| ensures w.log[k].at > cut {
          if w.log[k].at <= cut {
            var x := SomethingFound(w.log, cut, k);
          }
        }
        return;
      }
      i := FoundByFirstAt(w.log, cut);
    }
    assert IsAt(w.log[i], w.log[i].sha);
    OneLineNeverDiverges(s.anc, w.log, i, j);
  }

  lemma OneLineWhenARunStarts(s: Setup, w: World, now: int, target: Target, dry: bool, tokenSet: bool)
    requires Good(s, w) && OneLine(s, w) && w.now <= now && (target == AtCutoff || target == Tip)
    ensures OneLine(s, Begin(s, w, now, target, dry, tokenSet))
  {
    var v := Begin(s, w, now, target, dry, tokenSet);
    var n := |w.runs|;
    var plan := PlanOnALine(s, w, target, CutoffOf(s.weekly, now));
    assert Aligned(s, w.log, now, v.runs[n]);
    AlignedWithOneMore(s, w.log, w.now, w.runs, now, v.runs[n]);
  }

  lemma AlignedWithOneMore(s: Setup, log: seq<Line>, now: int, runs: seq<Run>, later: int, r: Run)
    requires AlignedRuns(s, log, now, runs) && now <= later == r.now && Aligned(s, log, later, r) && r.log == log
    ensures AlignedRuns(s, log, later, runs + [r])
  {
    forall i | 0 <= i < |runs| ensures Aligned(s, log, later, runs[i]) && Before(runs[i], r) {
      assert Aligned(s, log, now, runs[i]);
    }
  }

  lemma OneLineWhenARunMovesOn(s: Setup, w: World, i: nat, check: Check, stage: Stage)
    requires Good(s, w) && OneLine(s, w) && i < |w.runs|
    ensures OneLine(s, With(w, i, w.runs[i].(check := check, stage := stage)))
  {
    var v := With(w, i, w.runs[i].(check := check, stage := stage));
    forall k | 0 <= k < |v.runs| ensures Aligned(s, v.log, v.now, v.runs[k]) {
      assert Aligned(s, w.log, w.now, w.runs[k]);
    }
    forall j, k | 0 <= j < k < |v.runs| ensures Before(v.runs[j], v.runs[k]) {
      assert Before(w.runs[j], w.runs[k]);
    }
  }

  lemma OneLineWhenARunPushes(s: Setup, w: World, i: nat)
    requires Good(s, w) && OneLine(s, w) && Ready(w, i, Cleared)
    ensures OneLine(s, Pushed(s, w, i))
  {
    var r := w.runs[i];
    assert Aligned(s, w.log, w.now, r);
    StillOnLine(r.plan.candidate.value, r.log, w.log);
    OneLineWhenARunMovesOn(s, w, i, r.check, Over);
  }

  lemma OneLineStep(s: Setup, w: World, step: Step)
    requires Good(s, w) && OneLine(s, w) && Plain(w, step) && Next(s, w, step).Some?
    ensures OneLine(s, Next(s, w, step).value)
  {
    match step
    case DevAdvances(log) => OneLineWhenDevGrows(s, w, log);
    case StagingMoves(to) =>
    case Start(now, target, dry, tokenSet) => OneLineWhenARunStarts(s, w, now, target, dry, tokenSet);
    case CheckEnds(i, result) => OneLineWhenARunMovesOn(s, w, i, result, Checked);
    case Decides(i) => OneLineWhenARunMovesOn(s, w, i, w.runs[i].check, Decided(w.runs[i]).stage);
    case Rechecks(i) => OneLineWhenARunMovesOn(s, w, i, w.runs[i].check, Rechecked(s, w, w.runs[i]).stage);
    case Pushes(i) => OneLineWhenARunPushes(s, w, i);
  }

  lemma {:induction false} OneLineAlways(s: Setup, w: World, steps: seq<Step>)
    requires Good(s, w) && OneLine(s, w) && PlainRun(s, w, steps)
    ensures Exec(s, w, steps).Some? && OneLine(s, Exec(s, w, steps).value)
    decreases |steps|
  {
    if steps != [] {
      OneLineStep(s, w, steps[0]);
      OneLineAlways(s, Next(s, w, steps[0]).value, steps[1..]);
    }
  }

  lemma CandidatesRise(s: Setup, a: Run, b: Run)
    requires Set(s.weekly) && Trunk(s.anc, b.log) && Before(a, b)
    requires FirstAt(a.log, CutoffOf(s.weekly, a.now)).Some?
    ensures FirstAt(b.log, CutoffOf(s.weekly, b.now)).Some?
    ensures s.anc(FirstAt(a.log, CutoffOf(s.weekly, a.now)).value, FirstAt(b.log, CutoffOf(s.weekly, b.now)).value)
  {
    CutoffsRise(s.weekly, a.now, b.now);
    var more := b.log[..|b.log| - |a.log|];
    assert b.log == more + a.log;
    CandidateNeverStepsBack(s.anc, a.log, more, CutoffOf(s.weekly, a.now), CutoffOf(s.weekly, b.now));
  }

  ghost predicate Forward(s: Setup, a: Run, b: Run) {
    && a.plan.outcome != Diverged
    && (a.plan.outcome == OffDev <==> FirstAt(a.log, CutoffOf(s.weekly, a.now)).None?)
    && (a.plan.candidate.Some? ==> (
      b.plan.candidate.Some? && s.anc(a.plan.candidate.value, b.plan.candidate.value)))
  }

  /** Weekly runs over a growing line: no plan is diverged, a weekly plan is off dev exactly when its log
      had nothing at or before the cutoff, and each weekly candidate is at or ahead of every earlier one. */
  lemma WeeklyRunsGoForward(s: Setup, w: World, steps: seq<Step>, i: nat, j: nat)
    requires Good(s, w) && OnLine(w.staging, w.log) && w.runs == []
    requires PlainRun(s, w, steps) && Exec(s, w, steps).Some?
    requires var runs := Exec(s, w, steps).value.runs;
      i <= j < |runs| && runs[i].target == runs[j].target == AtCutoff
    ensures var runs := Exec(s, w, steps).value.runs;
      Forward(s, runs[i], runs[j])
  {
    OneLineAlways(s, w, steps);
    var v := Exec(s, w, steps).value;
    assert Aligned(s, v.log, v.now, v.runs[i]) && Aligned(s, v.log, v.now, v.runs[j]);
    if v.runs[i].plan.candidate.Some? && i < j {
      assert Before(v.runs[i], v.runs[j]);
      CandidatesRise(s, v.runs[i], v.runs[j]);
    }
  }

  // ---- when naming a commit by hand is harmless

  lemma ExecStep(s: Setup, w: World, step: Step, n: World, steps: seq<Step>)
    requires Good(s, w) && Next(s, w, step) == Some(n)
    ensures Exec(s, w, [step] + steps) == Exec(s, n, steps)
  {
    assert ([step] + steps)[1..] == steps;
  }

  function ByHand(now: int, x: Sha, i: nat): seq<Step> {
    [Start(now, Named(Some(x)), false, true)] + ([CheckEnds(i, Success)] + ([Decides(i)] + ([Rechecks(i)] + ([Pushes(i)] + []))))
  }

  function Pushing(x: Sha, staging: Sha, now: int, log: seq<Line>, check: Check, stage: Stage): Run {
    Run(Named(Some(x)), now, log, Plan(Promote, Some(x), staging), false, true, check, stage)
  }

  /** The world with one more run at its end. */
  function Plus(w: World, now: int, r: Run): World { w.(now := now, runs := w.runs + [r]) }

  /** A commit that is on dev and ahead of staging, named by hand, is promoted: its run starts, passes its
      check and pushes. */
  lemma NamedIsPromoted(s: Setup, w: World, now: int, x: Sha)
    requires Good(s, w) && w.now <= now && Classify(s.anc, x, w.staging, Dev(w)) == Promote
    ensures Exec(s, w, ByHand(now, x, |w.runs|)) == Some(
      Plus(w, now, Pushing(x, w.staging, now, w.log, Success, Over)).(staging := x, pushes := w.pushes + [Push(|w.runs|, w.staging, x)]))
  {
    var i := |w.runs|;
    var w1 := Plus(w, now, Pushing(x, w.staging, now, w.log, Skipped, Planned));
    var w2 := Plus(w, now, Pushing(x, w.staging, now, w.log, Success, Checked));
    assert Begin(s, w, now, Named(Some(x)), false, true) == w1;
    assert With(w1, i, Pushing(x, w.staging, now, w.log, Success, Checked)) == w2;
    CheckedIsPushed(s, w, now, x);
    ExecStep(s, w1, CheckEnds(i, Success), w2, [Decides(i)] + ([Rechecks(i)] + ([Pushes(i)] + [])));
    ExecStep(s, w, Start(now, Named(Some(x)), false, true), w1,
      [CheckEnds(i, Success)] + ([Decides(i)] + ([Rechecks(i)] + ([Pushes(i)] + []))));
  }

  lemma CheckedIsPushed(s: Setup, w: World, now: int, x: Sha)
    requires Good(s, w) && Classify(s.anc, x, w.staging, Dev(w)) == Promote
    ensures var i := |w.runs|;
      Exec(s, Plus(w, now, Pushing(x, w.staging, now, w.log, Success, Checked)), [Decides(i)] + ([Rechecks(i)] + ([Pushes(i)] + [])))
      == Some(Plus(w, now, Pushing(x, w.staging, now, w.log, Success, Over)).(staging := x, pushes := w.pushes + [Push(i, w.staging, x)]))
  {
    var i := |w.runs|;
    var w2 := Plus(w, now, Pushing(x, w.staging, now, w.log, Success, Checked));
    var w3 := Plus(w, now, Pushing(x, w.staging, now, w.log, Success, Allowed));
    var w4 := Plus(w, now, Pushing(x, w.staging, now, w.log, Success, Cleared));
    var w5 := Plus(w, now, Pushing(x, w.staging, now, w.log, Success, Over)).(staging := x, pushes := w.pushes + [Push(i, w.staging, x)]);
    assert With(w2, i, w3.runs[i]) == w3 && With(w3, i, w4.runs[i]) == w4;
    assert With(w4, i, w5.runs[i]) == Plus(w, now, w5.runs[i]);
    ExecStep(s, w4, Pushes(i), w5, []);
    ExecStep(s, w3, Rechecks(i), w4, [Pushes(i)] + []);
    ExecStep(s, w2, Decides(i), w3, [Rechecks(i)] + ([Pushes(i)] + []));
  }

  predicate Comparable(anc: Order, a: Sha, b: Sha) { anc(a, b) || anc(b, a) }

  /** The weekly plan of some moment, on the line as it is or with more at its head. */
  function WeeklyPlan(s: Setup, log: seq<Line>, more: seq<Line>, t: int, staging: Sha): Plan
    requires |more + log| > 0 && (more + log)[0].Commit?
  {
    PlanOf(s.anc, AtCutoff, more + log, CutoffOf(s.weekly, t), staging, (more + log)[0].sha)
  }

  /** With staging here, no weekly plan from now on is diverged, however the line grows. */
  ghost predicate NeverDiverges(s: Setup, log: seq<Line>, now: int, staging: Sha) {
    forall more, t :: now <= t && Trunk(s.anc, more + log) ==> WeeklyPlan(s, log, more, t, staging).outcome != Diverged
  }

  /** Every commit of the line that a weekly mark chooses, the last one that has passed or a later one, is an
      ancestor or a descendant. */
  ghost predicate Harmless(s: Setup, log: seq<Line>, now: int, x: Sha) {
    forall cut: int, i: nat :: LaterMark(s.weekly, now, cut) && FoundAt(log, cut, i) ==> Comparable(s.anc, x, log[i].sha)
  }

  /** A commit of dev on staging makes no later weekly plan diverge exactly when it is an ancestor or a
      descendant of every commit of the first-parent line that the weekly marks from here on can choose. */
  lemma HarmlessExactlyWhenComparable(s: Setup, log: seq<Line>, now: int, x: Sha)
    requires IsOrder(s.anc) && Set(s.weekly) && Trunk(s.anc, log) && s.anc(x, log[0].sha)
    ensures NeverDiverges(s, log, now, x) <==> Harmless(s, log, now, x)
  {
    if NeverDiverges(s, log, now, x) {
      forall cut: int, i: nat | LaterMark(s.weekly, now, cut) && FoundAt(log, cut, i) ensures Comparable(s.anc, x, log[i].sha) {
        var t := MarkIsACutoff(s.weekly, now, cut);
        if !Comparable(s.anc, x, log[i].sha) {
          ChosenDiverges(s, log, t, i, x);
        }
        assert [] + log == log;
        assert WeeklyPlan(s, log, [], t, x).outcome != Diverged;
      }
    }
    if Harmless(s, log, now, x) {
      forall more, t | now <= t && Trunk(s.anc, more + log) ensures WeeklyPlan(s, log, more, t, x).outcome != Diverged {
        if FirstAt(more + log, CutoffOf(s.weekly, t)).Some? {
          ChosenIsComparable(s, log, more, now, t, x);
        }
      }
    }
  }

  lemma ChosenDiverges(s: Setup, log: seq<Line>, t: int, i: nat, x: Sha)
    requires Trunk(s.anc, log) && FoundAt(log, CutoffOf(s.weekly, t), i) && !Comparable(s.anc, x, log[i].sha)
    ensures PlanOf(s.anc, AtCutoff, log, CutoffOf(s.weekly, t), x, log[0].sha).outcome == Diverged
  {
    FirstAtIsFound(log, CutoffOf(s.weekly, t), i);
    assert Follows(s.anc, log[i], log[0]);
  }

  lemma ChosenIsComparable(s: Setup, log: seq<Line>, more: seq<Line>, now: int, t: int, x: Sha)
    requires IsOrder(s.anc) && Set(s.weekly) && Trunk(s.anc, log) && Trunk(s.anc, more + log) && s.anc(x, log[0].sha)
    requires Harmless(s, log, now, x) && now <= t && FirstAt(more + log, CutoffOf(s.weekly, t)).Some?
    ensures Comparable(s.anc, x, FirstAt(more + log, CutoffOf(s.weekly, t)).value)
  {
    var cut := CutoffOf(s.weekly, t);
    var k := FoundByFirstAt(more + log, cut);
    if k < |more| {
      NewerThanDev(s.anc, log, more, k);
    } else {
      CutoffIsALaterMark(s.weekly, now, t);
      OfTheLog(more, log, cut, k);
    }
  }

  lemma NewerThanDev(anc: Order, log: seq<Line>, more: seq<Line>, k: nat)
    requires IsOrder(anc) && Trunk(anc, log) && Trunk(anc, more + log) && k < |more| && more[k].Commit?
    ensures anc(log[0].sha, more[k].sha)
  {
    var all := more + log;
    assert all[|more|] == log[0] && all[k] == more[k];
    assert Follows(anc, all[|more|], all[k]);
  }

  lemma OfTheLog(more: seq<Line>, log: seq<Line>, cut: int, k: nat)
    requires |more| <= k && FoundAt(more + log, cut, k)
    ensures FoundAt(log, cut, k - |more|) && (more + log)[k] == log[k - |more|]
  {
    var all, i := more + log, k - |more|;
    assert all[k] == log[i];
    assert forall j :: 0 <= j < i ==> log[j] == all[|more| + j];
  }

  // ---- and over whole runs after it

  /** Every run is over, or its candidate is of the line. */
  ghost predicate Tame(w: World) { forall i :: 0 <= i < |w.runs| ==> TameRun(w.log, w.runs[i]) }

  ghost predicate TameRun(log: seq<Line>, r: Run) {
    r.stage == Over || (r.plan.candidate.Some? ==> OnLine(r.plan.candidate.value, log))
  }

  /** No run that starts from here on ever has a diverged plan, while dev grows at its head and staging is
      moved by weekly and dev-tip runs, and by those that are under way. */
  ghost predicate NoneDiverges(s: Setup, w: World)
    requires Good(s, w)
  {
    forall steps :: PlainRun(s, w, steps) && Exec(s, w, steps).Some? ==> FromOn(Exec(s, w, steps).value, |w.runs|)
  }

  ghost predicate FromOn(w: World, n: nat) { forall i :: n <= i < |w.runs| ==> w.runs[i].plan.outcome != Diverged }

  /** What holds after such steps: staging is still at x, or on the line by now. */
  ghost predicate Beside(s: Setup, x: Sha, log: seq<Line>, now: int, n: nat, w: World)
    requires Good(s, w)
  {
    && now <= w.now && Within(log, w.log) && n <= |w.runs| && Tame(w) && FromOn(w, n)
    && (w.staging == x || OnLine(w.staging, w.log))
  }

  lemma WithinAll(part: seq<Line>, log: seq<Line>, all: seq<Line>)
    requires Within(part, log) && Within(log, all)
    ensures Within(part, all)
  {
  }

  /** From there a weekly or a tip plan is not diverged, and chooses on the line. */
  lemma PlanBeside(s: Setup, x: Sha, log: seq<Line>, now: int, n: nat, w: World, t: int, target: Target)
    requires Good(s, w) && Trunk(s.anc, log) && s.anc(x, log[0].sha) && Harmless(s, log, now, x)
    requires Beside(s, x, log, now, n, w) && w.now <= t && (target == AtCutoff || target == Tip)
    ensures var p := PlanOf(s.anc, target, w.log, CutoffOf(s.weekly, t), w.staging, Dev(w));
      p.outcome != Diverged && (p.candidate.Some? ==> OnLine(p.candidate.value, w.log))
  {
    var cut := CutoffOf(s.weekly, t);
    if OnLine(w.staging, w.log) {
      var p := PlanOnALine(s, w, target, cut);
    } else if target == Tip {
      var m := |w.log| - |log|;
      assert w.log[m] == log[0] && Follows(s.anc, w.log[m], w.log[0]);
      assert IsAt(w.log[0], Dev(w));
    } else if FirstAt(w.log, cut).Some? {
      var more := w.log[..|w.log| - |log|];
      assert more + log == w.log;
      ChosenIsComparable(s, log, more, now, t, x);
      var k := FoundByFirstAt(w.log, cut);
      assert IsAt(w.log[k], w.log[k].sha);
    }
  }

  lemma BesideWhenDevGrows(s: Setup, x: Sha, log: seq<Line>, now: int, n: nat, w: World, more: seq<Line>)
    requires Good(s, w) && Trunk(s.anc, more) && Beside(s, x, log, now, n, w) && Within(w.log, more)
    ensures Beside(s, x, log, now, n, w.(log := more))
  {
    WithinAll(log, w.log, more);
    if OnLine(w.staging, w.log) {
      StillOnLine(w.staging, w.log, more);
    }
    forall i | 0 <= i < |w.runs| ensures TameRun(more, w.runs[i]) {
      assert TameRun(w.log, w.runs[i]);
      if w.runs[i].stage != Over && w.runs[i].plan.candidate.Some? {
        StillOnLine(w.runs[i].plan.candidate.value, w.log, more);
      }
    }
  }

  lemma BesideWhenARunMovesOn(s: Setup, x: Sha, log: seq<Line>, now: int, n: nat, w: World, i: nat, check: Check, stage: Stage)
    requires Good(s, w) && Beside(s, x, log, now, n, w) && i < |w.runs| && w.runs[i].stage != Over
    ensures Beside(s, x, log, now, n, With(w, i, w.runs[i].(check := check, stage := stage)))
  {
    var v := With(w, i, w.runs[i].(check := check, stage := stage));
    forall k | 0 <= k < |v.runs| ensures TameRun(v.log, v.runs[k]) {
      assert TameRun(w.log, w.runs[k]);
    }
  }

  lemma BesideWhenARunStarts(s: Setup, x: Sha, log: seq<Line>, now: int, n: nat, w: World, t: int, target: Target, dry: bool, token: bool)
    requires Good(s, w) && Trunk(s.anc, log) && s.anc(x, log[0].sha) && Harmless(s, log, now, x)
    requires Beside(s, x, log, now, n, w) && w.now <= t && (target == AtCutoff || target == Tip)
    ensures Beside(s, x, log, now, n, Begin(s, w, t, target, dry, token))
  {
    PlanBeside(s, x, log, now, n, w, t, target);
    var v := Begin(s, w, t, target, dry, token);
    forall k | 0 <= k < |v.runs| ensures TameRun(v.log, v.runs[k]) {
      assert k < |w.runs| ==> TameRun(w.log, w.runs[k]);
    }
  }

  lemma BesideWhenARunPushes(s: Setup, x: Sha, log: seq<Line>, now: int, n: nat, w: World, i: nat)
    requires Good(s, w) && Beside(s, x, log, now, n, w) && Ready(w, i, Cleared)
    ensures Beside(s, x, log, now, n, Pushed(s, w, i))
  {
    assert TameRun(w.log, w.runs[i]);
    BesideWhenARunMovesOn(s, x, log, now, n, w, i, w.runs[i].check, Over);
  }

  lemma BesideStep(s: Setup, x: Sha, log: seq<Line>, now: int, n: nat, w: World, step: Step)
    requires Good(s, w) && Trunk(s.anc, log) && s.anc(x, log[0].sha) && Harmless(s, log, now, x)
    requires Beside(s, x, log, now, n, w) && Plain(w, step) && Next(s, w, step).Some?
    ensures Beside(s, x, log, now, n, Next(s, w, step).value)
  {
    match step
    case DevAdvances(more) => BesideWhenDevGrows(s, x, log, now, n, w, more);
    case StagingMoves(to) =>
    case Start(t, target, dry, token) => BesideWhenARunStarts(s, x, log, now, n, w, t, target, dry, token);
    case CheckEnds(i, result) => BesideWhenARunMovesOn(s, x, log, now, n, w, i, result, Checked);
    case Decides(i) => BesideWhenARunMovesOn(s, x, log, now, n, w, i, w.runs[i].check, Decided(w.runs[i]).stage);
    case Rechecks(i) => BesideWhenARunMovesOn(s, x, log, now, n, w, i, w.runs[i].check, Rechecked(s, w, w.runs[i]).stage);
    case Pushes(i) => BesideWhenARunPushes(s, x, log, now, n, w, i);
  }

  lemma {:induction false} BesideAlways(s: Setup, x: Sha, log: seq<Line>, now: int, n: nat, w: World, steps: seq<Step>)
    requires Good(s, w) && Trunk(s.anc, log) && s.anc(x, log[0].sha) && Harmless(s, log, now, x)
    requires Beside(s, x, log, now, n, w) && PlainRun(s, w, steps)
    ensures Exec(s, w, steps).Some? && Beside(s, x, log, now, n, Exec(s, w, steps).value)
    decreases |steps|
  {
    if steps != [] {
      BesideStep(s, x, log, now, n, w, steps[0]);
      BesideAlways(s, x, log, now, n, Next(s, w, steps[0]).value, steps[1..]);
    }
  }

  /** One weekly run at the moment whose cutoff chooses a commit beside x is diverged. */
  lemma OneWeeklyRunDiverges(s: Setup, w: World, cut: int, i: nat)
    requires Good(s, w) && LaterMark(s.weekly, w.now, cut) && FoundAt(w.log, cut, i)
    requires !Comparable(s.anc, w.staging, w.log[i].sha)
    ensures !NoneDiverges(s, w)
  {
    var t := MarkIsACutoff(s.weekly, w.now, cut);
    ChosenDiverges(s, w.log, t, i, w.staging);
    var step := Start(t, AtCutoff, false, true);
    var v := Begin(s, w, t, AtCutoff, false, true);
    assert Next(s, w, step) == Some(v);
    assert [step][1..] == [] && PlainRun(s, v, []);
    assert PlainRun(s, w, [step]) && Exec(s, w, [step]) == Some(v);
    assert v.runs[|w.runs|].plan.outcome == Diverged;
  }

  /** The same over every run that follows: with a commit of dev on staging, whatever starts, ends, overlaps
      and pushes from here on, no plan is diverged exactly when it is harmless. */
  lemma NoneDivergesExactlyWhenHarmless(s: Setup, w: World)
    requires Good(s, w) && Tame(w) && s.anc(w.staging, Dev(w))
    ensures NoneDiverges(s, w) <==> Harmless(s, w.log, w.now, w.staging)
  {
    if Harmless(s, w.log, w.now, w.staging) {
      forall steps | PlainRun(s, w, steps) && Exec(s, w, steps).Some? ensures FromOn(Exec(s, w, steps).value, |w.runs|) {
        BesideAlways(s, w.staging, w.log, w.now, |w.runs|, w, steps);
      }
    } else {
      var cut: int, i: nat :| LaterMark(s.weekly, w.now, cut) && FoundAt(w.log, cut, i) && !Comparable(s.anc, w.staging, w.log[i].sha);
      OneWeeklyRunDiverges(s, w, cut, i);
    }
  }

  /** A commit named by hand and promoted, and everything after it. */
  lemma HandPromotionIsSafeExactlyWhenHarmless(s: Setup, w: World, now: int, x: Sha)
    requires Good(s, w) && Tame(w) && w.now <= now && Classify(s.anc, x, w.staging, Dev(w)) == Promote
    ensures var after := Exec(s, w, ByHand(now, x, |w.runs|));
      after.Some? && after.value.staging == x && (NoneDiverges(s, after.value) <==> Harmless(s, w.log, now, x))
  {
    NamedIsPromoted(s, w, now, x);
    var v := Exec(s, w, ByHand(now, x, |w.runs|)).value;
    forall i | 0 <= i < |v.runs| ensures TameRun(v.log, v.runs[i]) {
      assert i < |w.runs| ==> TameRun(w.log, w.runs[i]);
    }
    NoneDivergesExactlyWhenHarmless(s, v);
  }

  /** r below b and x, both below d: x was merged into dev from the side. */
  function Diamond(a: Sha, b: Sha): bool { a == b || a == "r" || b == "d" }

  const UTC := Zone(t => t / 86400, (d: int, h: int, m: int) => d * 86400 + h * 3600 + m * 60)

  const SIDE := Setup(Diamond, Weekly(UTC, 4, 0, 0))

  const MERGED := [Commit("d", 10), Commit("b", 0), Commit("r", -1)]

  const BEFORE := World(MERGED, "r", 0, [], [])

  const AFTER := World(MERGED, "x", 1, [Pushing("x", "r", 1, MERGED, Success, Over)], [Push(0, "r", "x")])

  lemma DiamondIsGood(w: World)
    requires w.log == MERGED
    ensures Good(SIDE, w)
  {
    forall i, j | 0 <= i <= j < |w.log| ensures Follows(Diamond, w.log[j], w.log[i]) {
    }
  }

  lemma SideIsPromoted()
    ensures Exec(SIDE, BEFORE, ByHand(1, "x", 0)) == Some(AFTER)
  {
    DiamondIsGood(BEFORE);
    NamedIsPromoted(SIDE, BEFORE, 1, "x");
    assert [] + AFTER.runs == AFTER.runs && [] + AFTER.pushes == AFTER.pushes;
  }

  lemma NextWeekDiverges()
    ensures CutoffOf(SIDE.weekly, 5) == 0
    ensures PlanOf(Diamond, AtCutoff, MERGED, 0, "x", "d") == Plan(Diverged, Some("b"), "x")
  {
    FirstAtIsFound(MERGED, 0, 1);
  }

  /** Such a history, run step by step: a side commit that is on dev, but not on its first-parent line, is
      named and promoted; the next weekly run, cut before the merge, is diverged though dev has not moved. */
  lemma SideCommitDivergesTheWeeklyPlan()
    ensures Good(SIDE, BEFORE)
    ensures Exec(SIDE, BEFORE, ByHand(1, "x", 0)) == Some(AFTER)
    ensures var next := Next(SIDE, AFTER, Start(5, AtCutoff, false, true));
      next.Some? && next.value.runs[1].plan == Plan(Diverged, Some("b"), "x")
  {
    DiamondIsGood(BEFORE);
    SideIsPromoted();
    NextWeekDiverges();
  }

  /** The same commit, promoted once the merge is behind the cutoff, disturbs no later run. */
  lemma SideCommitIsHarmlessLater(now: int, runs: seq<Run>, pushes: seq<Push>)
    requires 10 <= CutoffOf(SIDE.weekly, now) && Tame(World(MERGED, "x", now, runs, pushes))
    ensures Good(SIDE, World(MERGED, "x", now, runs, pushes))
    ensures NoneDiverges(SIDE, World(MERGED, "x", now, runs, pushes))
  {
    var w := World(MERGED, "x", now, runs, pushes);
    DiamondIsGood(w);
    forall cut: int, i: nat | LaterMark(SIDE.weekly, now, cut) && FoundAt(MERGED, cut, i) ensures Comparable(Diamond, "x", MERGED[i].sha) {
      assert MERGED[0].at <= cut;
      assert i == 0;
    }
    NoneDivergesExactlyWhenHarmless(SIDE, w);
  }
}
