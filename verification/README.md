# Proofs about codeaf's protocols, replays and printers

This project models the parts of codeaf whose behaviour over a whole run matters more than any one
branch, and proves what they promise. `dafny verify dfyconfig.toml` checks everything.

| files | what they model |
|---|---|
| `SuiteLock.dfy`, `SuiteSteps.dfy` | the heavy-suite guard: a flock, and a directory that is its shadow for old checkouts; and what single runs of it come to |
| `Cutoff.dfy`, `Promotion.dfy`, `PromotionRuns.dfy`, `ReleaseState.dfy` | promoting dev to staging: the weekly cutoff, the plan, the check, the recheck and the push; overlapping runs; the build of a pushed commit |
| `Replay.dfy`, `Bill.dfy`, `WholeReplay.dfy` | replaying a request log over several choosers, billing them over a common set, and both in one |
| `Forgetting.dfy`, `Fading.dfy`, `Sample.dfy`, `Quantile.dfy` | the decayed counts and quantiles the choosers learn from |
| `DemoClock.dfy` | the desk windows of a demo fortnight and the automations clock replayed over them |
| `Chains.dfy` | retry chains cut out of a call log |
| `PlainResults.dfy`, `Failures.dfy`, `TouchedRun.dfy` | reading a test run's plain output, its failing leaves, and the verdict on them |
| `Rendering.dfy`, `ChangelogFile.dfy`, `RoundTrip.dfy`, `ReleaseNotes.dfy`, `HeadlineLayer.dfy`, `OnlyHeadlines.dfy`, `ChangelogTold.dfy` | printing a changelog section, inserting it, reading it back from the entries on, shortening it, what is left of it then, and all these texts told by place |
| `Notices.dfy` | licence texts in code fences, and a reader after sections 2.1 and 4.5 of CommonMark 0.31.2 |
| `Schedule.dfy`, `CampaignRuns.dfy`, `CampaignExecution.dfy` | the shuffled schedule of a benchmark campaign, its executions at once and crashing, and one alone |
| `Sorting.dfy`, `Text.dfy`, `Wrappers.dfy` | sorting, stable and not; lines, trimming and size in bytes; an optional value |

## How the code is carried over

Code that changes things step by step is a method with its loops, or a class with its fields, proved
against a specification function or stated outright; the lemmas are about those functions. Protocols
are step systems: `Next` says what one system call or one workflow step does, and a theorem about
`Exec` is about every interleaving of them. The steps of a promotion run are those of the workflow in
.github/workflows/promote-staging.yml (lines 40-258), those of an old checkout the script in
scripts/testdata/pre-1264/one-suite.sh. Random draws, clocks, probe answers, git's ancestry
relation, the price of a machine and a schedule's next time are parameters, so a theorem holds for all
of them. What is demanded of a parameter is a named predicate: `IsOrder` and `Trunk` (ancestry and a
first-parent log), `Sane` (a time zone), `Exponential` (halving), `Later` (a schedule), `Reorders` (a
shuffle).

## Where the code and what is said about it part ways

- **Two windows of the suite guard.** The comments promise that two trees never run at once. Judging a
  directory dead and moving it aside are separate system calls, and a wrapper may die before the holder
  it started has named itself. `SuiteLock.OneOwner` proves exclusion for every run that keeps clear of
  both windows, and they are no wider than they must be: `WindowsAreExact` proves that an event is in one
  of them if and only if a run that goes on from it, clear of both, can end with two owners, and
  `ExclusionExactlyWhenUndisturbed` that a whole run is safe all along exactly when it keeps clear of
  them. `LateMoveBreaksExclusion` and `EarlyDeathBreaksExclusion` give, for each window alone, a run from
  an idle box. Among current trees alone exclusion needs neither condition (`OneCurrentTree`).
- **"A row with no attempt number is its own chain"** (cmd/codeaf-census/chains.go:84-86). Such a row
  always starts a chain (`ZeroStartsAChain`), but a numbered row that follows soon enough joins it
  (`ZeroMayBeJoined` shows such a log); it is a chain of its own exactly when the next row of its key
  does not continue it (`AloneExactlyWhenNothingFollows`).
- **Release notes "under capBytes"** (cmd/codeaf-changes/notes.go:54). The last newlines are not
  counted. `ReleaseNotes.PageSize` gives the exact conditions under which a page passes the ceiling,
  and under which it passes by more than two bytes; `APageOverItsCeiling` shows a file whose page does.
- **A test that was skipped on the base** is reported by the probe as absent, but its wording does not
  contain the word the verdict looks for (scripts/touched-verdict.py:153, 231), so the failure is called
  inconclusive and not introduced. The model keeps both cases apart.
- **A hand-chosen commit.** Any commit on dev may be promoted by hand (`NamedIsPromoted`). One that was
  merged from the side can leave a later weekly plan that is cut before the merge diverged, with nobody
  having forced anything (`SideCommitDivergesTheWeeklyPlan`); the same commit does no harm once the merge
  is behind the cutoff (`SideCommitIsHarmlessLater`). Over every weekly and dev-tip run that may follow, while dev grows at its
  head and nobody else moves staging, no plan is diverged if and only if the commit is an ancestor or a
  descendant of every commit of the first-parent line that the weekly marks from now on can choose
  (`HandPromotionIsSafeExactlyWhenHarmless`). With staging on that line to begin with, no plan is diverged
  (`WeeklyRunsGoForward`).
- **Reading a version back** from the changelog. The reader takes any line that starts with `## ` for the
  next version. `RoundTrip.ReadsBackExactlyWhenUnbroken` proves that a version reads back whole if and
  only if no title, tag or trimmed claim of its entries has a line break with `## ` right behind it; other
  line breaks do no harm. `RoundTrip.ABrokenTitleCutsTheRead` is an entry that is cut short.
- **"Every headline line survives"** (cmd/codeaf-changes/notes.go:56-60). A title of several lines is
  accepted, and a line of it that starts with `<details>` opens a fold the reader drops
  (`HeadlineLayer.ATitleThatOpensAFold`). `HeadlineLayerIsComplete` proves that every kind heading and
  every headline line is left if and only if no headline has such a line; claims and bodies may say
  anything. And a claim or a body may close its fold early and leave text on the page
  (`OnlyHeadlines.ABodyThatLeaks`); `OnlyHeadlinesStay` says exactly when nothing else is left.

## Model

| member | source | states |
|---|---|---|
| SuiteLock.OneCurrentTree | cmd/codeaf-suite-lock/main.go:114-152 | in every run, with kills, reused pids and old checkouts, at most one current tree is past the flock |
| SuiteLock.OneOwner | cmd/codeaf-suite-lock/dirlock.go:122-171 | in every run that keeps clear of the two windows, whoever is in charge of a suite is alive, carries the mark, is exactly the pid the directory names, is the only one, and holds the flock where it must; `WindowsAreExact` is the converse |
| SuiteLock.WindowsAreExact | cmd/codeaf-suite-lock/dirlock.go:159-218 | in every sound box, an event is in one of the two windows if and only if some run that goes on from it and keeps clear of both ends with two owners |
| SuiteLock.ExclusionExactlyWhenUndisturbed | cmd/codeaf-suite-lock/dirlock.go:122-218 | from an idle box, a run never comes to a box from which two owners can arise exactly when it keeps clear of both windows |
| SuiteLock.MoveWindowBreaks | cmd/codeaf-suite-lock/dirlock.go:195-218 | whoever moves, old checkout or wrapper, and whoever claims or makes the directory by then, a move in the window lets two owners in |
| SuiteLock.HolderWindowBreaks | cmd/codeaf-suite-lock/main.go:202-214 | every kill or leave of a wrapper whose holder has not named itself lets two owners in |
| SuiteLock.FlockStep | cmd/codeaf-suite-lock/main.go:114-152 | every event keeps: one process past the flock, and whoever must hold it does |
| SuiteLock.DirStep | cmd/codeaf-suite-lock/dirlock.go:69-139 | every event outside the two windows keeps: a claimant is the pid in the directory, and a maker is alone with a directory naming nobody |
| SuiteLock.OldTakesOver | scripts/testdata/pre-1264/one-suite.sh:65-85 | an old checkout that finds a dead directory, undisturbed, ends running with the directory naming it |
| SuiteLock.LateMoveRuns | scripts/testdata/pre-1264/one-suite.sh:68-85 | from any box with a dead directory and two old checkouts there is a run to two owners through the move window |
| SuiteLock.LateMoveBreaksExclusion | cmd/codeaf-suite-lock/dirlock.go:195-218 | the move window alone is enough for two owners |
| SuiteLock.EarlyDeathRuns | cmd/codeaf-suite-lock/main.go:202-214 | a wrapper in charge that dies between starting its holder and the holder's naming lets an old checkout in beside it |
| SuiteLock.EarlyDeathBreaksExclusion | cmd/codeaf-suite-lock/dirlock.go:159-171 | the naming window alone is enough for two owners, from an empty box |
| SuiteLock.SoloOutcome | cmd/codeaf-suite-lock/main.go:91-214 | an undisturbed wrapper ends in charge of a directory naming it exactly when the directory is free, and else leaves the box as it was |
| SuiteLock.NeverRefusedForEver | cmd/codeaf-suite-lock/dirlock.go:141-157 | after any run and any kills, once nobody of the scheme is left, the next wrapper gets the suite, unless the directory names a live marked stranger or the wrapper's own pid |
| SuiteLock.DropSparesOthers | cmd/codeaf-suite-lock/dirlock.go:122-139 | a current tree that goes never changes a directory that does not name it |
| SuiteLock.FirstNamed | cmd/codeaf-suite-lock/dirlock.go:203-207 | of the looks of the grace period, the first that names anybody counts |
| SuiteLock.LockDirectory.Take | cmd/codeaf-suite-lock/dirlock.go:69-93 | taken exactly when there was no directory and the mkdir was not refused, and then it names the taker unless the write was lost; else it is untouched and its name, or the refusal, is told |
| SuiteLock.LockDirectory.NameHolder | cmd/codeaf-suite-lock/dirlock.go:103-109 | an existing directory names the holder afterwards unless the write is lost, which leaves what was there; none comes to be |
| SuiteLock.LockDirectory.Drop | cmd/codeaf-suite-lock/dirlock.go:129-139 | the directory goes exactly when it names the owner |
| SuiteLock.LockDirectory.Reclaim | cmd/codeaf-suite-lock/dirlock.go:199-218 | a live holder keeps its directory and is told of; otherwise the directory is the caller's, unless the rename or the mkdir is refused, or somebody made it in between, whose name is told |
| SuiteLock.ReclaimIsTheRun | cmd/codeaf-suite-lock/dirlock.go:199-218 | the reclaim and the step system's judge, move, mkdir and write leave the same box |
| SuiteSteps.OldIsTurnedAway | scripts/testdata/pre-1264/one-suite.sh:65-73 | an old checkout that finds the directory is turned away, with nothing else changed, exactly when it names a live process that is no unmarked bystander |
| SuiteSteps.WrapperIsTurnedAway | cmd/codeaf-suite-lock/dirlock.go:199-210 | so is a wrapper that finds it and gets the flock, and the flock is free again |
| SuiteSteps.BusyFlockUndoesTheClaim | cmd/codeaf-suite-lock/main.go:100-152 | a wrapper that made the directory and finds the flock held takes its directory away again and is gone |
| SuiteSteps.OneMakes | cmd/codeaf-suite-lock/dirlock.go:69-93 | of two that make the directory only the first does; the second asks who holds it, or is gone when it had moved one aside |
| SuiteSteps.NamesWhatIsThere | cmd/codeaf-suite-lock/dirlock.go:95-109 | a name lands in whatever directory is there; only an old checkout whose directory is gone goes with it |
| SuiteSteps.KillsLeaveTheDirectory | cmd/codeaf-suite-lock/dirlock.go:141-157 | a kill leaves the directory and lets go of the flock |
| SuiteSteps.LeavesTheDirectory | cmd/codeaf-suite-lock/dirlock.go:122-139 | who takes the directory along when leaving: an old checkout always, a wrapper that owns it or a named holder only when it names them, anybody else never |
| SuiteSteps.HolderOutlivesWrapper | cmd/codeaf-suite-lock/main.go:202-214 | once the holder has named itself, the wrapper may leave or be killed: the flock stays with the holder and the directory names it |
| SuiteSteps.WholeLife | cmd/codeaf-suite-lock/main.go:91-214 | a wrapper that comes to a free box, hands over and ends leaves the box as it was, without directory and with the flock free |
| Cutoff.CutoffAt | cmd/codeaf-release/promotion.go:104-139 | each fault exactly when its input is bad, in order; otherwise the stepped-back mark in any zone, which in a zone of sane days is the latest mark of that weekday and clock at or before now |
| Cutoff.CutoffIsLatestMark | cmd/codeaf-release/promotion.go:130-138 | stepping back to the weekday, and a week more when that day's mark is still to come, finds the latest mark that has passed |
| Cutoff.WeekdaysTurn | cmd/codeaf-release/promotion.go:130-131 | weekdays follow one another, from the Thursday of the first of January 1970 both ways |
| Cutoff.CutoffsRise | cmd/codeaf-release/promotion.go:103-139 | the cutoff never moves back as time goes on |
| Cutoff.MarkIsACutoff | cmd/codeaf-release/promotion.go:130-138 | the weekly marks at or after the cutoff of now are the cutoffs of the moments from now on |
| Promotion.FirstParentCandidate | cmd/codeaf-release/promotion.go:142-163 | the newest commit at or before the cutoff with nothing unreadable above it, or none exactly when there is no such entry |
| Promotion.FirstIsNewest | cmd/codeaf-release/promotion.go:142-163 | the candidate told entry by entry, and when there is none something unreadable stands above every commit that is old enough |
| Promotion.CandidateNeverStepsBack | cmd/codeaf-release/promotion.go:141-163 | on a branch that grows at its head, a later cutoff never gives an older commit, though commit times need not rise |
| Promotion.PlanPromotion | cmd/codeaf-release/promotion.go:185-243 | a plan fails exactly on an unreadable ref, a bad cutoff, or an unreadable change list for a plan to promote. Its candidate is the tip, the commit named, or the newest at or before the cutoff with nothing unreadable above; and told by the order alone it is off dev exactly when it is no ancestor of dev or there is none, to promote exactly when on dev and strictly ahead of staging, current when at or behind it, diverged when neither |
| Promotion.Recheck | cmd/codeaf-release/promotion.go:311-322 | the second look, told by the order alone on the fresh refs: off dev exactly when the candidate is no ancestor of dev, to promote exactly when on dev and strictly ahead of staging, current when on dev at or behind it, diverged when on dev and neither |
| Promotion.PromoteHolds | cmd/codeaf-release/promotion.go:291-325 | a plan to promote rechecks as promote when only dev advanced, and as current once its own push has landed |
| Promotion.OneLineNeverDiverges | cmd/codeaf-release/promotion.go:229-241 | two commits of dev's first-parent line are never diverged or off dev |
| Promotion.Decide | cmd/codeaf-release/promotion.go:43-61 | a push is let through exactly for a plan to promote with a passed check, on a real run, with a token; success is reported exactly for a current plan or a passed dry run, and the check is what is reported exactly when the plan was to promote |
| PromotionRuns.NoRunsIsSafe | cmd/codeaf-release/promotion.go:42-61 | before any run there is nothing a push could stand on wrongly |
| PromotionRuns.SafeStep | cmd/codeaf-release/promotion.go:42-61 | every step of overlapping runs keeps what each push stands on |
| PromotionRuns.EveryPushIsEarned | docs/rules/promotion.md:5-19 | over all interleavings of runs, dev advances and other moves of staging, each recorded push had a plan to promote, a passed check, a real run and a token, moved staging to a strict descendant that is on dev, and no run pushed twice |
| PromotionRuns.StagingOnlyMovesForward | docs/rules/promotion.md:16-19 | while only runs move it, staging never steps back |
| PromotionRuns.StartTold | cmd/codeaf-release/promotion.go:185-243 | a new run is about the tip, the commit named, or the newest at or before the latest weekly mark, and its outcome is how that commit stands to dev and staging then; nothing else changes |
| PromotionRuns.CheckTold | docs/rules/promotion.md:5-19 | a check ends on a planned run, only as skipped when the plan is not to promote |
| PromotionRuns.DecideTold | cmd/codeaf-release/promotion.go:43-61 | a checked run goes on exactly with a plan to promote, a passed check, a real run and a token |
| PromotionRuns.RecheckTold | cmd/codeaf-release/promotion.go:311-322 | the second look lets a run push exactly when its commit is on dev and strictly ahead of staging as they are by then |
| PromotionRuns.PushTold | docs/rules/promotion.md:16-19 | staging moves to the run's commit when it is behind it, the move is recorded when there is one, and else nothing happens |
| PromotionRuns.OthersMove | docs/rules/promotion.md:5-19 | others move staging anywhere, and dev exactly to a log that goes on from its head |
| PromotionRuns.PlanThenPush | cmd/codeaf-release/promotion.go:291-325 | with staging where the plan saw it, whatever else happened, the recheck says promote and the push lands |
| PromotionRuns.PlanOnALine | cmd/codeaf-release/promotion.go:185-243 | with staging on dev's first-parent line, a weekly or tip plan is never diverged, and off dev exactly when nothing is at or before the cutoff |
| PromotionRuns.OneLineAlways | cmd/codeaf-release/promotion.go:141-243 | while dev grows at its head and only such runs move staging, staging and every candidate stay on the line |
| PromotionRuns.CandidatesRise | cmd/codeaf-release/promotion.go:103-163 | of two weekly runs the later one's candidate is at or ahead of the earlier one's |
| PromotionRuns.WeeklyRunsGoForward | cmd/codeaf-release/promotion.go:185-243 | over whole runs of such steps: no diverged plan, off dev exactly without a commit at the cutoff, candidates in order |
| PromotionRuns.NamedIsPromoted | cmd/codeaf-release/promotion.go:291-325 | from any world, a commit on dev ahead of staging that is named by hand is planned, checked, rechecked and pushed |
| PromotionRuns.HarmlessExactlyWhenComparable | cmd/codeaf-release/promotion.go:103-241 | with a commit of dev on staging, no weekly plan from now on is diverged, however the line grows, if and only if it is comparable with every commit of the line that a weekly mark from here on can choose |
| PromotionRuns.NoneDivergesExactlyWhenHarmless | cmd/codeaf-release/promotion.go:103-241 | the same over every run of the step system that follows, weekly and tip runs starting, overlapping and pushing while dev grows at its head |
| PromotionRuns.HandPromotionIsSafeExactlyWhenHarmless | cmd/codeaf-release/promotion.go:216-325 | a commit named by hand is promoted, and no plan of any later run is diverged if and only if it is harmless in that sense |
| PromotionRuns.SideCommitIsHarmlessLater | cmd/codeaf-release/promotion.go:216-241 | with the merge behind the cutoff the side commit leads to no diverged plan |
| PromotionRuns.SideCommitDivergesTheWeeklyPlan | cmd/codeaf-release/promotion.go:216-241 | a run of the step system in which a hand-chosen side commit is checked and pushed and the next weekly run, cut before the merge, is diverged |
| ReleaseState.ClassifyRelease | cmd/codeaf-release/promotion.go:448-480 | an error exactly when a run of the commit has an unreadable date; absent when every run of it was made more than two minutes before the push; otherwise finished or pending as the run is that no other of the commit is newer than, by date and then attempt, the first of equals |
| ReleaseState.OnlyOneNewest | cmd/codeaf-release/promotion.go:447-480 | which run speaks for the push is settled by the list |
| Replay.MomentsOf | cmd/codeaf-replay/replay.go:38-86 | the stream is in order of time and holds each question once for its request; each finished row with a model and a machine gives at its stamp a judgement as refused exactly when it was, and otherwise a sighting exactly when timed and a judgement as usable exactly when not cut off; any other row gives nothing, and each journal entry is published once at its stamp: counted over the stream, without the functions that lay it |
| Replay.Pass | cmd/codeaf-replay/replay.go:152-168 | each answer is the candidate asked in the state the moments before that question left |
| Replay.NoHindsight | cmd/codeaf-replay/replay.go:36-86 | at any question a candidate has been taught exactly the lessons stamped strictly before it, in order |
| Replay.StreamNumbered | cmd/codeaf-replay/replay.go:38-86 | every question of the stream is one of the requests, and no request is asked twice |
| Replay.StreamHolds | cmd/codeaf-replay/replay.go:38-86 | every request is asked in the stream |
| Replay.AnswersOf | cmd/codeaf-replay/replay.go:152-168 | the answer recorded for each request is the candidate asked after the lessons stamped strictly before it |
| Bill.DrawBill | cmd/codeaf-replay/replay.go:178-253 | each candidate's bill is its own account, whatever order the maps are walked in; there is a regret for each request of the class that all candidates answered and the world priced, and told by the world's prices it makes up what the named machine costs above the best, and is nothing where it costs no more |
| Bill.CountsAreCounts | cmd/codeaf-replay/replay.go:198-228 | asked, silent, held and unpriced count the requests of the class that are each |
| Bill.SortsOfRequest | cmd/codeaf-replay/replay.go:186-232 | what makes a request asked, silent, held, unpriced or scored, told from the request, the world and the answers |
| Bill.SameErrand | cmd/codeaf-replay/replay.go:214-217 | two requests are of one errand exactly when they share run, node and model |
| Bill.ScoredIsTheCommonSet | cmd/codeaf-replay/replay.go:235-250 | scored counts the requests all candidates answered and the world priced, and the regrets are exactly theirs, in order |
| Bill.EqualForAll | cmd/codeaf-replay/replay.go:170-178 | all candidates end with equal asked and equal scored in every class, and each with as many regrets as scored |
| Bill.NothingCountedTwice | cmd/codeaf-replay/replay.go:198-250 | scored, silent and unpriced together never exceed asked |
| Bill.FewerCandidates | cmd/codeaf-replay/replay.go:170-178 | taking candidates away never lowers another's scored count and moves none of its own columns |
| Bill.SwitchIsAChangeOfMind | cmd/codeaf-replay/replay.go:214-222 | a switch is counted exactly when the machine differs from the one last named for the errand |
| Bill.LastIsLatest | cmd/codeaf-replay/replay.go:217-222 | the machine remembered for an errand is the one named at its latest answered request |
| Bill.LatestTold | cmd/codeaf-replay/replay.go:214-222 | which answer is the latest of an errand: that of the last request of its run, node and model that was answered with a machine, and none exactly when there is no such request |
| WholeReplay.ReplayAll | cmd/codeaf-replay/report.go:36-41 | one pass for each candidate, then the bill: in every class asked is the count of its requests, and the regrets are those of the candidate's answers told from the log alone, each asked after the lessons stamped strictly before, over the requests where all candidates count, and each regret makes up what the named machine costs above the best, or is nothing where it costs no more |
| WholeReplay.RegretsAreTold | cmd/codeaf-replay/replay.go:195-250 | the regrets of the common set of the recorded answers are those told from the log |
| Forgetting.DecayAcross | cmd/codeaf-replay/sketch.go:115-123 | forgetting in two stretches is forgetting in one |
| Forgetting.HalfLifeHalves | cmd/codeaf-replay/sketch.go:115-123 | with two as the power at one, what is left halves with every half-life, from any age on |
| Forgetting.OlderIsNoHeavier | cmd/codeaf-replay/sketch.go:115-123 | where powers of two rise, an older observation never weighs more |
| Fading.Tally.Add | cmd/codeaf-replay/sketch.go:93-104 | under any way of fading, the addition joins the history and the one number goes on being what the whole history comes to |
| Fading.Tally.Standing | cmd/codeaf-replay/sketch.go:93-113 | for additions in time order, none after now, the answer is the sum of every addition of the history, each faded from its own moment |
| Fading.CountIsTheSum | cmd/codeaf-replay/sketch.go:93-113 | for additions in time order and any fading that adds up and composes, the one number kept is the sum of every addition faded from its own moment |
| Fading.HalvingFades | cmd/codeaf-replay/sketch.go:115-123 | halving at a half-life, the choosers' way of forgetting, adds up and composes |
| Fading.HalvingHalves | cmd/codeaf-replay/sketch.go:93-123 | of an amount all is left at once and half of what is left a half-life later |
| Sample.Sketch.Add | cmd/codeaf-replay/sketch.go:38-54 | the compaction in place leaves the observations not older than ten half-lives, in arrival order, and a value that is not positive changes nothing; over a history in time order the sample is the accepted measurements within ten half-lives of the last |
| Sample.SampleIsTheRecentPast | cmd/codeaf-replay/sketch.go:37-54 | after any history in time order the sample is the accepted measurements within ten half-lives of the last |
| Quantile.Walk | cmd/codeaf-replay/sketch.go:83-90 | in an ordered list, the value where the weight from below first reaches what is wanted |
| Quantile.At | cmd/codeaf-replay/sketch.go:64-91 | zero without observations or half-life; for a share in (0, 1] an observed value whose weight at or below reaches the share of the total while the weight strictly below does not; the greatest value above that and the least at or below zero; of two observations a half-life apart the younger counts double, so it is the answer for every share over a third when it is the greater, and up to two thirds when it is the smaller |
| Quantile.SecondOfTwo | cmd/codeaf-replay/sketch.go:82-90 | of two weighed values, which is the quantile, by the weights alone |
| Quantile.QuantileOrder | cmd/codeaf-replay/sketch.go:82-90 | wanting more never gives a smaller value, and the same wants give the same value |
| Quantile.QuantileGrowsWithShare | cmd/codeaf-replay/sketch.go:64-91 | a greater share never gives a smaller quantile |
| Quantile.QuantilePermutes | cmd/codeaf-replay/sketch.go:82-83 | the order among equal values, which the sort leaves open, does not show |
| Quantile.QuantileStandsStill | cmd/codeaf-replay/sketch.go:56-91 | with nothing added, the quantile is the same at every later moment |
| Chains.Group | cmd/codeaf-census/chains.go:88-100 | the map and the order hold, for each key in order of first sight, its finished rows in log order |
| Chains.CutGroup | cmd/codeaf-census/chains.go:105-120 | the growing loop cuts the group greedily |
| Chains.ChainsIn | cmd/codeaf-census/chains.go:87-124 | the chains in order of their start, told from the rows: each finished row with a model as often as in the log and no other; one tag, node and model in a chain; from row to row a greater attempt within a quarter of an hour; and between a chain and the next of its key no greater attempt or more than that |
| Chains.EveryRowOnce | cmd/codeaf-census/chains.go:87-124 | the chains hold every finished row with a model as often as the log does, and nothing else |
| Chains.ChainsAreChains | cmd/codeaf-census/chains.go:105-122 | each chain has one key, rising attempts and gaps of at most a quarter of an hour, and the chains are in order of start |
| Chains.CutIsSound | cmd/codeaf-census/chains.go:105-120 | a cut group keeps its rows in order, each piece is a chain, and no piece could have been joined to the one before |
| Chains.CutIsTheOnlyOne | cmd/codeaf-census/chains.go:106-117 | there is no other way to cut a group into such pieces |
| Chains.ChainsOfOneKey | cmd/codeaf-census/chains.go:101-124 | the final sort keeps one key's chains in the order they were cut |
| Chains.ZeroStartsAChain | cmd/codeaf-census/chains.go:84-117 | a row without an attempt number is the first of its chain |
| Chains.ZeroMayBeJoined | cmd/codeaf-census/chains.go:84-117 | a log of such a row and a numbered one within the gap is one chain of both |
| Chains.AloneExactlyWhenNothingFollows | cmd/codeaf-census/chains.go:84-117 | in the rows of a key by time, the first row of a chain is alone in it exactly when it is the last or the next does not continue it |
| Chains.Machines | cmd/codeaf-census/chains.go:54-70 | each word of the walk is the machine that served a row, else the lane it asked for, else the word for neither, and all of those are there; never the same twice in a row |
| Chains.StayedPutMeansOneWord | cmd/codeaf-census/chains.go:72-77 | a chain stayed put exactly when all its rows resolve to one machine word |
| DemoClock.GatherSpans | cmd/codeaf-demo-home/seed_automations.go:367-380 | the stretches before clipping: the working days, the sitting, and each making |
| DemoClock.ClipAll | cmd/codeaf-demo-home/seed_automations.go:381-389 | clipping at now keeps the non-empty stretches |
| DemoClock.Merge | cmd/codeaf-demo-home/seed_automations.go:391-401 | merging gives separated stretches that cover exactly what was covered |
| DemoClock.DeskWindows | cmd/codeaf-demo-home/seed_automations.go:366-402 | non-empty stretches in order with time between them, none past now, covering exactly the moments somebody was at a window: the working days by their hours of opening and closing, the odd days as they were, the six hours of the sitting, and a minute before to ten minutes after each making |
| DemoClock.ClippedCovers | cmd/codeaf-demo-home/seed_automations.go:381-389 | a moment is covered after clipping exactly when it was covered by a stretch that keeps some length, and is not past now |
| DemoClock.When | cmd/codeaf-demo-home/seed_automations.go:432-447 | the scan finds the taking of a slot |
| DemoClock.FirstWindowTakes | cmd/codeaf-demo-home/seed_automations.go:432-447 | the first window not over at the slot takes it: as it opens when it is still to open, else a second after the slot but no later than it closes; and nothing takes it exactly when every window is over |
| DemoClock.TakenInAWindow | cmd/codeaf-demo-home/seed_automations.go:429-447 | a slot is taken inside a window, never before its time, and not at all only when no window is left |
| DemoClock.LaterSlotsLater | cmd/codeaf-demo-home/seed_automations.go:432-447 | a later slot is never taken earlier, nor where an earlier one is not |
| DemoClock.Slots | cmd/codeaf-demo-home/seed_automations.go:584-598 | the slot loop ends, and its takes are the chain from the first slot that ends as it must, or the schedule failed |
| DemoClock.TakeTold | cmd/codeaf-demo-home/seed_automations.go:584-598 | each take told by the schedule, the pause and what is spoken after: not after now, before any pause, and followed only by the schedule's next slot, when it repeats and has not come to what it speaks after |
| DemoClock.EndTold | cmd/codeaf-demo-home/seed_automations.go:584-598 | where the loop stops though the schedule goes on, no window takes the next slot before now is over or the automation is paused |
| DemoClock.TakesRise | cmd/codeaf-demo-home/seed_automations.go:584-598 | takes strictly rise and none is before its slot |
| DemoClock.CaughtUpOnce | cmd/codeaf-demo-home/seed_automations.go:345-347 | of the slots taken no two lie in one stretch without a window: missed slots are caught up once |
| DemoClock.OneReplay | cmd/codeaf-demo-home/seed_automations.go:584-598 | there is only one such chain of takes |
| DemoClock.RunsEndInTheirWindow | cmd/codeaf-demo-home/seed_automations.go:625-632 | a run ends inside its window, not before its take and not after now |
| DemoClock.CheckJudgments | cmd/codeaf-demo-home/seed_automations.go:676-702 | refused at the first look that does not fit, and accepted when there is none: a look is unchecked exactly when it judged nothing, quiet exactly on a no or while the last judgement before it was a yes, done otherwise; what is no watch judges nothing |
| DemoClock.SpeaksOnTheChange | cmd/codeaf-demo-home/seed_automations.go:676-702 | an accepted watch that spoke speaks again only after something else was judged between |
| PlainResults.PlainResults | scripts/touched-verdict.py:35-82 | what the loop makes of the lines, told from the lines around each test line: results under their owners and in the order of their lines, the names of failing summaries, the packages that some line ends and with which mark, and no fault exactly when every boundary is clean where it stands and nothing is left open or waiting |
| PlainResults.EveryTestLineHasOneOwner | scripts/touched-verdict.py:35-82 | without a fault every test line became one result under the package that owns the line, said without running the parser; every other result comes from a failing shard summary |
| PlainResults.OwnerIsUnique | scripts/touched-verdict.py:50-77 | a test line has at most one owner |
| PlainResults.FaultlessExactlyWhenClean | scripts/touched-verdict.py:35-82 | there is no fault if and only if each shard opens with nothing waiting and no other package open, each summary ends its own package and names who failed, each ordinary package ends outside every shard, and nothing is left at the end |
| PlainResults.PackagesAreEnded | scripts/touched-verdict.py:57-77 | the packages are those some line ends, each with the mark of that line |
| PlainResults.TestsStandInOrder | scripts/touched-verdict.py:66-77 | the results of test lines stand in the order of those lines, each once |
| PlainResults.NamesAreFailures | scripts/touched-verdict.py:57-65 | each name of a failing summary is a failure of its package |
| Failures.LeavesStandForAllFailures | scripts/touched-verdict.py:118-124 | the retried leaves are failures, in order and each once, an antichain, and every failure is one of them or above one |
| Failures.AscendingIsUnique | scripts/touched-verdict.py:119-124 | the sorted list is settled by its members |
| Failures.BelievedIffConsistent | scripts/touched-verdict.py:85-115 | no infrastructure reason exactly when nothing was killed, printed or unread, the packages reported as failed are those with a failing test, and the status is zero exactly when no test fails |
| Failures.LastResultIsLast | scripts/touched-verdict.py:147-154 | of the results about the target the last one counts |
| Failures.FocusedMeansTheTarget | scripts/touched-verdict.py:134-161 | each answer of a focused run exactly when: passed when the target reported a pass last and nothing failed; failed when it failed last and every other failure is above or below it; skipped when it was skipped last; absent when it was not there or could not be resolved |
| TouchedRun.ProbeAll | scripts/touched-verdict.py:209-243 | rows in order, each verdict told by the two probes of its leaf; at most one checkout; nothing before the last row that ends the probing, and why it is cut short where it is |
| TouchedRun.Run | scripts/touched-verdict.py:182-262 | green exactly when the run is believed, at most five leaves fail, each passes when retried or fails on the base as well, and the base checkout came up and went down. Each row names its leaf and its verdict is told by its probes: flaky exactly when head passes, on the base when both fail, introduced when base passes, introduced without a base when the test is absent there, inconclusive when it was skipped or broke there, and the retry itself when head did neither; over five leaves each is listed and nothing is probed. At most five retries and as many base probes |
| TouchedRun.GreenRowsAreExcuses | scripts/touched-verdict.py:237-243 | a green run lists no verdict but flaky and already failing on the base |
| Rendering.PrintEntry | cmd/codeaf-changes/render.go:50-101 | the printed entry is its lines, which `ChangelogTold.EntryTold` tells one by one |
| ChangelogTold.EntryTold | cmd/codeaf-changes/render.go:63-100 | the lines of an entry by their place: the headline alone when there is nothing to tell; else blank, summary, blank, each claim trimmed, a blank only between claims and body, each line of the body indented, blank, the end of the fold, blank |
| ChangelogTold.NumberReadsBack | cmd/codeaf-changes/render.go:53 | a printed number is digits that read back as the number |
| ChangelogTold.TagStands | cmd/codeaf-changes/render.go:54-60 | each tag stands between backticks in its place |
| ChangelogTold.HeadlineTold | cmd/codeaf-changes/render.go:53-60 | the line of a change in its words: title in bold, dash, number linked to its pull request, and after a dot the tags |
| ChangelogTold.SummaryTold | cmd/codeaf-changes/render.go:67-82 | the fold says why when nothing is invalidated, and else how many things are no longer true, one in the singular |
| Rendering.Render | cmd/codeaf-changes/render.go:26-48 | the section is its heading and, kind by kind, the entries of that kind by number; ties in any order, unlisted kinds nowhere |
| ChangelogTold.GroupsTold | cmd/codeaf-changes/render.go:30-46 | under each kind, by its key, exactly the entries of that kind, each as often as given, by rising number |
| ChangelogTold.SectionTold | cmd/codeaf-changes/render.go:26-46 | a section opens with its version and date; a kind with entries opens with its line between blanks and one without is not named |
| Rendering.GroupsQuiet | cmd/codeaf-changes/render.go:35-101 | with single-line titles, tags and claims every printed line below the heading is one line and no section heading |
| ChangelogFile.Section | cmd/codeaf-changes/notes.go:34-52 | the trimmed lines after the tag's heading up to the next heading, or nothing |
| ChangelogTold.ReadingTold | cmd/codeaf-changes/notes.go:34-52 | with the first line that starts with the tag and a space, and the next that starts like a heading, the lines between, trimmed; nothing exactly when there is no such line |
| ChangelogFile.LinesAfterInsert | cmd/codeaf-changes/render.go:104-111 | the new file line by line |
| ChangelogTold.InsertTold | cmd/codeaf-changes/render.go:104-111 | the old file up to the end of the first marker, a blank line, the section without its last newlines, and the rest; nothing exactly without a marker |
| ChangelogFile.ReadAfterInsert | cmd/codeaf-changes/notes.go:34-52 | what reading the new tag gives, for any section text |
| ChangelogFile.InnerHeadingCutsTheRead | cmd/codeaf-changes/notes.go:39-42 | in any section, the first line that looks like a heading ends the reading there |
| ChangelogFile.OtherSectionsReadAsBefore | cmd/codeaf-changes/render.go:103-111 | for any section with no line that starts the tag's heading, every other tag reads as before |
| RoundTrip.RollUp | cmd/codeaf-changes/main.go:143-160 | from the entries to the file: refused exactly without entries or without the marker; the version then reads back as what was printed if and only if no entry breaks |
| RoundTrip.ReadsBackExactlyWhenUnbroken | cmd/codeaf-changes/notes.go:34-52 | a version reads back whole if and only if no title, tag or trimmed claim has a line break that a heading follows |
| RoundTrip.WholeExactlyWithoutHeadings | cmd/codeaf-changes/notes.go:34-52 | any section at all reads back whole exactly when no line of it after the first is a heading |
| RoundTrip.WholeIsThePrint | cmd/codeaf-changes/render.go:103-111 | with only white space before the next heading, the whole is the printed text itself |
| RoundTrip.EntryHolds | cmd/codeaf-changes/render.go:50-101 | the printed lines of an entry have a heading exactly when its title, a tag or a claim breaks into one; a body never does |
| RoundTrip.OtherVersionsReadAsBefore | cmd/codeaf-changes/render.go:103-111 | every other version reads as before unless a headline or a claim of the new entries has a line that opens just that version's section; unbroken entries have none, and with one the version is found even where it was not |
| RoundTrip.ABrokenTitleCutsTheRead | cmd/codeaf-changes/notes.go:39-42 | an entry titled with a line break and a heading: its section, inserted, reads back only up to the break |
| ReleaseNotes.StripFolds | cmd/codeaf-changes/notes.go:93-113 | the loop computes the stripped text |
| ChangelogTold.FoldIsLeftOut | cmd/codeaf-changes/notes.go:93-107 | a fold is left out from the line that opens it through the first that closes it |
| ChangelogTold.LineOutsideStays | cmd/codeaf-changes/notes.go:97-111 | a line outside a fold that opens none stays, but for a blank one right behind an empty one |
| ReleaseNotes.StrippingTwiceIsStrippingOnce | cmd/codeaf-changes/notes.go:90-113 | stripping is idempotent, and leaves no line that opens a fold |
| HeadlineLayer.EntryEndsOutside | cmd/codeaf-changes/render.go:79-98 | the lines of any printed entry leave a fold open exactly when it has no fold of its own and its headline opens one |
| HeadlineLayer.HeadlineLayerIsComplete | cmd/codeaf-changes/notes.go:56-60 | for any entries, the headline layer has every kind heading and every line with ink of every headline if and only if no headline has a line that opens a fold |
| HeadlineLayer.HeadlinesAreLines | cmd/codeaf-changes/notes.go:56-60 | with titles and tags of one line, and any claims and bodies, each headline is a line of the layer |
| HeadlineLayer.ATitleThatOpensAFold | cmd/codeaf-changes/notes.go:90-113 | any entry whose title has a second line that opens a fold: the layer is not complete, whatever stands beside it |
| OnlyHeadlines.OnlyHeadlinesStay | cmd/codeaf-changes/notes.go:90-113 | for any entries of a kind, what is left of their printed lines is exactly the lines of the headlines, a blank for each fold and none twice in a row, if and only if no headline opens a fold and no claim or body lets a line with ink out of its own |
| OnlyHeadlines.OneLinesStandAsTheyAre | cmd/codeaf-changes/notes.go:90-113 | with titles and tags of one line nothing is squeezed: each headline stands as it is, with its blank |
| OnlyHeadlines.ABodyThatLeaks | cmd/codeaf-changes/notes.go:90-113 | a body with a closing tag and a line behind it lets that line out |
| ReleaseNotes.CutLines | cmd/codeaf-changes/notes.go:78-86 | the longest stretch of whole lines that fits the room |
| ReleaseNotes.Notes | cmd/codeaf-changes/notes.go:61-88 | the first of the three shapes that fits, or an error exactly without a section |
| ChangelogTold.PageTold | cmd/codeaf-changes/notes.go:61-88 | the page told by the sizes: the section where it fits, else the layer with the line that says where the rest is, else that line below as many lines of the layer as are kept |
| ReleaseNotes.PageSize | cmd/codeaf-changes/notes.go:54-88 | exactly when a page passes the ceiling, and exactly when it stays within two bytes of it |
| ReleaseNotes.APageOverItsCeiling | cmd/codeaf-changes/notes.go:54-69 | at every ceiling above zero, a file whose page is one byte over it |
| ReleaseNotes.CutKeepsWholeLines | cmd/codeaf-changes/notes.go:76-87 | the cut page's lines are the first lines of the headline layer |
| Notices.CodeFence | cmd/codeaf-notices/notices.go:366-382 | a fence of backticks longer than any run in the text, three at least and no longer than it must be |
| Notices.PrintLicences | cmd/codeaf-notices/notices.go:352-361 | the licence part of a notice, each text in a fence that suits it |
| Notices.NameStands | cmd/codeaf-notices/notices.go:352-356 | each licence is told by its name above a block of plain text |
| Notices.BlockReadsBack | cmd/codeaf-notices/notices.go:354-360 | the reader recovers the text of a printed block, with a final newline only where it was missing, and goes on behind it |
| Notices.EveryLicenceReadsBack | cmd/codeaf-notices/notices.go:352-361 | for all licence texts, the reader recovers exactly the texts in order |
| Schedule.Plan | bench/conversation/campaign.py:84-94 | whatever the shuffles: numbered from one in run order, block after block, each block all pairs |
| Schedule.PairsPermute | bench/conversation/campaign.py:87-94 | shuffling scenarios changes no block's pairs |
| Schedule.EachPairOnce | bench/conversation/campaign.py:71-94 | with distinct names a block holds each scenario-arm pair exactly once |
| CampaignRuns.KeptStep | bench/conversation/campaign.py:131-183 | every step of any execution keeps: one owner for a begun cell, a start only by its owner, rows gathered in schedule order |
| CampaignRuns.FreshIsKept | bench/conversation/campaign.py:119-131 | a fresh directory keeps all of this to begin with |
| CampaignRuns.EvidenceIsKept | bench/conversation/campaign.py:128-184 | over any executions, at once or in turn, crashing anywhere: each runner starts at most once, no finished row is replaced, and the rows gathered and written are a prefix in schedule order |
| CampaignRuns.CellIsRun | bench/conversation/campaign.py:131-181 | at a cell without a directory, undisturbed: run once, its row written, the rows so far published; an unusable row ends the execution |
| CampaignRuns.OtherLooks | bench/conversation/campaign.py:131-141 | anywhere else: the stop file and a cell without a whole row end it and touch nothing, a finished cell gives its row, and at the end the rows are published |
| CampaignRuns.FromOutside | bench/conversation/campaign.py:128-184 | an execution begins at the first cell with no rows; a crash ends it and leaves what is on disk, but for a row that was being written |
| CampaignExecution.Directory.Execute | bench/conversation/campaign.py:130-184 | alone, it runs exactly the cells without a directory, keeps every finished row, and ends complete, stopped, at a partial cell or at an unusable row, each for its reason |

## Left out

- SuiteLock.OneOwner: excludes runs through the two windows named above, because exclusion is false there, and `WindowsAreExact` says exactly there. Checking and removing in a drop are one event, and so is an old checkout's removal on exit; the pid write of the step system always lands.
- SuiteLock.Owner: the suite itself is not a process of the model. Whoever is in charge is the holder, the wrapper or the old script; one that is killed is gone from the box though the suite it started may still run.
- SuiteLock.LockDirectory.Reclaim: the looks at an unnamed directory are an input and sleeping is not modelled.
- SuiteLock: an empty lock path (the directory lock switched off), Windows, where no holder is started, and the `since` file.
- Cutoff.CutoffAt: that the cutoff is the latest mark is claimed for zones whose local date never steps back and whose clock times fall on their own day; in a zone that skips the clock time across midnight, or a whole local day, only the code's own step back is stated.
- PromotionRuns.HandPromotionIsSafeExactlyWhenHarmless: runs under way from before are over or have chosen on the line.
- PromotionRuns: fetching and classifying are one step, the server checks a push at once, and dev is never rewound. Messages, job names and the wait for the build's publication are left out but for choosing the run.
- Replay.Pass: that asking changes nothing in a candidate is taken for granted, as `demand` only returns a name.
- Replay and Bill: the world's prices, the machines it measured and the policies are arbitrary functions; the report, the spotlight and the worst moments are not modelled.
- Forgetting.DecayAcross: real numbers stand for floating point, and halving is any positive function that turns sums into products.
- Chains.Machines: the served and the asked-for words are taken as already trimmed.
- DemoClock.DeskWindows: local wall times are an arbitrary function; day and clock arithmetic of the zone is not modelled.
- DemoClock.Slots: the store, which is asked to confirm each slot, and the runs' texts and costs.
- PlainResults.PlainResults: lines come already recognized; the regular expressions are not modelled.
- TouchedRun.Run: the wording of reasons, the step summary and the standing issue are not modelled; a crash while the directory is erased counts as an interrupted removal.
- Rendering.Render: reading entries from files and their validation. Texts are sequences of Unicode characters, so invalid UTF-8 is not covered.
- RoundTrip.RollUp: what reads back is stated where the marker ends its line, as it does in the file, no section of the version stands above it, and version and date are single lines. Writing the file and deleting the entries are left out.
- Notices.EveryLicenceReadsBack: the reader knows fences of backticks only, and passes over the lines between blocks; the rest of a component's notice and the licence's identification are not modelled.
- Schedule.Plan: the planner's refusals, the manifest and the frozen binaries.
- CampaignRuns.EvidenceIsKept: a person who removes a partial cell, and a result file cut off while it is written.
- The raft probe, the demo-home seeders other than the automations clock, the bashloop driver, the benchmark summaries, canary picking, gallery pairing and channel pruning: input, output or easy members.
