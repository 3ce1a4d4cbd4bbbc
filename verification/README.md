# The Agent Org pipeline, modelled and proved

A Dafny model of a ticket-to-merge pipeline: five agents and three human gates, run either in one call
(`agentorg/graph.py`) or as seven jobs that hand a saved run to each other (`scripts/run_stage.py`), over an
append-only log, and the diff reader everything about "what is in the change" rests on
(`agentorg/common/diff.py`).

`dafny verify dfyconfig.toml` checks the whole project.

## How it is built

The records the pipeline updates in place (`RunState`, `DevResult`, `ReviewResult`) are classes, and so are the
stores (`World`, `Table`, `Disk`, `Scratch`). What a leg of the pipeline does is a function on a `Session`, one run
as the outside sees it: its document, its log rows, and the calls made on its behalf. Each method is the code
over the objects and is proved to do to the store exactly what the function does to the session, and nothing to
any other run. The theorems are about the functions.

Agents, the code host and the humans are a `Script` of arbitrary answers taken in call order; the developer may
raise, and so may opening the pull request. `Poisoned` and `Endings` put the developer's, the security agent's and
the SRE agent's own code behind it.

The source writes the revision loop, the publication, the CI measurement and the merge twice, once for each
pipeline and in the same words. The model has one copy of each (`Graph.Revise`, `Publish`, `AskSre`, `Ship`), so on
those stretches the pipelines agree by construction; what the agreement theorems prove is everything around them:
gates and their recorders, pauses written by the job before, saving and loading, raises, endings and their order.

| modules | what they hold |
|---|---|
| `Text`, `Diff`, `DiffProperties`, `DiffSyntax` | the diff reader as a loop, its meaning without state, and what it reads, spelled out |
| `DiffPrinting`, `DiffRoundTrip` | diffs written down, any characters in their lines, and exactly when they read back |
| `DiffWrite`, `DiffPaths`, `SnapshotTree`, `Snapshot`, `SnapshotProperties`, `SnapshotPrinting` | writing a change for the scanners, the repository view, the second reader of the format |
| `State`, `Settings`, `Developer`, `Reviewer`, `SecurityAgent`, `SreAgent`, `GithubOps` | the records, the agents' code and the merge policy |
| `Sessions`, `Gates`, `Wording`, `Graph`, `RunStage` | the two pipelines |
| `Equivalence`, `Endings`, `Traces`, `Safety`, `Timeline`, `Delivery`, `Comments`, `KeyInChange`, `Poisoned`, `ReferenceDiff` | what they guarantee |
| `Approval`, `PauseMarker`, `ApprovalProperties` | the approval screen over the same log |
| `Order`, `Tables`, `LogStore`, `Backends` | the two storage backends |

## Main results

- One call and seven jobs end alike: same saved run, same facts logged, same calls in the same order, and the
  ending is the one a fixed priority order of the answers decides (`Endings.PipelinesAgree`).
- The whole log, every call and the saved document of a run, each told from the answers alone, for the runs that
  come back and for those that raise (`Traces`).
- In any order of jobs and decisions: at most one merge, never one the policy refuses; promoted means scanned and
  passed, a go from the SRE agent, three gates let through and none refused; a refusal is final. With the agent's own
  code behind that go, promoted also means that CI was not failing (`Safety`).
- The banner read off the last log row is the banner of the stored status on every ordered schedule; and for every
  step on a run that is over, whether it still is, and what the status then is, from what the step is given
  (`Timeline`).
- With the scanners down, a poisoned run that returns is blocked or was turned away at gate1, for every reply of
  every model, and the demo's own reference diff meets the theorem's condition (`Poisoned`, `ReferenceDiff`).
- Which lines count as "in the change", which file a header names and when the reader refuses, exactly and down to
  the characters (`DiffSyntax`, `DiffProperties`). For every diff with
  well-formed names, whatever characters its bodies hold: reading undoes printing exactly when each body line reads
  true, a condition on that line alone (`DiffRoundTrip`); and for every diff at all, exactly when it proposes a key
  (`KeyInChange`).
- With scanners that answer, a run past gate1 is blocked exactly when they report a finding at or above the
  threshold about its last change, and neither pipeline ever promotes it (`SecurityAgent`, `Endings.FoundNeverShips`).
- A target is written exactly when its own normal form leads strictly below the scratch directory (`DiffPaths`); a
  click is recorded exactly when the form says one run, one open gate and one of two words (`Approval.Apply`).
- One table is three independent stores whatever the page size, and the two backends read the same log exactly
  when a run's sort keys increase (`LogStore`, `Backends`).
- The approval screen shows a run with its next gate and with exactly the stages its own words are mistaken for, and
  no gate is accepted twice (`ApprovalProperties`).

## Where the code and its words differ

The model follows the code.

- A line that opens with `+++` without being a header is never in the change, not even after a line without a
  marker (`agentorg/common/diff.py:185-192`); `DiffProperties.AfterBareEverythingCounts` says exactly which lines are,
  `DiffProperties.PlusesAfterBareAreLost` is an instance. So an added line whose text opens with `++` is lost;
  `DiffPrinting.PlusesAreLost`.
- A written line is not one line to the reader when it holds a carriage return, a form feed, U+0085, U+2028 or
  another of Python's line breaks (`agentorg/common/diff.py:170`). An added line loses what follows the break, or is
  credited with a line of its own if that looks marked; a file with CRLF endings loses its carriage returns. These and
  the `++` lines are all there is: `DiffPrinting.KeptOfPrintedBody` is the exact condition for every body, and
  `DiffPrinting.SeparatorLosesTheRest` the loss, with a key behind a U+2028 as its instance.
- `_removed_lines` is described as mirroring the other header reader (`agentorg/repo_snapshot.py:297-299`). It does
  not for quoted names, numeric prefixes, a bare prefix and a prefixed absent file:
  `SnapshotProperties.HeadersAgree` is the exact condition, `SnapshotProperties.MisreadRemoval` what it costs,
  `SnapshotPrinting.QuotedNameIsTakenTwoWays` and `SnapshotPrinting.NumericPrefixIsTakenTwoWays` two instances.
- A deleted line whose text opens with `--`, a SQL or Lua comment or a YAML document mark, is read as header syntax
  by `_removed_lines` (`agentorg/repo_snapshot.py:314-317`) and stays in the view of the changed file; one with a line
  break inside is cut at the break. `SnapshotPrinting.RemovalsAreDeletions` says for every written diff, any characters
  in its bodies, exactly when what is removed from a file is what is deleted there, `SnapshotPrinting.DashedLineStays`
  and `SnapshotPrinting.SeparatorCutsTheDeletion` what happens otherwise, with instances `SnapshotPrinting.SqlCommentStays`
  and `SnapshotPrinting.XYIsCut`. A carriage return at the end of a line changes nothing.
- The comments of a single call are held back until there is a pull request (`agentorg/graph.py:541-549`), but a call
  that raises in between is saved with a branch and no pull request (`agentorg/graph.py:472-513`), and the next gate
  comments on a request nobody opened. `Comments.WalkComments` and `Comments.GateAfterWalk` say exactly when;
  `Comments.LooseBranch` is such a run.
- The view of a changed file drops a last added line that is empty (`agentorg/repo_snapshot.py:284-285`);
  `SnapshotProperties.AddedPartExactly`.
- A promoted run need not have been merged: the host's answer is logged and not read
  (`agentorg/graph.py:747-752`, `scripts/run_stage.py:896-903`); `Safety.PromotesExactly`,
  `GithubOps.MergeLandsExactly`, and `Safety.DeclinedYetPromoted` as the instance.
- A step that reaches a run already over is not always turned away: `gates.resume` never reads the status
  (`agentorg/gates.py:187-209`), so an approval of a blocked run makes the banner say it never ended;
  `Timeline.StepOutOfOrder` for every such step, `Timeline.ApprovalHidesABlock` for this one.
- A file that adds nothing is written as one empty line (`agentorg/common/diff.py:256`);
  `DiffWrite.WrittenReadsBack`.
- The budget the repository view calls bytes counts characters (`agentorg/repo_snapshot.py:165-168`).
- A ticket or a trigger that spells out the pause sentence makes the approval screen show the plan stage as a gate, and
  a pull request's address that does, the develop stage (`agentorg/approve_server.py:255-260`);
  `ApprovalProperties.ListedExactly` for the whole chain, `ApprovalProperties.MarkedTicketIsListed` for one such ticket.

## Model

| member | source | states |
|---|---|---|
| `Diff.ReadLines` | agentorg/common/diff.py:169-195 | the one-pass loop computes the dictionary that cutting the diff at its headers defines, and counts a header as recognised exactly when one of the sections was understood |
| `Diff.AddedFiles` | agentorg/common/diff.py:142-218 | answers each path with the lines its last section adds, or raises |
| `Diff.AfterBareStep` | agentorg/common/diff.py:112-139 | the loop's flag is: some line above, in the same hunk, carries no marker at all |
| `DiffProperties.SectionsConcat` | agentorg/common/diff.py:170-183 | text that starts at a header is cut the same way whatever stands before it |
| `DiffProperties.ConcatenationIsOverride` | agentorg/common/diff.py:142-195 | reading a concatenation at a header is the first dictionary overridden by the second |
| `DiffProperties.RefusesExactly` | agentorg/common/diff.py:197-217 | the reader raises exactly on text that is not blank and holds no header it can read |
| `DiffProperties.MarkedIsSubsequence` | agentorg/common/diff.py:186-192 | the lines marked `+` are all kept, in order |
| `DiffProperties.MarkedOnlyIffNoBare` | agentorg/common/diff.py:112-139 | nothing but marked lines is kept exactly when no line of the section lacks a marker |
| `DiffProperties.KeptIffInChange` | agentorg/common/diff.py:186-192 | a text is kept exactly when a line that is in the change carries it |
| `DiffProperties.AfterBareEverythingCounts` | agentorg/common/diff.py:112-139 | after a line without a marker, a line down to the next hunk is in the change exactly when it is not blank, not diff syntax, and opens with neither `-` nor `+++` |
| `DiffProperties.PlusesAfterBareAreLost` | agentorg/common/diff.py:185-192 | the instance: a `+++` line under a line without a marker is not in the change |
| `Text.CutsExactly` | agentorg/common/diff.py:170 | two texts with a character between them are two lines exactly for the ten characters `splitlines` cuts at, by number |
| `Text.ReturnAndNewlineCutOnce` | agentorg/common/diff.py:170 | a return and a newline are one break |
| `Text.StripsExactly` | agentorg/common/diff.py:79-102 | stripping takes away all white space at both ends, by number, and nothing else |
| `DiffSyntax.InChangeExactly` | agentorg/common/diff.py:105-139 | for every line: in the change exactly when marked with a `+` that opens no `+++`, or without marker and not white space or one of sixteen openings, or indented under such a line in its hunk |
| `DiffSyntax.SyntaxIsNeverInTheChange` | agentorg/common/diff.py:105-139 | a line that opens with one of the sixteen is never in the change, whatever follows and wherever it stands |
| `DiffSyntax.PrefixedName` | agentorg/common/diff.py:79-102 | each of the eleven prefixes and its slash are dropped from a header's name |
| `DiffSyntax.UnprefixedName` | agentorg/common/diff.py:79-102 | any other name, not quoted and not the absent file's, is the file |
| `DiffSyntax.QuotedName` | agentorg/common/diff.py:79-102 | quotes around a name make no difference |
| `DiffSyntax.SpacedName` | agentorg/common/diff.py:79-102 | nor does white space around it |
| `DiffSyntax.AbsentName` | agentorg/common/diff.py:79-102 | `/dev/null` names no file and its header is understood |
| `DiffSyntax.EmptyName` | agentorg/common/diff.py:79-102 | a header with no name, quoted or not, names no file |
| `DiffSyntax.HeadersCutExactly` | agentorg/common/diff.py:171-183 | a line cuts the diff exactly when it opens with `+++` and a space, whatever it names |
| `DiffSyntax.UnderstoodExactly` | agentorg/common/diff.py:177-181 | a header is understood exactly when it names a file or holds `/dev/null` |
| `DiffSyntax.OnlyDeletionsAreRead` | agentorg/common/diff.py:170-218 | a diff whose every header is `+++ /dev/null` is read as no files and not refused |
| `DiffSyntax.TwoFilesReadBack` | agentorg/common/diff.py:142-218 | two new files as git writes them, header lines and all: each path with its line and nothing else |
| `DiffRoundTrip.HeaderNamesThePath` | agentorg/common/diff.py:79-102 | the header printed for a file, with any listed prefix or none and anything after a tab, is read as that file's path |
| `DiffPrinting.KeptOfPrintedBody` | agentorg/common/diff.py:170-192 | for every body, any characters in it: the reader gives back its added lines exactly when no added line opens with `++` or holds a line break, and no break in another line leaves over something marked as added or without a marker |
| `DiffPrinting.WholeLinesLosePluses` | agentorg/common/diff.py:186-192 | without line breaks inside lines, only added lines that open with `++` are lost |
| `DiffPrinting.PlusesAreLost` | agentorg/common/diff.py:185-192 | the instance: nothing of an added `++x` is in the change |
| `DiffPrinting.SeparatorLosesTheRest` | agentorg/common/diff.py:170-192 | an added line with a line separator in it is kept up to the separator only, unless the rest looks like a change of its own |
| `DiffPrinting.KeyAfterSeparator` | agentorg/common/diff.py:170-192 | the instance: a key behind a U+2028 never reaches the scanners |
| `DiffRoundTrip.FileReadsBack` | agentorg/common/diff.py:170-192 | a written file is read as one section with its path and its added lines exactly when every line of its body reads true |
| `DiffRoundTrip.RoundTrip` | agentorg/common/diff.py:79-218 | for every diff with git's own header lines and well-formed names, whatever its bodies hold: it reads back as its files, in order, each with its path and exactly its added lines, if and only if every body line keeps its meaning and leaves no header over |
| `DiffRoundTrip.PrintedFiles` | agentorg/common/diff.py:142-218 | such a diff is answered as each path with its added lines, a repeated path keeping the last |
| `DiffRoundTrip.PrintedDistinct` | agentorg/common/diff.py:79-218 | over distinct paths: every path, in order, with exactly its added lines |
| `DiffWrite.Scratch.WriteFiles` | agentorg/common/diff.py:243-256 | succeeds exactly when every target is strictly inside the directory; otherwise the files before the first that is not are written and no more; whatever happens, nothing outside changes |
| `DiffWrite.Scratch.WriteAddedFiles` | agentorg/common/diff.py:221-256 | refuses an unreadable diff without writing, and otherwise writes only inside |
| `DiffWrite.LaidHolds` | agentorg/common/diff.py:243-256 | a written file holds what the last target that resolves to it gave it |
| `DiffWrite.ResolvedIsNormal` | agentorg/common/diff.py:242-250 | a resolved target holds no `.`, `..` or empty component, so comparing components decides containment |
| `DiffPaths.ResolvedExactly` | agentorg/common/diff.py:245-250 | a target leads to the normal form of its own components: an absolute one whatever it is joined to, a relative one by its steps up and down from the root |
| `DiffPaths.WritableExactly` | agentorg/common/diff.py:245-250 | a target is accepted exactly when that lies strictly below the root and the path can be spelled |
| `DiffPaths.DownwardIsWritable` | agentorg/common/diff.py:245-250 | a relative target that has no steps up left over is accepted exactly when it leads down at all |
| `DiffPaths.ComponentsExactly` | agentorg/common/diff.py:245-250 | components are what stands between the slashes |
| `DiffPaths.ParentTakesTheNameBefore` | agentorg/common/diff.py:245-250 | `..` takes away exactly the name before it, whatever stands before and after |
| `DiffPaths.CronIsRefused` | agentorg/common/diff.py:230-243 | the instance: `/etc/cron.d/x` is refused under every root it does not lie below |
| `DiffPaths.EscapeIsRefused` | agentorg/common/diff.py:230-243 | the instance: `../escaped.py` is refused under every root but the top |
| `DiffPaths.CronIsNotWritten` | agentorg/common/diff.py:221-256 | a diff that adds a file at the first is read, and nothing is written |
| `DiffPaths.EscapeIsNotWritten` | agentorg/common/diff.py:221-256 | nor for the second |
| `DiffWrite.RelativeStaysInside` | agentorg/common/diff.py:242-250 | a relative target that never climbs above its start resolves inside the root |
| `DiffWrite.WrittenReadsBack` | agentorg/common/diff.py:224-228 | a written file read by lines is the added lines, exactly when there is one |
| `DiffWrite.FileHoldsAddedLines` | agentorg/common/diff.py:221-256 | for every readable diff, line k of a written file is the k-th line the path's last section adds |
| `Developer.KeyIsInTheChange` | agentorg/agents/developer.py:57-73 | finds a key exactly when some proposed file holds one, and raises exactly when the diff cannot be read |
| `Developer.KeyExactly` | agentorg/agents/developer.py:57-73 | a key is `AKIA` and sixteen digits or capitals, anywhere in the text |
| `Developer.Run` | agentorg/agents/developer.py:159-209 | the caller's switch wins over the carried one; without poison the model's reply, or the clean fixture, comes back unchanged but for an empty branch; with it the same if it proposes a key, and otherwise with the reference's diff and files in it, summary, branch and address its own; a diff nobody can read raises |
| `Developer.DevelopedHandsBack` | agentorg/agents/developer.py:179-209 | so the specification the other theorems rest on hands back exactly that |
| `Developer.PoisonedDraftHasKey` | agentorg/agents/developer.py:183-209 | whatever the model replies, a poisoned draft that comes back proposes a key |
| `Reviewer.EnsureActionable` | agentorg/agents/reviewer.py:246-281 | fills the must-fix list in place and touches nothing else |
| `Reviewer.Run` | agentorg/agents/reviewer.py:284-295 | the review, made actionable |
| `Reviewer.RefusalIsActionable` | agentorg/agents/reviewer.py:246-281 | a refusal always names something to fix; verdict, comments and a list already there are kept |
| `Reviewer.NamesWhatWasSaid` | agentorg/agents/reviewer.py:275-281 | item k says comment k's file, line in decimal and note, in order; the fixed sentence stands there exactly when there are no comments |
| `SecurityAgent.SeemsPoisoned` | agentorg/agents/security.py:114-161 | no change is not poisoned, an unreadable one is, and otherwise a proposed key decides |
| `SecurityAgent.Run` | agentorg/agents/security.py:297-375 | scanners that answer: block exactly for a finding at or above the threshold, the report whole, the blocking list exactly those findings as often as reported; scanners that raise or are off: the block fixture exactly for a change with a key in it or that cannot be read, stamped as a fault or a choice |
| `SecurityAgent.SecuredJudges` | agentorg/agents/security.py:297-375 | so the specification the other theorems rest on judges exactly that way |
| `State.BlockingCounts` | agentorg/state.py:267-274 | the blocking list holds each finding at or above the threshold, level by level, as often as it was reported, and no other |
| `State.BlockingKeepsOrder` | agentorg/state.py:267-274 | in the order they were reported in |
| `State.BlocksIff` | agentorg/state.py:267-274 | block exactly when some finding is at or above the threshold, level by level |
| `State.BlockIsMonotone` | agentorg/state.py:267-274 | more findings or a lower threshold never unblock |
| `GithubOps.OpenPr` | agentorg/github_ops.py:146-235 | updates the developer's own result in place: branch and address new, diff, summary and files kept; when git or the host raises, nothing comes back and the branch is set all the same |
| `GithubOps.OpenedSays` | agentorg/github_ops.py:146-235 | the branch is the ticket's and the diff's, the address the host's or offline the branch's; diff, summary and files stay |
| `GithubOps.RefusalExactly` | agentorg/github_ops.py:681-725 | the merge policy lets through exactly the runs with a pass, a go, three gates let through and none refused |
| `GithubOps.RefusalReason` | agentorg/github_ops.py:681-725 | why a merge is refused: the scanners' word, then the SRE agent's, then the first gate refused, then the first nobody let through |
| `GithubOps.MergeRefusedExactly` | agentorg/github_ops.py:728-784 | a merge is refused exactly for a run the policy does not clear, online or offline |
| `GithubOps.MergeLandsExactly` | agentorg/github_ops.py:728-830 | a change lands exactly when cleared, online, on a branch, and accepted by the host |
| `GithubOps.ClearedMergeText` | agentorg/github_ops.py:728-830 | what a cleared run's merge is logged as: the branch offline, the landed address, or which failure |
| `GithubOps.RefusedMergeText` | agentorg/github_ops.py:728-784 | a refused one is logged as refused, whatever the host would say |
| `Sessions.World.Append` | agentorg/log.py:174-181 | one more row at the end of that run's log, every other run untouched |
| `Gates.Save` | agentorg/gates.py:126-151 | the run's document replaces the stored one, every other run untouched |
| `Gates.Load` | agentorg/gates.py:154-173 | a fresh run equal to the stored document, or nothing for an unknown run |
| `Gates.Pause` | agentorg/gates.py:176-184 | saves the run and logs that it waits at the gate |
| `Gates.Resume` | agentorg/gates.py:187-209 | appends the decision to whatever is stored, ends the run on a rejection, logs it and saves it |
| `Gates.DecisionIsRecorded` | agentorg/gates.py:187-209 | the decision ends the list and the log, an approval, a rejection or an override by its own name, and the run ends exactly on a rejection |
| `Graph.Decide` | agentorg/graph.py:317-345 | pauses, takes the answer, logs it, says so, and stops the run exactly on a rejection |
| `Graph.Revise` | agentorg/graph.py:556-576 | the loop over the objects does what the recursion over passes says, queue included, and stops where the developer raises |
| `Graph.Flush` | agentorg/graph.py:582-587 | posts the queue pair by pair, in order |
| `Graph.Publish` | agentorg/graph.py:578-623 | opens the pull request, posts the queue, then asks security about the change as opened; a raise while opening posts nothing and leaves the branch set |
| `Graph.DevelopLeg` | agentorg/graph.py:532-753 | everything past gate1, or the raise, as specified |
| `Graph.VerdictLeg` | agentorg/graph.py:624-705 | block first, then the review verdict, then gate2 |
| `Graph.SreLeg` | agentorg/graph.py:689-727 | measures CI before asking, stops on a no-go before gate3 |
| `Graph.PromoteLeg` | agentorg/graph.py:724-753 | refuses or merges, the merged row before the promoted one |
| `Graph.Walk` | agentorg/graph.py:515-753 | the whole walk over the objects is the composition of its legs |
| `Graph.RunPipeline` | agentorg/graph.py:444-513 | whichever way the walk comes back, a raise of the developer or of opening the pull request included, the run is saved and its ending reported; no other run changes |
| `RunStage.Emit` | scripts/run_stage.py:299-367 | saves, pausing for a gate if asked, and reports exactly the runs that have ended |
| `RunStage.StagePlan` | scripts/run_stage.py:370-412 | the plan job leaves a running run paused at gate1 |
| `RunStage.StageGate` | scripts/run_stage.py:415-454 | the gate job records an approval on whatever is stored; a missing run stops it without a trace |
| `RunStage.StageGateRejected` | scripts/run_stage.py:457-626 | the recorder ends a running run and leaves an ended one as it was, restating its ending |
| `RunStage.DeclinedSays` | scripts/run_stage.py:457-626 | a job that finds the run over writes two rows, the second with the run's own ending, and changes nothing else |
| `RunStage.StageDevelop` | scripts/run_stage.py:629-772 | the develop job over the store, its ways of ending, raises included, and what each leaves behind |
| `RunStage.StageSre` | scripts/run_stage.py:775-826 | the sre job over the store |
| `RunStage.StagePromote` | scripts/run_stage.py:829-903 | declines an ended run, refuses an unearned promotion, merges and promotes otherwise |
| `RunStage.UnearnedSays` | scripts/run_stage.py:829-903 | a promotion nothing earned fails the run with one row, reports it and merges nothing |
| `RunStage.RunChain` | scripts/run_stage.py:910-960 | the seven jobs over one store, each loading what the one before saved and run only if it exited 0, leave there exactly what the chain says, with the last exit code |
| `Equivalence.NotPromotableExactly` | agentorg/graph.py:369-441 | the second guard asks for a running run that the merge policy clears, and nothing else |
| `Equivalence.AgreeGate` | scripts/run_stage.py:415-626 | a gate inside the call and a gate job or its recorder leave agreeing runs |
| `Equivalence.SamePromote` | agentorg/graph.py:724-753 | after three gates the walk's refusal branch is never taken |
| `Equivalence.SameFromSre` | scripts/run_stage.py:775-903 | from CI on, walk and jobs end alike: no-go, then gate3, then promoted |
| `Equivalence.SameFromVerdicts` | scripts/run_stage.py:706-772 | from the verdicts on, walk and jobs end alike: block, then the review verdict, then gate2 |
| `Equivalence.SameFromDevelop` | scripts/run_stage.py:629-772 | the loop raises in both or settles alike in both, and the ending follows from the last pass |
| `Endings.RevisedIsPasses` | agentorg/graph.py:556-576 | the loop's passes depend on the answers and the count alone |
| `Endings.LoopCounts` | agentorg/graph.py:556-576 | passes are numbered on from one; there is one more than revisions counted; the cap is not overrun; the loop ends approved or at the cap |
| `Endings.LoopPrompts` | agentorg/agents/developer.py:102-117 | one developer call per pass, and each after the first shows the previous change and a non-empty must-fix list |
| `Endings.PipelinesAgree` | scripts/run_stage.py:370-930 | one call and seven jobs raise together or end in the same saved run with the same facts logged and the same calls made, and the ending is the one the answers decide in priority order |
| `Endings.BlockedExactly` | agentorg/graph.py:624-660 | blocked exactly when gate1 lets the run through and security says block |
| `Endings.FailingCiNeverShips` | agentorg/agents/sre.py:196-252 | a failing build is never promoted, whatever the advice |
| `Endings.ProseNeverDecides` | agentorg/agents/security.py:297-350 | with the security and SRE agents' own code behind them, two runs that differ only in what their models say end alike |
| `Endings.StricterNeverShipsMore` | agentorg/state.py:267-274 | finding more in every change or lowering the threshold never turns an unpromoted run into a promoted one |
| `Endings.FindingsDecide` | agentorg/agents/security.py:352-375 | with the agent's own code and scanners that answer: a run past gate1 whose passes settle and whose pull request opens is blocked exactly when they report a finding at or above the threshold about its last change |
| `Endings.FoundNeverShips` | agentorg/agents/security.py:352-375 | such a run is promoted by neither pipeline, whatever everybody else says |
| `Endings.ChainExitCodes` | scripts/run_stage.py:159-181 | the chain exits 0 for promoted, 3 for blocked, 4 for failed or rejected, 1 for a raise |
| `Endings.JobExitCodes` | scripts/run_stage.py:159-181 | a recorder exits 4 on a running run and 5 on an ended one; sre 4 on a no-go; promote 5 on an ended run, 6 on an uncleared one |
| `Endings.DevelopExitCodes` | scripts/run_stage.py:159-181 | develop exits 1 on a raise, 3 on a block, 4 on a review that is no approval |
| `Traces.StoryOfARun` | agentorg/graph.py:515-753 | the whole log of a run that comes back, row by row from the answers alone, in both pipelines: who, where, what, verdict, provenance and reference, the halt row's and the merge row's included |
| `Traces.TalkOfARun` | agentorg/graph.py:515-753 | every call made for it in order, each with its surface and content: prompts, comments, pull request, CI, merge, report |
| `Traces.EndOfARun` | agentorg/graph.py:515-753 | the document it is saved as: results, decisions in order, revision count and status |
| `Traces.StoryOfARaise` | agentorg/graph.py:444-576 | the whole log of a run that raises, in both pipelines: the opening and a proposal and a review for each pass made |
| `Traces.TalkOfARaise` | agentorg/graph.py:444-576 | every call made for it in order: the opening comments, one prompt a pass, one more if it was the developer that raised; the single call then reports it as running |
| `Traces.EndOfARaise` | agentorg/graph.py:472-513 | the single call saves its last draft, on a branch if opening the pull request raised, its last review and the count; the chain leaves the run as gate1 saved it |
| `Traces.LoopFacts` | scripts/run_stage.py:629-678 | the loop logs one proposal and one review per pass and nothing else |
| `Traces.VerdictCalls` | agentorg/graph.py:624-753 | what is said after security: nothing when blocked or unapproved, then gate, CI and merge as far as the answers let it get |
| `Safety.StepIsSafe` | scripts/run_stage.py:415-903 | every job and decision, on any stored run, keeps the safety invariant and only does lawful changes |
| `Safety.AlwaysSafe` | scripts/run_stage.py:370-903 | over every history in any order: safe, decisions only added, an ended run never runs again |
| `Safety.RejectionIsFinal` | agentorg/gates.py:187-209 | after one rejection no approval, override or promote ever promotes or merges the run |
| `Safety.PromotedMeansCleared` | agentorg/github_ops.py:681-725 | from plan on, promoted means merged once and cleared; no merge is ever one the policy refused |
| `Safety.AgentLetsCiDecide` | agentorg/agents/sre.py:196-252 | the SRE agent's own code says no-go exactly on a failing build, whatever the advice |
| `SreAgent.JudgedSays` | agentorg/agents/sre.py:196-252 | the measured check stands first and tells the measurement, the adviser's words follow, the fixture's when nobody advised; a carried measurement wins |
| `Safety.PromotedMeansNotRed` | agentorg/agents/sre.py:196-252 | with the SRE agent's own code behind every sre job, over every history: a promoted run's CI was not failing |
| `Safety.PromotesExactly` | scripts/run_stage.py:829-903 | a promote job promotes exactly the running, cleared runs, whatever the host answers |
| `Safety.DeclinedYetPromoted` | scripts/run_stage.py:896-903 | the instance: a merge the host declined is logged and the run promoted |
| `Safety.WalkIsSafe` | agentorg/graph.py:444-753 | what the single call leaves, returned or raised, stays safe under any later jobs and decisions |
| `Timeline.StepIsHonest` | agentorg/timeline.py:208-222 | in order, every step leaves the last row telling the stored status and never rewrites an ending |
| `Timeline.AlwaysHonest` | agentorg/timeline.py:208-222 | so does every ordered history |
| `Timeline.HonestExactly` | agentorg/timeline.py:208-222 | what that means, action by action: each ending has its own last action, and a run that is on ends on none of them |
| `Timeline.ChainBanner` | scripts/run_stage.py:540-626 | after the chain, recorders and promotes run any number of times leave the ending and its banner standing |
| `Timeline.WalkBanner` | agentorg/graph.py:515-753 | the single call's last row tells its status, raise or no raise |
| `Timeline.DevelopOutOfOrder` | scripts/run_stage.py:629-772 | a develop job on a run that is over keeps the banner exactly when its passes settle, the pull request opens and it finds a block or no approval, or when its first draft raises on a run whose banner was right |
| `Timeline.StepOutOfOrder` | agentorg/gates.py:187-209 | every job and decision on a run that is over: recorders and promote keep the banner, a gate job breaks it, a decision keeps it exactly when it rejects, sre exactly on a no-go, develop as above; and the status each leaves |
| `Timeline.StepHonestExactly` | agentorg/timeline.py:208-222 | so from a right banner the next is right exactly when the run is open or the step says an ending again |
| `Timeline.ApprovalHidesABlock` | agentorg/gates.py:187-209 | the instance: an approval of a blocked run leaves it blocked under a banner that says incomplete |
| `Timeline.BlockedRunTells` | agentorg/timeline.py:172-192 | both pipelines: the log of a blocked run ends on a row that tells posted for `https`, written locally for `local`, not reported for `comment`, unknown for any other scheme, nothing for no delivery |
| `Delivery.RefReadBack` | agentorg/timeline.py:195-205 | the delivery ref is read back out of the halt sentence exactly when it is one word |
| `Delivery.OldRowsTellTheSame` | agentorg/timeline.py:172-192 | rows without the ref field tell the same delivery as rows with it |
| `Delivery.NoteExactly` | agentorg/timeline.py:172-192 | what a reference tells is its scheme's, the text before the first `://` |
| `Delivery.OnlyTheHaltRowTells` | agentorg/timeline.py:172-192 | no other row tells anything |
| `Delivery.NoMarkerTellsNothing` | agentorg/timeline.py:195-205 | nor does a halt row without reference and without the words `block reason` |
| `Comments.StepPlaced` | agentorg/github_ops.py:282-309 | every job keeps: a comment resolves to the pull request exactly when one has been opened |
| `Comments.EveryCommentIsPlaced` | agentorg/github_ops.py:282-309 | over every history from plan on, each comment is on the pull request exactly when one was opened before it |
| `Comments.WalkComments` | agentorg/graph.py:472-513 | so is each comment of the single call, raise or no raise; and what it saves agrees with what it did exactly when gate1 stops it, or its passes settle and the pull request opens, or its developer raises with no branch in the last draft |
| `Comments.GateAfterWalk` | agentorg/graph.py:472-513 | a gate job on what the call saved comments in the right place exactly then |
| `Comments.CommentsAfterWalk` | agentorg/github_ops.py:282-309 | and then so does every later history |
| `Comments.LooseBranch` | agentorg/graph.py:472-513 | the instance: a draft on a branch, sent back, and a second that raises |
| `Comments.PairsInOrder` | agentorg/graph.py:582-587 | comments 2k and 2k+1 of the queue are pass k's own change and review |
| `Comments.DevelopSays` | agentorg/graph.py:532-623 | nothing is posted between the first draft and the pull request; then attempts 1 to n in pairs; then security |
| `KeyInChange.KeyProposedExactly` | agentorg/agents/developer.py:57-73 | for every diff: a key is proposed exactly when a line in the change, of the last section to name its file, carries one |
| `KeyInChange.PrintedKeyIsProposed` | agentorg/agents/developer.py:57-73 | a written change over distinct files answers yes when an added line carries a key before any break in it and is read as added, whatever the other lines hold, headers apart |
| `Poisoned.NetAndFallback` | agentorg/agents/security.py:297-350 | with the safety net in the developer and raising scanners behind security, every draft proposes a key and every change that does is blocked |
| `Poisoned.EveryPassHasKey` | agentorg/agents/developer.py:183-209 | the pass the loop settles on proposes a key |
| `Poisoned.PoisonedEnding` | agentorg/agents/security.py:297-350 | with scanners that raise: rejected if gate1 says so, no ending if the developer or opening the pull request raises, blocked otherwise |
| `Poisoned.PoisonedNeverShips` | agentorg/graph.py:515-660 | both pipelines end a poisoned run that way, with the matching exit codes |
| `ReferenceDiff.ReferenceReadsTrue` | make_fixtures.py:19-43 | the reference diff reads back file, lines and all |
| `ReferenceDiff.ReferenceAnswersYes` | make_fixtures.py:19-43 | and what it proposes holds a key |
| `ReferenceDiff.DemoFixtures` | make_fixtures.py:19-43 | fixtures built on it meet the condition of the poisoned theorem |
| `Approval.ListAwaiting` | agentorg/approve_server.py:163-268 | lists exactly the safe, readable, unfinished runs with an open gate, each with exactly its open gates by name, and counts every record it could not use |
| `Approval.Apply` | agentorg/approve_server.py:271-337 | a decision is recorded exactly when the request has no origin or one of four loopback names, each of three fields one value, the gate one of `gate1`, `gate2`, `gate3`, the decision `approved` or `rejected`, and the run is listed with that gate; then that decision ends the list and a rejection ends the run; otherwise nothing is touched |
| `Approval.AcceptedSays` | agentorg/approve_server.py:271-337 | the click acted on is the one the form spells out |
| `Approval.AwaitsExactly` | agentorg/approve_server.py:208-268 | a stage is listed exactly when the run is on, a row opened it with the words `awaiting human decision`, and no decision names it |
| `Approval.ShownByName` | agentorg/approve_server.py:263-268 | stages are listed in the order of their names |
| `Approval.RecordsAreTold` | agentorg/approve_server.py:208-268 | a run is listed exactly when its records can be used and something waits, counted exactly when they cannot, never both |
| `Approval.CountOfExactly` | agentorg/approve_server.py:208-268 | the count is that of the places where a record could not be used |
| `ApprovalProperties.SixJobsAreTheChain` | scripts/run_stage.py:930-930 | cutting the chain after each job and going on is the chain |
| `ApprovalProperties.ListedExactly` | agentorg/approve_server.py:208-268 | after every job of the chain a run that is not over is shown, by name, with the gate it waits at, the plan stage if ticket or trigger holds the pause sentence, and the develop stage if the pull request's address does; a run that is over is not shown |
| `ApprovalProperties.ShownRightExactly` | agentorg/approve_server.py:255-260 | after a job that exits 0 a run is shown with the next gate and nothing else exactly when no such text holds the pause sentence |
| `ApprovalProperties.ListedInMarkerFree` | agentorg/approve_server.py:208-268 | then it is shown exactly when plan, develop or sre ran last and succeeded |
| `ApprovalProperties.MarkedTicketIsListed` | agentorg/approve_server.py:255-260 | the instance: a ticket named after the pause sentence is shown at gate1 and at plan |
| `ApprovalProperties.AcceptedActs` | agentorg/approve_server.py:312-337 | an accepted request names a listed run, still running, at a gate paused and undecided, and never overrides |
| `ApprovalProperties.EachGateOnce` | agentorg/approve_server.py:312-337 | whatever happens in between, no gate of a run is accepted twice, none already decided, none once the run is over |
| `PauseMarker.StartIsMarked` | agentorg/approve_server.py:128-132 | the opening row reads as a pause exactly when the ticket or the trigger does |
| `PauseMarker.PausesAreMarked` | agentorg/gates.py:176-184 | every pause row reads as a pause |
| `Tables.Table.Query` | agentorg/log.py:214-243 | every item of the partition in key order, once, whatever the sizes of the pages |
| `Tables.PutThenLookup` | agentorg/log.py:174-193 | what was put is found, and nothing else moved |
| `Tables.PutKeepsSorted` | agentorg/log.py:214-243 | a partition stays in key order |
| `Order.LessExactly` | agentorg/log.py:214-243 | the order of keys: by the first character they differ in, a prefix first |
| `LogStore.AppendEvent` | agentorg/log.py:174-193 | one item put in the run's partition, or a refusal that writes nothing |
| `LogStore.Read` | agentorg/log.py:196-211 | every event of the partition without the state document, or a raise |
| `LogStore.WriteState` | agentorg/log.py:246-270 | the document and the index entry are written, or neither |
| `LogStore.ReadState` | agentorg/log.py:292-298 | the item under the state key of that run |
| `LogStore.SafeIdExactly` | agentorg/log.py:106-127 | a safe id is one component of a path at either separator, not `.` or `..`, without drive or NUL, of 1 to 200 characters, and not the index partition |
| `LogStore.ListIndexedRunIds` | agentorg/log.py:301-315 | the keys of the index partition |
| `LogStore.KeyIsAnEvents` | agentorg/log.py:83-85 | an event's key is the state key exactly for one spelling of its time and id |
| `LogStore.TableRefines` | agentorg/log.py:174-298 | after any history of writes to any runs, a run's partition is its own events in key order and its last document |
| `LogStore.ReadGivesTheEvents` | agentorg/log.py:196-211 | so reading a run gives its own events in key order and nothing of any other run |
| `LogStore.IndexHoldsSavedRuns` | agentorg/log.py:246-270 | the index names exactly the saved runs |
| `LogStore.IndexTellsTheStart` | agentorg/log.py:246-290 | each with the time its last document says it began |
| `LogStore.KeyOrderSorts` | agentorg/log.py:169-171 | events with keys of their own are all there, each once, in increasing key order |
| `LogStore.KeyOrderIsWritingOrder` | agentorg/log.py:169-171 | key order is writing order exactly when keys increase |
| `Backends.Disk.AppendEvent` | agentorg/log.py:174-181 | one more line in the run's file, or a refusal that writes nothing |
| `Backends.Disk.Read` | agentorg/log.py:196-202 | the file's lines parsed; no file, no events |
| `Backends.Disk.SaveState` | agentorg/gates.py:126-151 | the run's document replaces the stored one, or a refusal that writes nothing |
| `Backends.FileGivesTheEvents` | agentorg/log.py:196-202 | after any history the file reads back as the run's events in writing order |
| `Backends.BackendsAgree` | agentorg/log.py:169-298 | after any one history both backends give the same document and list the same runs, and read the same log exactly when the run's keys increase |
| `Snapshot.RemovedLines` | agentorg/repo_snapshot.py:290-319 | for each file the stripped text of its `-` lines that do not open with `---`, and no entry for a file without any |
| `Snapshot.PatchAll` | agentorg/repo_snapshot.py:266-287 | every touched file patched and every other as it was, in whatever order the paths come |
| `Snapshot.ApplyDiff` | agentorg/repo_snapshot.py:221-287 | nothing changes for a missing or unreadable diff; otherwise exactly the touched files do |
| `SnapshotTree.ReadTree` | agentorg/repo_snapshot.py:141-170 | sorts the walk by path and shows an initial segment of the files worth showing: all of them, or 40, or the first 120000 characters' worth, and less than 140015 |
| `SnapshotTree.WantedExactly` | agentorg/repo_snapshot.py:134-170 | worth showing: a readable file, none of its components one of ten directories, its name not ending in one of seventeen suffixes, in capitals or not |
| `SnapshotTree.ShownExactly` | agentorg/repo_snapshot.py:160-168 | under its path, whole, or its first 20000 characters and a mark |
| `SnapshotTree.ByPathRises` | agentorg/repo_snapshot.py:153-156 | the sorted walk rises strictly, component by component of the paths |
| `SnapshotTree.ByPathKeeps` | agentorg/repo_snapshot.py:153-156 | and holds every entry as often as the walk |
| `SnapshotTree.SnapshotIsDeterministic` | agentorg/repo_snapshot.py:153-156 | two reads of the same files give the same snapshot, text for text and in the same order, whatever order the file system lists them in |
| `SnapshotProperties.HeadersAgree` | agentorg/repo_snapshot.py:304-313 | the two header readers name the same file exactly for plainly written targets |
| `SnapshotProperties.RemovalsExactly` | agentorg/repo_snapshot.py:290-319 | where they agree, a text is removed from a file exactly when a `-` line of that file's own sections carries it and does not open with `---` |
| `SnapshotProperties.MisreadRemoval` | agentorg/repo_snapshot.py:290-319 | under one header, a line read as removed reaches the file the header names exactly when the target is plain |
| `SnapshotPrinting.QuotedNameIsTakenTwoWays` | agentorg/repo_snapshot.py:304-313 | the instance: one header with a quoted name, two readers, two paths |
| `SnapshotPrinting.NumericPrefixIsTakenTwoWays` | agentorg/repo_snapshot.py:304-313 | the instance: so for a numeric prefix |
| `SnapshotProperties.ChangedFile` | agentorg/repo_snapshot.py:221-287 | the surviving lines are those no line read as removed from that file says, in order and as often; then the marker and the added lines |
| `SnapshotPrinting.RemovalsOfPrinted` | agentorg/repo_snapshot.py:290-319 | for every written diff with plain names and no stray headers, any characters in its bodies: what is removed from a path is what the bodies under it remove, piece by piece |
| `SnapshotPrinting.RemovalsAreDeletions` | agentorg/repo_snapshot.py:290-319 | for every such diff, any characters in its bodies: what is removed from a path is exactly what is deleted there, if and only if no line under it is read to remove what nothing deletes and every deleted text is read as removed on some line |
| `SnapshotPrinting.RemovalsOfOrdinaryLines` | agentorg/repo_snapshot.py:314-317 | where every line removes at most its own text, exactly when no text is deleted by lines that remove nothing alone |
| `SnapshotPrinting.WholeLineRemovesItself` | agentorg/repo_snapshot.py:314-317 | a line without breaks is such a line, and removes nothing exactly when it is no deletion or opens with `--` |
| `SnapshotPrinting.ReturnedLineRemovesItself` | agentorg/repo_snapshot.py:314-317 | so is a line of a file with CRLF endings |
| `SnapshotPrinting.SeparatorCutsTheDeletion` | agentorg/repo_snapshot.py:314-317 | a deleted line with a line separator in it removes its first part instead |
| `SnapshotPrinting.XYIsCut` | agentorg/repo_snapshot.py:314-317 | the instance: `x`, U+2028, `y` deleted removes `x` |
| `SnapshotPrinting.DashedLineStays` | agentorg/repo_snapshot.py:314-317 | a single deleted line that opens with `--` is not removed at all |
| `SnapshotPrinting.SqlCommentStays` | agentorg/repo_snapshot.py:314-317 | the instance: a deleted SQL comment |
| `SnapshotPrinting.PrintedChange` | agentorg/repo_snapshot.py:266-287 | a line of the original stays, as often as it stood there, exactly when no line written under the path removes its text, any characters in the bodies |
| `SnapshotProperties.OtherFiles` | agentorg/repo_snapshot.py:266-272 | a file nothing adds to or removes from is left as it was, and a new file is its added lines |
| `SnapshotProperties.AddedPartExactly` | agentorg/repo_snapshot.py:279-285 | the added part is the marker and the added lines but for a last empty one |
| `SnapshotProperties.RewrittenReadsBack` | agentorg/repo_snapshot.py:274-286 | read by lines, a rewritten file is exactly its surviving lines, the marker and the added lines |

## Left out

- Model calls, scanners, retrieval, remote agents, cost records and model provenance: the agents are scripted
  answers, the scanners a finding list or a raise.
- An agent other than the developer raising: the others catch their own failures and fall back. What was raised is
  not told apart.
- `agentorg/fixtures_loader.py` and the fixture files: parameters of the model. `ReferenceDiff` carries the one
  diff the poisoned theorem needs.
- The code host, git and HTTP: what is kept is the calls made, in order, the references they hand back, and whether
  opening the pull request raises.
- File names with line breaks in them: git quotes those, and the headers of written diffs are taken to hold none.
- Comment wording, timestamps, `by`, `reason` and most log summaries: only the pause sentence, the opening row, the
  pull request row and the halt sentence are modelled, because something reads them back.
- The reason text of a merge refusal, kept as a value and not as words.
- JSON: a document saved is the document loaded, and the event codec is assumed to read back what it wrote.
- The queue of passes holds the passes' results as values. In the source the last of them is the object `open_pr`
  updates; `Comments.OpenedResultPostsTheSame` shows the posts do not depend on it.
- Crashes in the middle of a step, and two processes inside one step: every job, decision and click is atomic.
- Symlinks and errors of the file system: paths resolve lexically and writing succeeds.
- SnapshotTree.ReadTree: the walk is a given list of entries in any order, with their text already decoded, and a
  suffix is put in lower case by its ASCII letters.
- `scripts/worker.py`: its guarantees live in `agentorg/queue`, which is not part of this model.
- `agentorg/api`, `agentorg/agents/testgen.py`, `agentorg/agents/server.py`, tenancy, scoring, measuring and
  preflight scripts, the web pages and the decks: easy next to the rest, or reporting.
- Reviewer.Run: the retrieval notes the agent appends to the run are not modelled.
- SecurityAgent.Run: the scoring rows attached to the result, and how the explanation is bounded and logged, are not
  modelled; neither reaches the verdict.
- Approval.Apply: the answer page and the host lookup inside the origin header are not modelled; the host name is
  given.
