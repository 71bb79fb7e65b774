# llopster: verified models

llopster answers an Alertmanager firing by collecting evidence, asking language models for a diagnosis and a
patch, and opening a pull request. This project models the three parts of it whose correctness does not depend on
what a model answers, and proves what each of them keeps on every input and in every run.

**The unified-diff engine** (`Lines`, `Patch`, `SpliceFacts`, `DiffParser`, `DiffReading`, `DiffPrinter`, `Exact`,
`RoundTrip`, `Inversion`, `Relocation`, `Seams`, `Merging`, `Paths`, `PathGate`, `OpenPr`, `Allowlist`). The parser
and the cursor pass are loops proved against specification functions, and the hunk search is characterised by what it
returns. Around these stand the laws: an edit script survives printing, parsing and applying; a patch succeeds or
fails exactly as the search specification says; inverting undoes; stale headers and lines inserted above do not matter
where anchors are unambiguous; one pass is bottom-up editing. `OpenPr` puts the requests of a call on a trace.
`DiffReading` and `PathGate` say on the characters of a diff and of a path what is read and what is refused.

**The run lifecycle** (`Repository`, `Pipeline`, `World`, `Lifecycle`, `RunRate`, `OnePr`, `OnePull`, `Blindness`,
`OneOpenRun`, `Scenarios`, `Spacing`, `Reachability`, `Agent`, `Processor`, `Outcomes`, `Tables`, `Handlers`,
`Dispatchers`, `DedupKey`). `World` is a transition system over the run table, the settings, the clock, the live
pipelines, the handlers between insert and launch, GitHub, a poller, a pruner, an operator and crashes. One step is
one commit, and steps of all participants interleave freely. The theorems speak of every reachable state. `Agent`
holds the same tables in fields, `Processor.ProcessAlert` is the pipeline as a program with its early returns and
exception paths, and `Handlers` the webhook, the triggers and the poll tick. Whatever the others do at each suspension
is an input, and every such program is proved to be a run of the transition system, so the theorems hold of the
programs. `Outcomes` says which end every undisturbed run has, and `Tables` what the settings, the gates and the
writes mean on the columns themselves.

**Cluster evidence** (`Redaction`, `RedactionKeys`, `InPlace`, `Ordering`, `Events`, `Cluster`, `Collector`,
`Evidence`). Redaction is described by an automaton over the positions of a JSON tree, and proved to hide exactly the
withheld positions; `InPlace` runs the same passes as loops that overwrite nested values, and `RedactionKeys` tells
the withheld positions by the keys on the way. The owner walk, the event lists and the whole collection run over a
client that puts every request on a trace and gets arbitrary answers; `Evidence` says label by label what an alert
names and what is therefore asked for and kept.

Where the code and its comments disagree the model follows the code:

- `src/agent/dedup.py:86` says that the poller fills in a missing pull request status on its next tick. The query of
  the poller is a bare `NOT IN` (`src/db/repository.py:563`), which drops rows without a status, and nothing else writes
  that column. `Blindness` proves the consequences: the poller has nothing to do, the grace period never begins, and a
  recorded pull request blocks its alert until the row is pruned, also when it has been closed (`Scenarios`).
- `src/agent/dedup.py:50` means the open statuses to cover every run that is being worked on; `triaging` and
  `investigating` are not among them. `OneOpenRun` says exactly which runs the lookup misses and exactly when the
  property holds, and `Scenarios` gives a run in which it fails.
- The backoff counts from the creation of a run, not from its end (`src/agent/dedup.py:141`). The spacing theorem is
  about creation times, and a run that outlasts its window holds nobody up.
- The breaker counts the run that asks (`src/agent/cost_breaker.py:105`), so a ceiling of n lets n - 1 runs an hour
  through; `Scenarios` has a run with that many.
- Texts are joined and split again (`src/integrations/github_client.py:319`), so a line ended by a bare CR merges with
  an empty line put after it, or with the end of the file. `Inversion` and `Seams` say exactly when that matters, and
  `Merging` shows what then fails.

Assumptions that a theorem needs beyond its own text are predicates named in its `requires`: `NoOverlap` (pipelines of
one key do not overlap), `Careful` (no crash and no failing write between opening a pull request and recording it, and
pruning keeps rows in use), `AllLookUp` (lookup and insert in one step, no manual runs), `StartsDirect` (both phases
off), `Steady` (the backoff setting stays and rows are kept for one window), `Calm` (no crash, and the last write of a
failing pipeline succeeds).

`dafny verify dfyconfig.toml` checks everything.

## Model

| member | source | states |
|---|---|---|
| `Patch.LocateIsNearest` | src/integrations/github_client.py:244-306 | the search returns an offset exactly when it is the feasible one nearest to the header, the earlier of two equally near ones, and nothing exactly when no offset at or after the cursor is feasible |
| `Patch.NoneIsNearer` | src/integrations/github_client.py:275-306 | in lines and numbers: wherever else the anchor fits from the cursor on, the place found is no farther from the header, and earlier when it is as far |
| `SpliceFacts.PatchesExactly` | src/integrations/github_client.py:309-345 | a patch succeeds with a given output if and only if there are offsets, each the best one left by those before it, whose splice is that output |
| `SpliceFacts.FailsExactly` | src/integrations/github_client.py:266-306 | a patch is refused if and only if some hunk has no feasible offset after the ones chosen before it; the error names that hunk |
| `SpliceFacts.AnchorsPresent` | src/integrations/github_client.py:266-272 | output means that every context and removal line was in the file |
| `SpliceFacts.SpliceExact` | src/integrations/github_client.py:323-345 | every line between hunks stands unchanged in the output, shifted by the growth so far; each hunk fills exactly its own range; line counts add up |
| `SpliceFacts.NewSideAt` | src/integrations/github_client.py:330-340 | inside a hunk a kept line is the line of the file with its own terminator, an added line is the text of the diff completed with LF |
| `Patch.ApplyHunks` | src/integrations/github_client.py:323-345 | the cursor loop computes the specified patch of the lines, errors included |
| `Patch.ApplyPatch` | src/integrations/github_client.py:309-345 | the method on text computes the specified patch of the text |
| `DiffParser.ParseFilePatches` | src/integrations/github_client.py:201-241 | the parsing loop with its three variables computes the fold of the parser state machine over the lines; what that fold makes of every kind of line is said in `DiffReading` |
| `DiffParser.ParseIsGood` | src/integrations/github_client.py:201-241 | whatever the text, paths are distinct and no hunk or patch is empty |
| `DiffReading.UnknownLineIsDropped` | src/integrations/github_client.py:213-241 | a line that starts with none of the six prefixes of the format, such as the marker for a missing final newline, changes nothing wherever in a diff it stands |
| `DiffReading.DiffIsRead` | src/integrations/github_client.py:213-241 | a diff in any arrangement of file headers, hunk headers and other lines is read as its files in order, each with its hunks, each with exactly the lines behind its header that start with a blank, a minus or a plus, in order |
| `DiffReading.HeaderExactly` | src/integrations/github_client.py:226-231 | a hunk header of the right shape, with or without counts, is read by its old start line, and any other counts as line 1 |
| `DiffReading.PathExactly` | src/integrations/github_client.py:223-225 | a file header names what is behind its prefix without surrounding white space and without `b/`; a path without that prefix is kept whole |
| `DiffReading.PutExactly` | src/integrations/github_client.py:219-220 | a file that comes twice keeps its place and the later hunks; every other file is kept |
| `DiffPrinter.ParsePrintExactly` | src/integrations/github_client.py:201-241 | printing patches and parsing them gives the same patches, header numbers included, if and only if no body line looks like a file header |
| `DiffPrinter.HeaderLikeLineIsLost` | src/integrations/github_client.py:214-224 | a removed line that starts with two dashes and a blank is lost: a concrete diff |
| `Exact.PatchExact` | src/integrations/github_client.py:284-290 | with exact headers no hunk is relocated and the result is the splice at the headers |
| `RoundTrip.ApplyScript` | src/integrations/github_client.py:309-345 | the hunks of any edit script turn the old text into the new text |
| `RoundTrip.PrintParseApply` | src/integrations/github_client.py:201-345 | any multi-file, multi-hunk edit script, printed as a diff, parsed and applied, yields exactly the new files |
| `Inversion.UndoLines` | src/integrations/github_client.py:244-345 | the inverse hunks, renumbered from the located offsets, always apply, and give the old lines back if and only if every removed line ended in LF alone |
| `Inversion.UndoText` | src/integrations/github_client.py:309-345 | for parsed hunks, applying the inverse to the patched text restores the original if and only if no bare CR in the patched file ends it or meets an empty line, the original ended in a newline (or was empty), and every removed line ended in LF alone, also after relocation |
| `Inversion.UndoApplies` | src/integrations/github_client.py:309-345 | where no bare CR is completed, the inverse is never refused |
| `Inversion.PlainFileReadsBack` | src/integrations/github_client.py:309-345 | in a file without bare CR none is completed, after any patch |
| `Lines.ReadsBackExactly` | src/integrations/github_client.py:319-321 | what the condition means: lines with their terminators, joined and split again, are the same lines if and only if no bare CR is the last character or stands before an empty LF line |
| `Merging.UndoCanFail` | src/integrations/github_client.py:309-345 | where a bare CR is completed the inverse can even be refused: a concrete file and patch |
| `Relocation.HeadersDoNotMatter` | src/integrations/github_client.py:284-306 | if every anchor has one match left when its turn comes, other header numbers give the same text or the same error |
| `Relocation.InsertionAboveCommutes` | src/integrations/github_client.py:284-306 | inserting lines anywhere above the first hunk commutes with patching if each anchor occurs once in the longer file; the lines above the insertion stay as they were |
| `Relocation.TextAboveCommutes` | src/integrations/github_client.py:309-345 | the same on text, for every insertion point that cuts no CRLF in two and where no bare CR meets an LF |
| `Relocation.OnePassIsBottomUp` | src/integrations/github_client.py:323-345 | with exact headers the single cursor pass gives what applying the hunks alone, last one first with unchanged headers, gives |
| `Seams.TextOnePassIsBottomUp` | src/integrations/github_client.py:309-345 | the same on text, whenever every seam agrees: a condition on the file's own lines and on what the later hunks make of the rest, seam by seam |
| `Seams.StepExactly` | src/integrations/github_client.py:309-345 | one step, exactly: put together, read back and patched at the end of its first part, a file gives the text of its patched lines if and only if it does not end in a bare CR and, where an LF completes the line before the seam, the hunk removes that line with nothing behind it, or adds only empty lines after it with something behind it |
| `Seams.TwoHunksExactly` | src/integrations/github_client.py:309-345 | so for two hunks the single pass and the bottom-up edits of the text agree if and only if that one step does |
| `Seams.ClearSeamsAgree` | src/integrations/github_client.py:309-345 | seams agree where a line stands between the hunks or the line before is not ended by a bare CR, if the file keeps a last line that is not |
| `Seams.ReadBackAgrees` | src/integrations/github_client.py:309-345 | and where every file between the steps reads back as it was put together |
| `Seams.PlainSeamsAgree` | src/integrations/github_client.py:309-345 | and they always agree in a file without bare CR |
| `Merging.BottomUpCanDiffer` | src/integrations/github_client.py:309-345 | where a seam does not agree the two can differ: a concrete file and two hunks |
| `Merging.DifferencesCanCancel` | src/integrations/github_client.py:309-345 | from three hunks on agreement of every seam is not necessary: a concrete file in which two differences cancel |
| `Paths.NormalSegments` | src/integrations/github_client.py:97-111 | a normalised path is a join of segments without slashes, none empty and none a dot |
| `Paths.NormalizeTwice` | src/integrations/github_client.py:97-111 | normalising twice is normalising once if and only if the path has no segment to keep, or the first one kept does not start and the last one does not end with white space |
| `Paths.NormalizeIsNotIdempotent` | src/integrations/github_client.py:97-111 | a path for which it is not |
| `OpenPr.GitHub.CheckGates` | src/integrations/github_client.py:424-441 | a refusal exactly when some path is protected or outside the allowlist, and no request either way; which paths those are is said in `PathGate` |
| `OpenPr.GitHub.PatchAll` | src/integrations/github_client.py:449-457 | one read for each file until one is missing or does not apply; success means every hunk of every file applied |
| `OpenPr.GitHub.OpenPr` | src/integrations/github_client.py:412-481 | a pull request is returned if and only if every gate, hunk and validation passed and no request was refused; then the trace is all reads, then branch, updates and pull request |
| `OpenPr.VerifiedBeforeWrite` | src/integrations/github_client.py:447-469 | in every trace of a call, before any write everything was read and verified |
| `OpenPr.NothingUnchecked` | src/integrations/github_client.py:422-469 | so in every trace that writes anything every file of the diff was admitted, is there, has the content its hunks give it, and is valid |
| `OpenPr.CommitsAreVerified` | src/integrations/github_client.py:471-476 | a committed file has exactly the content its hunks give it, passed both gates and was validated |
| `OpenPr.PullRequestComesLast` | src/integrations/github_client.py:468-481 | the pull request is the last request, after the update of every file |
| `OpenPr.FullLogExactly` | src/integrations/github_client.py:412-481 | the requests of a call that opens a pull request, one by one: the default branch, each file in order, the new branch, each file's commit with the content its hunks give it, and the pull request |
| `OpenPr.RefusedPathIsSilent` | src/integrations/github_client.py:424-441 | one refused path means no request at all |
| `PathGate.SegmentsExactly` | src/integrations/github_client.py:97-103 | the segments of a path, whatever white space surrounds it, are what stands between its slashes, without empty ones and single dots |
| `PathGate.ProtectedExactly` | src/integrations/github_client.py:80-188 | a path is refused if and only if it has no segment, climbs, lies under the templates of a chart (of anything, when charts are unknown) or in a CI directory, or ends in a CI or container file, in any case; the names are written out |
| `PathGate.LowerExactly` | src/integrations/github_client.py:178-181 | case is folded letter by letter and nothing else changes |
| `PathGate.AllowedExactly` | src/integrations/github_client.py:426-440 | a path is on the allowlist if and only if an allowed path has the same segments |
| `PathGate.ForbiddenPathIsSilent` | src/integrations/github_client.py:424-441 | one such path in a diff, or one outside the allowlist, and no request is sent at all |
| `Allowlist.ParseAffectedFiles` | src/agent/investigator.py:183-213 | the first known paths in order of mention, each once, and all of them when there are fewer than twenty |
| `Allowlist.BulletExactly` | src/agent/investigator.py:198-209 | the item of a bullet line is read as it is, behind one marker or none, in code quotes or without, whatever white space stands between them |
| `Allowlist.PromptMatchesGate` | src/agent/processor.py:463-479 | the files asked for by the narrowed prompt are exactly the files the gate admits, and one exists exactly when the other does |
| `Allowlist.AdmittedExactly` | src/agent/processor.py:463-589 | the allowlist is exactly the files of the investigation and, for an image or a chart built elsewhere, the declared version file if it lies in the same repository |
| `Allowlist.ChooseBlob` | src/agent/patch_generator.py:205-228 | the prompt is narrowed exactly when some file asked for can be read; otherwise the whole tree is shown |
| `Allowlist.ShownMatchesGate` | src/agent/patch_generator.py:207-228 | a narrowed prompt shows every readable file the gate admits and no other; after the fallback none of the files the gate admits can be read |
| `Allowlist.CommitsStayInside` | src/agent/processor.py:463-490 | with a non-empty investigation every committed path normalises to a known affected file or the version reference of the same repository, and the narrowed prompt asked for it |
| `DedupKey.OwnKeyExactly` | src/agent/dedup.py:37-46 | an alert's key is its own, every alert with the key having the same name, service and severity up to case and surrounding white space, if and only if no other two colons of the key stand between trimmed lower-case texts |
| `DedupKey.PartExactly` | src/agent/dedup.py:37-46 | a field is its text without surrounding white space in lower case; a missing or empty one counts as `unknown` |
| `DedupKey.PlainKeyIsOwn` | src/agent/dedup.py:37-46 | an alert without colons in its fields has its key to itself |
| `DedupKey.ColonsCollide` | src/agent/dedup.py:37-46 | with colons two different alerts can share a key: a concrete pair |
| `Repository.GraceByLatest` | src/agent/dedup.py:179-220 | asking whether the latest merge is inside its window is asking whether any merge is |
| `Pipeline.NextIsSuccessor` | src/agent/processor.py:97-549 | what each session of the pipeline can be followed by |
| `Pipeline.BlocksEnd` | src/agent/processor.py:97-549 | every session, raising or not, brings the pipeline closer to its end |
| `Pipeline.BlockIsLocal` | src/db/repository.py:72-232 | a session changes no other row and no setting but the processing mode |
| `Lifecycle.DoInv` | src/agent/processor.py:97-549 | every action of every participant keeps the invariant that ties rows, pipelines, handlers and histories together |
| `Lifecycle.EveryHistoryIsAPath` | src/agent/processor.py:97-549 | in every reachable state every status history is a path of one automaton with at most nine statuses, queued at most once; a done row has exactly one of a pull request and a skip reason; a queued row has neither a pull request nor a model result |
| `Lifecycle.MeasureFalls` | src/agent/processor.py:97-549 | every status change makes a lexicographic measure smaller |
| `Lifecycle.NeverQueuedAfterLlm` | src/agent/processor.py:156-165 | once a model result has been recorded the run is never queued again |
| `Lifecycle.SessionsAreBounded` | src/agent/processor.py:97-549 | whatever is interleaved, the pipelines of one run have at most 46 sessions in all |
| `Lifecycle.NoRunIsLost` | src/agent/processor.py:541-549 | without crashes and failing last writes every row is terminal, queued, or in the hands of a handler or a pipeline |
| `RunRate.EveryHourIsBounded` | src/agent/cost_breaker.py:104-111 | with a fixed positive ceiling, for every hour in every reachable state, at most ceiling minus one runs were both created and let through within that hour |
| `Scenarios.TheBoundIsReached` | src/agent/cost_breaker.py:104-111 | for every ceiling and initial state there is a run in which ceiling minus one runs are created and let through at one moment |
| `RunRate.TheBreakerIsTheOnlyWayIn` | src/agent/processor.py:156-165 | no enforced pipeline is past the breaker without having been let through, unless the breaker itself failed |
| `RunRate.ManualUntilWritten` | src/agent/processing_mode.py:35-52 | manual mode, tripped or set, lasts until an operator writes another mode, whatever runs end, crash or are dispatched in between |
| `OnePr.AtMostOneOpenPr` | src/agent/dedup.py:77-105 | when pipelines of one key do not overlap, in every reachable state at most one row of the key has a pull request neither closed nor merged |
| `OnePull.OnePullPerKey` | src/integrations/github_client.py:412-481 | if moreover what is opened gets recorded and rows in use are not pruned, GitHub never has two open pull requests for one key |
| `Blindness.ListedExactly` | src/db/repository.py:557-566 | the poller is given exactly those blocking rows that already have a status |
| `Blindness.ThePollerIsBlind` | src/db/repository.py:557-580 | from an empty database the poller never has a row to ask about and no grace window ever opens |
| `Blindness.BlockedUntilPruned` | src/agent/dedup.py:84-98 | a recorded pull request therefore blocks every later run of its alert until its row is pruned, whatever happens to it on GitHub |
| `Scenarios.ClosedStillBlocks` | src/agent/dedup.py:84-98 | a concrete run from an empty database after which the pull request is closed on GitHub and its row still blocks |
| `Scenarios.ClosedBlocksOn` | src/agent/dedup.py:84-98 | and goes on blocking through any further run until its row is pruned |
| `OneOpenRun.LookupMisses` | src/agent/dedup.py:52-74 | the lookup misses exactly the unfinished runs that are being triaged or investigated |
| `OneOpenRun.OneUnfinishedExactly` | src/api/main.py:395-436 | from any reachable state with at most one unfinished run of each key, along any run whose inserts follow a lookup that found nothing: every state has at most one unfinished run of each key if and only if no alert arrives while a run of its key is being triaged or investigated |
| `OneOpenRun.AtMostOneOpenRun` | src/api/main.py:395-436 | so with both phases off, from an empty database, at most one run of each key is unfinished, and at most one open, in every reachable state |
| `Scenarios.TriageHidesARun` | src/agent/dedup.py:52-74 | with triage on the arrival can come too early: a concrete run with two open runs although every insert followed a lookup that found nothing |
| `Spacing.SkipsChangeNoDecision` | src/agent/dedup.py:108-149 | adding any number of skipped rows changes no decision of any gate |
| `Spacing.SpentRunsAreSpaced` | src/agent/processor.py:198-215 | with a fixed window, no overlap and rows kept for a window, of two runs of one key that passed the gate and ended without a pull request, one passed it more than a window after the other was created |
| `Spacing.SpentRunsSpan` | src/agent/processor.py:198-215 | k such runs whose gate ran when they were created span at least k minus one windows |
| `Spacing.OldRunsHoldNobodyUp` | src/agent/dedup.py:119-149 | a run created more than a window ago holds nobody up, however recently it ended: the gate decides as if its row were not there |
| `Spacing.LongRunIsFollowedAtOnce` | src/agent/dedup.py:119-149 | a concrete run that outlasted the window, has just failed, and leaves the gate open |
| `Repository.NewRunIsFound` | src/db/repository.py:46-70 | a new run is found by the next lookup for its key; no lookup of another key and no gate decides differently because of it |
| `Repository.NewRunIsCounted` | src/db/repository.py:46-70 | and the breaker counts it once from the moment it is created |
| `Agent.Agent.UpdateStatus` | src/db/repository.py:72-84 | the status is replaced, the message only by another message; a missing row stays missing |
| `Repository.RecordedPrBlocks` | src/db/repository.py:196-213 | a recorded pull request holds up every other run of its key and none of another key; a recorded reason takes the row out of the gate, whatever it named before |
| `Repository.NotificationsAreInvisible` | src/db/repository.py:216-231 | whether somebody was notified changes the answer of no query |
| `Agent.Agent.UpdatePrStatus` | src/db/repository.py:569-580 | the status is replaced and the first observed merge stamped |
| `Agent.Agent.DeleteRunsOlderThan` | src/db/repository.py:418-433 | exactly the rows created before the cutoff are gone, and their number is returned |
| `Agent.Agent.SetProcessingMode` | src/agent/processing_mode.py:47-52 | an unknown mode is refused and writes nothing |
| `Handlers.PruneOnce` | src/agent/run_pruner.py:32-64 | the retention is read in one session, and a later one deletes by it whatever the setting has become; nothing is deleted without a positive retention; the tick is a run of the transition system |
| `Agent.Agent.PollRow` | src/agent/pr_poller.py:49-52 | the polling step of the transition system for one row |
| `Agent.Agent.Settle` | src/agent/processor.py:97-549 | what a session has committed is the step the transition system allows its pipeline |
| `Agent.Agent.Await` | src/agent/processor.py:97-549 | while a coroutine is suspended others take any steps but its own |
| `Processor.CheckCostBreaker` | src/agent/cost_breaker.py:92-135 | the count is compared with the ceiling, and an error counts as not tripped |
| `Processor.ResolveRunsCeiling` | src/agent/cost_breaker.py:43-50 | the specified ceiling; which one that is, is said in `Tables.CeilingExactly` |
| `Tables.CeilingExactly` | src/agent/cost_breaker.py:43-50 | the ceiling is n if the setting is there, not blank and reads as n, and the default otherwise |
| `Tables.TripsExactly` | src/agent/cost_breaker.py:104-111 | the breaker trips on runs if and only if the ceiling is positive and at least that many rows were created within the hour |
| `Tables.ConfiguredHourIsBounded` | src/agent/cost_breaker.py:43-111 | where the setting reads as n and is left alone, no hour of any run from an empty database sees n runs both created and let through |
| `Tables.ConfiguredBoundIsReached` | src/agent/cost_breaker.py:43-111 | and n - 1 are reached, for every such n |
| `Tables.BackoffExactly` | src/agent/processor.py:172-201 | the backoff window is the setting in minutes if it reads as a number, the default if it is missing or empty, and anything else ends the run |
| `Tables.GraceExactly` | src/agent/processor.py:217-235 | the grace period in the same way, with a default of thirty minutes |
| `Tables.RetentionExactly` | src/agent/run_pruner.py:32-45 | the retention is the setting if it reads as a number and the default otherwise |
| `Tables.PrunedExactly` | src/db/repository.py:418-433 | the rows of the last days stay, as they are, and no others |
| `Tables.BlocksExactly` | src/agent/dedup.py:77-105 | a run is held up by a row of its key with a pull request whose status is neither closed nor merged, and by no other |
| `Tables.BackoffCounts` | src/agent/dedup.py:108-149 | the backoff gate sees exactly the rows of the key that ended done or failed without a pull request and were created since |
| `Tables.GraceCounts` | src/agent/dedup.py:179-220 | the grace gate sees exactly the merges of the key that are less than the period ago |
| `Tables.DuplicateExactly` | src/agent/dedup.py:49-74 | an alert is a duplicate exactly while a run of its key has one of five statuses, which are written out |
| `Tables.ManualExactly` | src/agent/processing_mode.py:35-45 | the mode is manual if and only if the setting is exactly that word |
| `Tables.StatusExactly` | src/db/repository.py:72-84 | a status write changes the status of one row, its message only to another one, and nothing else |
| `Tables.PollExactly` | src/agent/pr_poller.py:49-52 | what GitHub says is written if and only if it differs from what the row has, where nothing counts as open; the first merge is stamped with the time it was seen |
| `Tables.LaunchExactly` | src/api/main.py:422-467 | a new run starts from a blank pending row with the settings, and asks the breaker exactly when no operator submitted it |
| `Tables.ParkExactly` | src/api/main.py:422-445 | in manual mode the row becomes queued and nothing starts |
| `Tables.DispatchExactly` | src/api/trigger_routes.py:197-240 | a queued run, and no other, goes back to pending with a pipeline that does not ask the breaker; the rest of its row stays |
| `Processor.FindPreviousMergedAttempt` | src/agent/dedup.py:179-202 | the most recently merged run of the key, and none exactly when there is none |
| `Processor.LookForRecentMerge` | src/agent/processor.py:217-246 | skips exactly when the most recent merge is inside the grace window |
| `Processor.LookForOpenPr` | src/agent/processor.py:167-179 | the open pull request gate and the backoff setting read with it |
| `Processor.LookForRecentRun` | src/agent/processor.py:200-215 | the backoff gate |
| `Processor.PostPatch` | src/agent/processor.py:446-516 | opening the pull request, with every exception path: wherever it stops, the pipeline stands where the transition system has it, and undisturbed it is still on its way to the end that `Outcomes` gives it |
| `Processor.ProcessAlert` | src/agent/processor.py:69-549 | whatever is interleaved and whichever sessions raise, it ends, what it has done is a run of the transition system, and its row is settled unless even writing failed raises; when nothing is interleaved and no session raises, the row has exactly the end of `Outcomes.RunEndsExactly` |
| `Outcomes.RunEndsExactly` | src/agent/processor.py:97-549 | which end an undisturbed run has, told by the final row, the gates and what the world answers: a patch that does not apply fails it without a pull request or a notification; an opened pull request makes it done with its number; anything else that keeps it from one makes it done with a reason; a filtered alert, a gate, a missing patcher, a triage that says so and a suspended delivery skip it with its other columns as they were; a trip parks it; collecting, generating or a setting that fails ends it failed |
| `Outcomes.RaisedFails` | src/agent/processor.py:517-549 | a session that raises fails the run and leaves its other columns, unless it is the breaker, the opening or recording of the pull request, or the last write |
| `Outcomes.RaisedBreakerPasses` | src/agent/cost_breaker.py:92-135 | a breaker that raises lets the run go on at the first gate |
| `Outcomes.RaisedPullRequestIsAReason` | src/agent/processor.py:497-516 | a pull request that cannot be opened or recorded is a reason for none, and the run is done |
| `Outcomes.RaisedLastWriteIsLost` | src/agent/processor.py:541-549 | when even writing failed raises, the database stays as it is |
| `Handlers.HandleAlert` | src/api/main.py:395-467 | a known open run means no row; otherwise a row is parked or gets a pipeline, as the mode of the batch says |
| `Handlers.Webhook` | src/api/main.py:381-480 | the mode is read once for the batch; the whole call is a run of the transition system, and undisturbed it is exactly its alerts one after the other |
| `Handlers.BatchKeepsOneOpen` | src/api/main.py:395-436 | an undisturbed batch keeps at most one open run per key |
| `Handlers.TriggerSubmit` | src/api/trigger_routes.py:143-175 | a manual run that the breaker never holds up |
| `Handlers.TriggerDispatch` | src/api/trigger_routes.py:185-240 | the row is checked in one session and set to pending in a later one, with anything in between; only a queued run starts again, from pending, and every refusal leaves the state alone |
| `Dispatchers.NoSharedRunIsLost` | src/api/trigger_routes.py:197-240 | when any number of operators dispatch the same queued run, however their pipelines and everything else are interleaved, the row is finished or pruned once all of them have ended, unless a last write fails |
| `Dispatchers.SharedSessionsAreBounded` | src/api/trigger_routes.py:197-240 | each operator adds at most 23 sessions |
| `Dispatchers.OthersUntouched` | src/api/trigger_routes.py:197-240 | no pipeline of a shared run touches another row or a setting |
| `Dispatchers.TwoPullsForOneRun` | src/api/trigger_routes.py:197-240 | but a finished run can be taken up again and open a second pull request, and the row then names only that one: a concrete run with two operators |
| `Handlers.PollTick` | src/agent/pr_poller.py:28-60 | the rows are loaded once and compared with as they were loaded, while everything but another poller goes on; a tick is a run of the transition system, and undisturbed exactly the listed rows have heard |
| `Redaction.PassesAreOneMask` | src/integrations/kubernetes_client.py:212-294 | the three passes blank exactly the positions of one automaton |
| `Redaction.RedactionIsExact` | src/integrations/kubernetes_client.py:212-294 | two specs are redacted to the same spec if and only if they agree at every position that is not withheld |
| `Redaction.RedactionByPosition` | src/integrations/kubernetes_client.py:212-294 | position by position: a visible leaf, key or length survives, and the first withheld position on any way holds the mark |
| `RedactionKeys.RedactionByKeys` | src/integrations/kubernetes_client.py:205-294 | told by the keys on the way, which are written out: an env or header value and every element of a command line in a container of any of the three lists, every value of `data` and `stringData`, and the last-applied annotation hold the mark, or are gone with what holds it; every node with no such value on its way survives with its keys and its length |
| `Redaction.RedactionIsIdempotent` | src/integrations/kubernetes_client.py:212-294 | redacting twice is redacting once |
| `InPlace.Document.RedactEnv` | src/integrations/kubernetes_client.py:233-239 | the env values of a container are overwritten where they are, and nothing else |
| `InPlace.Document.RedactInlineValues` | src/integrations/kubernetes_client.py:250-269 | argv lists and header values below a node are overwritten where they are, and nothing else |
| `InPlace.RedactPodSpec` | src/integrations/kubernetes_client.py:212-230 | the in-place passes on a copy compute the redaction; which values that withholds is said in `RedactionKeys` |
| `Cluster.LegalNamesAreSegments` | src/integrations/kubernetes_client.py:91-96 | a name that is let through cannot leave its path segment |
| `Cluster.LegalExactly` | src/integrations/kubernetes_client.py:88-96 | a name is let through if and only if it is 1 to 253 lower case letters, digits, dashes and dots, begins and ends with a letter or digit, has no two dots in a row, and is followed by at most one newline |
| `Cluster.Client.ResolveOwnerChain` | src/integrations/kubernetes_client.py:659-700 | the loop computes the specified walk and sends exactly its requests |
| `Cluster.WalkIsBounded` | src/integrations/kubernetes_client.py:659-700 | on any graph: at most max_depth owners and requests, pairwise distinct, and only the last can be unresolved |
| `Cluster.WalkFollowsControllers` | src/integrations/kubernetes_client.py:659-714 | every owner is the controller reference of the object before it, and every request reads that owner in the namespace of the start |
| `Cluster.ControllerExactly` | src/integrations/kubernetes_client.py:703-714 | the controller reference is the first one marked as a controller, or, when none is, the first reference there is |
| `Cluster.ReadableExactly` | src/integrations/kubernetes_client.py:51-58 | exactly six kinds can be read, under these APIs and plurals |
| `Cluster.WalkStopsForAReason` | src/integrations/kubernetes_client.py:671-699 | the walk stops early only at a root, a repeat, an owner that cannot be read or a failed read |
| `Ordering.SortIsTheStableOrder` | src/integrations/kubernetes_client.py:488-490 | the sort is the one order by rank, highest first, that keeps items of equal rank in their order; events rank by time, pods by health |
| `Ordering.CuttingEarlyLosesNothing` | src/agent/cluster_state.py:377-382 | sorting and cutting before more items arrive equals sorting everything and cutting once, ties included |
| `Collector.Collector.FetchPods` | src/agent/cluster_state.py:228-352 | the pods are the pod the alert names, or the least healthy max_pods of the workload it names, each with the owner walk from it; the requests, the names looked at and the ownership labels are exactly those that go with them |
| `Evidence.NamedPodExactly` | src/agent/cluster_state.py:228-258 | if the alert names a pod, that pod is the only one read, and nothing stands in for it when it is gone or its name is not legal |
| `Evidence.WorkloadPodsExactly` | src/agent/cluster_state.py:279-336 | if not, the workload it names is read, its pods are listed by the workload's own selector, and the least healthy are kept; without a workload, a legal name or a selector nothing more is asked |
| `Evidence.LabelExactly` | src/agent/alert_handler.py:40-54 | an alert names something under a label by its exported value, or else by its plain one, except that beside an exported namespace a plain pod names nothing |
| `Evidence.WorkloadExactly` | src/agent/cluster_state.py:49-58 | the workload is the one under the first of four labels that names something, read under the API that belongs to it |
| `Evidence.OwnersExactly` | src/agent/cluster_state.py:259-277 | each pod's owners are looked up as far as the fourth, and the ownership labels of those that have any are collected, the nearest first |
| `Evidence.HealthyExactly` | src/agent/cluster_state.py:570-583 | a pod counts as healthy if and only if it runs, has containers, and all are ready and have never been restarted |
| `Collector.LeastHealthyAreKept` | src/agent/cluster_state.py:570-583 | the cap drops no pod that is less healthy than one it keeps, none with more restarts among equally healthy ones, and keeps equals in order |
| `Collector.Collector.FetchEvents` | src/agent/cluster_state.py:354-382 | one event list for each of the first four sources, and then the newest max_events of everything received since the collection began |
| `Evidence.SourcesExactly` | src/agent/cluster_state.py:593-614 | the sources are the names of the pods and their owners, or, when there are none, what was looked at, each once in the order of first mention, and the first four of them |
| `Evidence.NewestAreKept` | src/integrations/kubernetes_client.py:488-490 | the events that are kept are the newest, newest first, one without a time counting as the oldest, and those of one moment in the order they came in |
| `Collector.Collector.FetchPvc` | src/agent/cluster_state.py:513-543 | the claim and, if it is there, its events are asked for; what is kept are still the newest events of everything received |
| `Evidence.ClaimExactly` | src/agent/cluster_state.py:513-543 | the claim named, if its name is legal, and its events only when it is there |
| `Collector.Collector.FetchNodes` | src/agent/cluster_state.py:545-563 | the node of the alert or of a pod is asked for exactly when reads are cluster-wide and its name is legal, and recorded exactly when it is found |
| `Evidence.NodeExactly` | src/agent/cluster_state.py:546-548 | the node is the one the alert names, or else that of the first pod that has one |
| `Evidence.NodeIsAsked` | src/agent/cluster_state.py:545-563 | it is asked for if and only if reads are cluster-wide and its name is legal |
| `Collector.Collector.WalkSources` | src/agent/cluster_state.py:401-420 | exactly the chain of sources from the owner, at most three objects, as far as it lies in the namespaces of the Flux role, each with whether it says it is not ready, by exactly the requests that takes |
| `Collector.Collector.FetchGitops` | src/agent/cluster_state.py:386-443 | the delivery state is the chain of the object the alert or the ownership labels name, and its events are the newest, of the right kind, in the answers to the event lists of the owner and of the failing sources, which are exactly the lists asked for |
| `Evidence.TargetExactly` | src/agent/cluster_state.py:445-469 | the target is the Flux object the alert is about, if its kind is read and its namespace known, and for any other alert the release or kustomization that the first ownership labels name |
| `Evidence.ChainExactly` | src/agent/cluster_state.py:401-420 | its sources are looked up as far as the second |
| `Evidence.ChainEventsExactly` | src/agent/cluster_state.py:421-443 | event by event list: those for the first object and for the ones that say they are not ready, and of each list the events about an object of that kind |
| `Evidence.KindExactly` | src/agent/cluster_state.py:422-443 | the events kept are those whose object is of the kind asked about, in their order |
| `Collector.Collector.Collect` | src/agent/cluster_state.py:169-211 | every request of every collection is permitted and their number is bounded; in a permitted namespace the requests are exactly those of the phases and the events the newest in the answers to all event lists of pods, owners and the claim; elsewhere only a node or the Flux object the alert names is asked for, and nothing else is collected |
| `Evidence.NothingOutside` | src/agent/cluster_state.py:213-226 | no request of a trace in scope is about a core object outside the namespaces the agent is bound in, about a Flux object outside those and the namespaces of the Flux role, about the events of one that was not read before, or about a node without cluster-wide reads |
| `Collector.Collector.NamedObjectsAreAsked` | src/agent/cluster_state.py:228-563 | the pod, the claim and the node that the alert names are asked for if their names are legal and nodes may be read |
| `Collector.KindSorts` | src/agent/cluster_state.py:422-443 | keeping the events of one kind before sorting or after it is the same |

## Left out

- Line separators of Python's `splitlines` other than LF, CR and CRLF; digits and white space outside ASCII.
- Extracting the diff and the section texts from a model's answer: parsing starts from the text of the diff, and the
  affected files from the lines of their section.
- Hunk lines with another first character than a blank, `-` or `+`: the parser drops them, so the patch engine never
  sees one.
- GitHub, Kubernetes, the models, the notifier and the patch validator answer arbitrarily; their wire formats, retries
  and failures after a write has taken effect are not modelled. A request for a pull request that takes effect but
  reports an error is therefore outside `OnePull`.
- What skips a run before the pipeline starts, the daily spending ceiling, triage and investigation verdicts and the
  exceptions of every session are arbitrary inputs of a pipeline; the order in which they are consulted is the code's.
- Reading a setting as a number is an arbitrary partial function.
- Columns no property speaks of: payloads, tokens, contexts, operator labels, the text of reasons, the timestamp the
  pruner leaves for the dashboard. A pull request is known by its number, where the code asks for its URL; both are
  written together.
- Handlers.TriggerDispatch: the transition system has one pipeline of a run at a time, so two operators who dispatch the
  same run at the same time, both having seen it queued, are outside it. `Dispatchers` says what survives that.
- Handlers.PollTick: no other poller runs during the tick. The endless loops around the tick and the pruner, and their
  sleeps, are left out.
- World.Poll: GitHub says that a pull request is closed or merged only if it is, possibly late, and a closed pull
  request is never reopened.
- OneOpenRun.OneUnfinishedExactly: lookup and insert are one step; two webhooks that look up the same key before either
  inserts are outside it.
- A crash ends all pipelines and handlers at once; what a restarted process does with their rows is nothing, as in the
  code.
- RunRate.EveryHourIsBounded: counts the runs the breaker let through; a run that passes because the breaker itself
  failed is not counted.
- Objects fetched from the cluster carry the name and namespace they were fetched under.
- Notes, errors and the parsed details of pods, nodes, claims and Flux objects, and the version discovery request of the
  Flux client.
- Redaction.RedactPodSpec: an object is a sequence of fields, and every field with a given key is treated alike; Python
  dictionaries have one. Nested values under `annotations` other than the last-applied copy are kept as they are, as in
  the code.
- InPlace.Document: one tree held in a field and overwritten by position; sharing between Python objects is not
  modelled, and `copy.deepcopy` leaves none.
- Dashboards, licensing, authentication, configuration, metrics, evaluation and the demo application.
