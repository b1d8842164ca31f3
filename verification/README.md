# AgentBridge: models and proofs of its hardest protocols

This project models seven parts of AgentBridge that have to stay right when processes die, servers
misbehave or runs interleave, and proves what they promise.

- **Release transaction** (`ReleaseWorld`, `ReleaseProcess`, `ReleaseRuns`). A durable receipt per release
  drives preparation, switch, rollback and completion. `Host` carries out atomic steps that work, fail or are
  cut short; `Release` is the transaction object; `Operate` is any sequence of publications, recoveries and
  completions on any candidates, each of which may be killed anywhere. Every run is lawful
  (`Host.Valid`), and `ReleaseRuns` proves the promises about all lawful runs. On a steady host, where no step
  fails, `Execute` and `Recover` say which end a transaction comes to.
- **Validation evidence** (`EvidenceModel`, `EvidenceFinish`, `EvidenceRuns`, `EvidenceSafety`,
  `EvidenceExclusion`, `EvidenceRace`, `EvidenceStale`). Closing and later verifying a Full validation, and any number of Full
  runs that interleave at single file steps.
- **Paging and claims of completeness** (`HistoryQuery`, `DateTexts`, `WorkflowCoverage`, `MeetingListing`,
  `Cancellation`) against servers that answer anything.
- **Submission phases** (`SubmissionTracker`). The tracker and the Continue handler over any event stream.
- **Yuque content** (`SheetWindow`, `TableText`, `TableRedaction`, `Redaction`, `ColumnNames`, `PythonText`).
- **OA and CAP4 text** (`OaTree`, `Cap4Tokens`).
- **Backup collector** (`BackupStore`).

`Options` holds the optional value used for `None`.

## What the code does not keep

Six natural promises are not kept by the code as it stands. Each has a witness and the exact condition.

- *No stage of a run is launched twice.* `run_full` reads the receipt back after `begin`, so a run can adopt the
  run id of another run that began in between, and `execute_stage` looks for an earlier attempt before it
  writes its own. `EvidenceRace.ContentionIsReachable` reaches such a state with any two runs that can begin,
  among any number; `EvidenceRace.LaunchedTwiceIffTwoContend` says that a second launch is possible exactly when
  two runs hold the run id of the running receipt. Without shared run ids everything promised holds
  (`EvidenceExclusion`).
- *Each record that a succeeded receipt cites says that its stage succeeded.* `verify_stages` reads a record to
  check it and reads it again for the digest it cites. A second holder of the run id, past its own check for an
  earlier attempt, can write its running record in between (`EvidenceStale.ContendersSaveUnfounded`);
  `EvidenceStale.UnfoundedIffTwoContend` says when. Under any interleaving a good record was at least read, and
  its command launched as planned (`EvidenceExclusion.SucceededCitesItsRun`).
- *A cancellation is never confirmed while the application stays active.* The frozen target keeps the
  listed id as it stands, while `_verify_cancellation` compares it with stripped ids. An id with
  surrounding whitespace is therefore never found again and counts as gone
  (`Cancellation.PaddedIdIsConfirmedWhileActive`); `Cancellation.UnknownWhileActive` says that this is the only way.
- *A native confirmation is accepted once.* It is accepted each time it appears, as long as it is authorized
  (`SubmissionTracker.NativeDialogAcceptedTwice`): over any stream of events one fingerprint is accepted twice
  exactly when two native confirm dialogs of that authorized fingerprint are opened (`SubmissionTracker.Submit`).
  Clicks are at most once.
- *A complete dated listing contains every matching row.* The query reads the first ten characters of the raw
  date, the listing the first date in the rendered one that has no digit beside it
  (`WorkflowCoverage.DisagreeingReadsLoseARow`). `WorkflowCoverage.ListDatedWorkflows` says that all rows are kept
  exactly when each matching row's shown date starts with a date that no digit follows, or has a later one in range.
- *Every cell of a secret column is hidden.* A row whose cells all match the rule pattern is left alone
  (`TableRedaction.DashedPasswordIsLeft`), and only such a row (`TableRedaction.SurvivesIffAllRules`). Text after the
  last unescaped pipe of a line is in no cell; it is left too (`TableRedaction.PasswordInNoCellIsKept`), exactly when
  the line has no cells or only rules (`TableRedaction.TextInNoCellIsKeptIff`).

## Model

| member | source | states |
|---|---|---|
| ReleaseProcess.Host.Commit | scripts/agentbridge_release.py:27-53 | a step that succeeds happened; a file or receipt write that raises did not happen, a command that raises may have; a kill may come before or after; every state reached stays in a lawful run |
| ReleaseProcess.Release.Prepare | scripts/agentbridge_release.py:155-232 | only a durable `prepared` with exact copies lets the switch proceed; a failure leaves a receipt that may be closed as failed; when no step fails, it succeeds exactly if the release is current already, or admitted and its units have predecessors |
| ReleaseProcess.Release.CreateRecoveryPoint | scripts/agentbridge_release.py:272-282 | on success the receipt holds the schema that is real while nothing runs, before anything live is rewritten and before the candidate ever ran |
| ReleaseProcess.Release.InstallCandidate | scripts/agentbridge_release.py:283-286 | link, units and env file end as exactly the candidate's deployment over the old one; on an exception the transaction is still recoverable |
| ReleaseProcess.Release.Confirm | scripts/agentbridge_release.py:290-293 | on success the candidate's own files are live and the service was last started from them, and the change from the recorded schema to the one read after that start is authorized; the recorded schema stays |
| ReleaseProcess.Release.Switch | scripts/agentbridge_release.py:257-293 | ends confirmed with exactly the candidate over the old deployment, or raises with a transaction that recovery can resume; when no step fails, the comparison of the schemas before and after alone decides |
| ReleaseProcess.Release.RestorePrevious | scripts/agentbridge_release.py:302-311 | the live deployment becomes the one found before the first stage, whatever mixture was live, and nothing else changes |
| ReleaseProcess.Release.Recover | scripts/agentbridge_release.py:295-315 | ends rolled back or handed over to an operator, or raises with the transaction still resumable; when no step fails it ends rolled back exactly if no schema was recorded or the one found after the stop equals it, and handed over otherwise |
| ReleaseProcess.Release.Complete | scripts/agentbridge_release.py:337-358 | success means the exact confirmed current release with both post-switch phases on record as succeeded; when no step fails, that release always gets there |
| ReleaseProcess.Release.RecoverAndRaise | scripts/agentbridge_release.py:326-334 | after a failed switch the run never reports success, whether it rolled back, handed over or was killed; when no step fails, the transaction is closed |
| ReleaseProcess.Release.Execute | scripts/agentbridge_release.py:317-335 | a run reports success only with its release confirmed and completed on disk; when no step fails, the predecessor's identity, the policy, the units there and the schema before and after the candidate's start decide whether it completes, refuses, fails to prepare, rolls back or hands over |
| ReleaseProcess.Release.RecoverInterrupted | scripts/agentbridge_release.py:375-385 | success means an open transaction was closed, and never as confirmed; when no step fails, every open transaction is closed, a preparation as failed and any other as `Recover` says |
| ReleaseProcess.Serve | scripts/agentbridge_release.py:361-390 | each of the three entry points, killed anywhere, leaves a good world; what success means for the receipt on disk |
| ReleaseProcess.Operate | scripts/agentbridge_release.py:361-390 | any sequence of entry points on any candidates is one lawful run |
| ReleaseRuns.RollbackIsExact | scripts/agentbridge_release.py:155-315 | a release found rolled back was recorded so at a step where link, units and env file equal what they were when its first receipt was written; the service was started from exactly that after the recovery began, with nothing rewritten since, and a timer that was active before is active again |
| ReleaseRuns.FailedPreparationTouchesNothing | scripts/agentbridge_release.py:317-325 | a failed preparation left what is live unchanged and the candidate was never started |
| ReleaseRuns.ConfirmationIsExact | scripts/agentbridge_release.py:257-293 | a confirmed release replaced exactly its own units, env file and link, the service was started from them after the switch began, and the change from the schema real before the switch to the one real after that start was authorized |
| ReleaseRuns.RecordedSchemaIsReal | scripts/agentbridge_release.py:272-282 | any schema on a receipt was the real one in an earlier state in which only the old deployment was live, nothing ran and the candidate had never been started |
| ReleaseRuns.CandidateStartsAfterSchemaIsDurable | scripts/agentbridge_release.py:272-288 | the candidate is first started only when the schema that was real before the switch, with nothing running, is already in its durable receipt |
| ReleaseRuns.RewriteNeedsUnchangedSchema | scripts/agentbridge_release.py:295-311 | once the candidate ran, link, units and env file are rewritten only with nothing running and while the real schema equals the one from before the candidate's first start, even if the migration was authorized |
| ReleaseRuns.RollbackAfterStartSawTheOldSchema | scripts/agentbridge_release.py:295-301 | a rollback after the candidate ran went through a state, after that start, with nothing running and the very schema that was real before it |
| ReleaseRuns.AtMostOneUnfinished | scripts/agentbridge_release.py:386-389 | in every reachable state at most one receipt of all releases is unfinished |
| ReleaseRuns.ClosedStaysClosed | scripts/agentbridge_release.py:24-24 | rolled-back and failed receipts never change, confirmed ones only in their completion record, and a hand-over is left by no entry point |
| ReleaseRuns.HandOverBlocksEveryRelease | scripts/agentbridge_release.py:374-389 | after a hand-over no release is opened any more and link, units and env file stay as they are, whatever is called |
| ReleaseRuns.SucceededPhaseIsNeverRunAgain | scripts/agentbridge_release.py:337-358 | a completion phase recorded as succeeded is launched no more |
| ReleaseRuns.BackupWaitsForTheTimer | scripts/agentbridge_release.py:337-358 | the post-release backup is launched only after the timer phase is recorded as succeeded |
| ReleaseWorld.StartIsSafe | scripts/agentbridge_release.py:283-288 | starting the service keeps a world good at any moment, because nothing but the old deployment is live until a schema is on the receipt |
| EvidenceFinish.Workspace.VerifyStages | scripts/validation_plan.py:221-252 | succeeds exactly when version, plan, every record and every report hold, and then cites each record by its digest |
| EvidenceFinish.Workspace.Finish | scripts/agentbridge_artifact.py:144-164 | saves the succeeded receipt exactly when every check holds, and otherwise changes nothing |
| EvidenceFinish.Workspace.Verify | scripts/agentbridge_artifact.py:167-181 | accepts exactly the receipts that every later check confirms |
| EvidenceFinish.VerifyMeansNothingChanged | scripts/agentbridge_artifact.py:144-181 | while a finished receipt stands, verification succeeds if and only if the tree is clean and plan, inputs, records, reports, manifest and wheel are all as they were at `finish` |
| EvidenceFinish.FinishedVerifies | scripts/agentbridge_artifact.py:144-181 | with nothing written since `finish`, verification succeeds |
| EvidenceExclusion.SucceededCitesItsRun | scripts/agentbridge_artifact.py:135-164 | under any interleaving a succeeded receipt cites its own run's records, one for each stage of the plan begun with; each stage was launched with its planned command and a record of it with exit 0 was read; the inputs of `begin` were seen again before and after the checks |
| EvidenceExclusion.SucceededIsBacked | scripts/validation_plan.py:150-252 | while no two admitted runs share a run id, every cited record is still there as cited, with the planned command and exit 0, launched exactly once; `EvidenceStale` shows what happens otherwise |
| EvidenceExclusion.NoStageIsLaunchedTwice | scripts/validation_plan.py:150-218 | while no two admitted runs share a run id, no stage of any run is launched twice |
| EvidenceRace.LaunchedTwiceIffTwoContend | scripts/validation_plan.py:150-279 | once every run has read back or broken off, a double launch is possible if and only if two of them hold the run id of the running receipt |
| EvidenceRace.ContentionIsReachable | scripts/validation_plan.py:266-279 | among any number of runs, any two that can begin can both read back the later one's receipt |
| EvidenceStale.ContendersSaveUnfounded | scripts/validation_plan.py:150-252 | the failing run from any two such contenders, for any plan: one checks the first record, the other overwrites it before it is cited |
| EvidenceStale.UnfoundedIffTwoContend | scripts/validation_plan.py:221-252 | once every run has read back or broken off, some continuation saves a succeeded receipt citing what is no record of a success, if and only if two of them hold the run id of the running receipt |
| HistoryQuery.ReadFilteredHistory | agentbridge/adapters/seeyon_history_query.py:52-160 | against any server: distinct rows in range, and "exhausted" means all pages read, agreeing on one total that the items number in order; complete and equal to the list against an honest server within the budget, never above it |
| HistoryQuery.TakeRows | agentbridge/adapters/seeyon_history_query.py:118-143 | one page's rows: exactly those not refused by then are taken, in order, and there is no objection exactly when all were good and new |
| HistoryQuery.RefusalIsExact | agentbridge/adapters/seeyon_history_query.py:118-140 | a row is refused exactly when taking it would spoil the rows already taken |
| WorkflowCoverage.ListWorkflows | agentbridge/adapters/seeyon_central.py:918-980 | when a listing may call itself complete: source exhausted, nothing cut, no date unread; then it is all matching rows in order and has no more to show |
| WorkflowCoverage.ListDatedWorkflows | agentbridge/adapters/seeyon_central.py:918-980 | a complete dated listing is the exhausted query's titled, matching rows in order if and only if the date shown of each starts with a date that no digit follows, or has a later standalone date in range |
| DateTexts.RenderingKeepsLead | agentbridge/adapters/seeyon_central.py:1762-1765 | rendering keeps a text up to its first whitespace or entity |
| DateTexts.ReadersAgreeOnLeadingDates | agentbridge/adapters/seeyon_central.py:1702-1709 | for a date that the query can read, the listing reads the same day from the rendered text if no digit follows its leading date, and otherwise the first standalone date further on |
| WorkflowCoverage.DisagreeingReadsLoseARow | agentbridge/adapters/seeyon_central.py:1702-1709 | a concrete row that the query proves to be in range and the listing drops without counting it as undated |
| WorkflowCoverage.DigitAfterDateLosesARow | agentbridge/adapters/seeyon_central.py:935-947 | so does every row whose date in range is followed by a digit, a slash and a date out of range |
| MeetingListing.QueryMyApplications | agentbridge/adapters/seeyon_meeting_room.py:245-298 | the page loop is the listing defined by its stop rules, for any server |
| MeetingListing.CompleteListingIsCounted | agentbridge/adapters/seeyon_meeting_room.py:283-291 | a complete listing has distinct, non-empty ids that number the one total any page named, and no page failed |
| MeetingListing.HonestListingIsComplete | agentbridge/adapters/seeyon_meeting_room.py:262-298 | twenty honest pages of distinct applications are listed completely and in order |
| Cancellation.VerifyCancellation | agentbridge/adapters/seeyon_meeting_room_application.py:717-807 | confirmed by the first of seven attempts that has evidence, unknown exactly when none has |
| Cancellation.CancelApplication | agentbridge/adapters/seeyon_meeting_room_application.py:390-470 | refused without a write exactly unless the one unchanged, cancelable application is listed; otherwise one write, and the outcome is that of the first readback with evidence, however the write was answered |
| Cancellation.UnknownWhileActive | agentbridge/adapters/seeyon_meeting_room_application.py:717-807 | while OA keeps the application, any pattern of read errors ends unknown if and only if the frozen id has no surrounding whitespace or no listing is read completely |
| Cancellation.ConfirmationIsEvident | agentbridge/adapters/seeyon_meeting_room_application.py:717-830 | a confirmation rests on a complete listing, or on a whole snapshot that knows the target's room and has it in no application, that shows the target gone or terminal |
| Cancellation.PaddedIdIsConfirmedWhileActive | agentbridge/adapters/seeyon_meeting_room_application.py:905-906 | a request for any active, cancelable application whose listed id has whitespace around it passes every check before the write, and the first readback has evidence that it is gone while OA keeps it |
| Cancellation.OneIsPadded | agentbridge/adapters/seeyon_meeting_room_application.py:905-906 | one such application, with a space before its id |
| SubmissionTracker.Tracker.ObserveResponse | agentbridge/adapters/seeyon_submit_phases.py:61-90 | evidence grows by one numbered entry up to twenty, and a refused save becomes the pending validation |
| SubmissionTracker.Tracker.ObserveDialog | agentbridge/adapters/seeyon_submit_phases.py:92-152 | which dialogs are accepted: a confirm dialog exactly when authorized, and what becomes pending |
| SubmissionTracker.Tracker.RecordValidation | agentbridge/adapters/seeyon_submit_phases.py:170-203 | a pending fingerprint is not replaced, and a fingerprint enters the evidence at most once |
| SubmissionTracker.Tracker.HandleBusinessValidation | agentbridge/adapters/seeyon_business_trip_submit.py:356-426 | clicks exactly for a continuable, authorized, never continued validation with one reachable control; returns normally only with nothing pending |
| SubmissionTracker.Submit | agentbridge/adapters/seeyon_business_trip_submit.py:273-345 | over any event stream: at most one click for each authorized fingerprint; the native confirms accepted are the authorized ones opened, in order and as often, so one fingerprint is accepted twice exactly when it is opened twice; evidence numbered 1 to at most 20 with one entry for each validation |
| SubmissionTracker.NativeDialogAcceptedTwice | agentbridge/adapters/seeyon_submit_phases.py:129-145 | any tracker without history that has it authorized accepts a native confirmation again when the dialog comes back after the handler ran |
| SubmissionTracker.HandlerStopsAfterwards | agentbridge/adapters/seeyon_business_trip_submit.py:356-426 | the handler lets the first of two such dialogs pass and blocks only after both were accepted |
| SubmissionTracker.PrintFixesCanContinue | agentbridge/adapters/seeyon_submit_phases.py:250-262 | the fingerprint omits whether a validation can be continued, yet determines it |
| SheetWindow.RenderWindow | agentbridge/adapters/yuque_content.py:291-353 | for any offset and limit the shown rows are exactly that slice of the redacted whole sheet, with the count of cells hidden in it |
| SheetWindow.FollowRebuildsTheSheet | agentbridge/adapters/yuque_content.py:343-351 | following offsets while there is more rebuilds the whole sheet, each row once |
| SheetWindow.NoSecretIsShown | agentbridge/adapters/yuque_content.py:324-337 | if the last row with any label, at or above a cell, has one in the cell's column, the cell is shown as it is when empty or a label and hidden otherwise; every other cell is shown as it is |
| TableText.PrintedTableReadsBack | agentbridge/adapters/yuque_content.py:379-399 | each printed line splits on unescaped pipes into exactly the table's width of cells, which trimmed and unescaped are the cleaned values, backslashes included |
| TableText.PrintedRowIsOneLine | agentbridge/adapters/yuque_content.py:379-399 | no line break of a value survives into its printed line |
| TableText.CellsOfJoined | agentbridge/adapters/yuque_content.py:40-40 | joining cells and splitting the line again gives the cells |
| TableRedaction.RedactTableText | agentbridge/adapters/yuque_content.py:32-59 | the line loop is the redaction defined by the columns announced above each line, and counts what it hides |
| TableRedaction.RedactionIsIdempotent | agentbridge/adapters/yuque_content.py:32-59 | redacting again changes nothing and reports nothing |
| TableRedaction.NoSecretCellIsLeft | agentbridge/adapters/yuque_content.py:45-57 | after redaction each cell of a secret column in force is a label, blank or hidden |
| TableRedaction.NoPipeTableSecretIsLeft | agentbridge/adapters/yuque_content.py:45-57 | the same for pipe tables, in terms of the trimmed cell text |
| TableRedaction.PipeTablesReadBack | agentbridge/adapters/yuque_content.py:40-59 | redacted rows parse back as written, for any notion of label exactly when the replacement text is not itself one |
| TableRedaction.SurvivesIffAllRules | agentbridge/adapters/yuque_content.py:43-57 | for every table line, a cell of a secret column in force that has something to hide is left as it is if and only if all cells of its row match the rule pattern, and replaced otherwise |
| TableRedaction.TextInNoCellIsKeptIff | agentbridge/adapters/yuque_content.py:37-58 | for every table line, text after its last unescaped pipe is left exactly when the line has no cells or all of them match the rule pattern |
| TableRedaction.DashedSecretIsLeft | agentbridge/adapters/yuque_content.py:43-44 | so does every value of nothing but dashes beside another, below a header that announces its column |
| TableRedaction.DashedPasswordIsLeft | agentbridge/adapters/yuque_content.py:43-44 | a concrete table whose password of dashes stays in the redacted text |
| TableRedaction.TextInNoCellIsKept | agentbridge/adapters/yuque_content.py:37-42 | text after a single unescaped pipe, or after cells that are all rules, is left as it is, under any header |
| TableRedaction.PasswordInNoCellIsKept | agentbridge/adapters/yuque_content.py:37-44 | two concrete lines whose password after the last pipe stays in the redacted text |
| TableRedaction.OtherCellsAreKept | agentbridge/adapters/yuque_content.py:50-58 | a cell that does not leak keeps its exact text when its row is written again |
| TableRedaction.RowIsKeptIff | agentbridge/adapters/yuque_content.py:40-58 | a row is kept character by character exactly when nothing in it leaks and it is nothing but cells between pipes |
| ColumnNames.SpreadsheetColumnName | agentbridge/adapters/yuque_content.py:438-444 | the divmod loop gives the letters whose bijective base-26 value is the one-based index |
| ColumnNames.NamesAreUnique | agentbridge/adapters/yuque_content.py:438-444 | two letter names of the same number are the same name |
| OaTree.TreeBuilder.HandleStartTag | agentbridge/adapters/seeyon_home.py:121-124 | one new node, last child of the open node, becomes the open node |
| OaTree.TreeBuilder.HandleEndTag | agentbridge/adapters/seeyon_home.py:126-131 | closes the innermost open node of that tag and all above it, never the root |
| OaTree.TreeBuilder.FeedDocument | agentbridge/adapters/seeyon_home.py:115-135 | any event stream keeps the stack a chain from the root in which each node is the last child of the one before |
| OaTree.NothingIsLostOrDoubled | agentbridge/adapters/seeyon_home.py:115-135 | nodes number one plus the start tags, and every non-empty chunk lies in exactly one node |
| OaTree.BuildingInvertsLinearization | agentbridge/adapters/seeyon_home.py:115-135 | feeding the events of any well-nested document gives back that document |
| Cap4Tokens.FindIsExact | agentbridge/adapters/seeyon_home.py:826-837 | from the end of the last word, `find` always finds the next word, exactly where it stands |
| Cap4Tokens.TokenPositions | agentbridge/adapters/seeyon_home.py:826-837 | the cursor loop yields each word's trimmed text at the word's own place |
| Cap4Tokens.TokensAreTheWords | agentbridge/adapters/seeyon_home.py:826-837 | the tokens are exactly the whitespace-separated words that are more than marks |
| Cap4Tokens.TokensIncrease | agentbridge/adapters/seeyon_home.py:826-837 | token positions increase strictly |
| Cap4Tokens.SectionPositions | agentbridge/adapters/seeyon_home.py:753-769 | the occurring headings in stable order of position |
| Cap4Tokens.OccurringOnce | agentbridge/adapters/seeyon_home.py:753-768 | each heading that stands somewhere is there exactly once, at its first token or else its first occurrence |
| Cap4Tokens.SortIsStable | agentbridge/adapters/seeyon_home.py:768-769 | headings at one position keep their order |
| Cap4Tokens.SortSorts | agentbridge/adapters/seeyon_home.py:768-769 | the result is in order of position and has the same headings |
| Cap4Tokens.SectionForPosition | agentbridge/adapters/seeyon_home.py:817-823 | exactly the last heading at or before the position, or none before the first |
| BackupStore.Fetch | scripts/agentbridge_backup_pull.py:35-58 | gives the transferred bytes exactly when size, exit status and hash are as announced |
| BackupStore.Collector.CollectEntry | scripts/agentbridge_backup_pull.py:70-100 | an existing generation is reused only if both digests match and never written; a new one appears whole and verified or not at all |
| BackupStore.Collector.CollectAll | scripts/agentbridge_backup_pull.py:69-100 | the inventory loop keeps every generation there was, copied plus reused is the inventory, and it succeeds whenever all entries can be obtained |
| BackupStore.Collector.Prune | scripts/agentbridge_backup_pull.py:105-115 | deletes only directories last modified over ninety days ago and below seven kept higher names, and, if not interrupted, all of those |
| BackupStore.Collector.Collect | scripts/agentbridge_backup_pull.py:61-127 | one run, interrupted anywhere: existing generations unchanged, deletions only after the whole inventory is there and fresh, and the report's counts balance |
| BackupStore.CollectRepeatedly | scripts/agentbridge_backup_pull.py:61-127 | over any number of interrupted runs every generation's archive hashes to its manifest's sha256, nothing that stays changes, and what goes is below seven that stay |

## Left out

- WorkflowCoverage.ListWorkflows: keyword matching is a parameter.
- DateTexts.ReadersAgreeOnLeadingDates: what an HTML entity stands for, the decimal digits beyond ASCII, and the days that the compact and week forms of ISO 8601 name are parameters.
- SubmissionTracker.Tracker.HandleBusinessValidation: one call is atomic, with no observer inside it, and the page is described by what the call meets: matching frames, whether the control appears, how many are visible, whether the click goes through.
- SubmissionTracker.Submit: the sent-collection readback between handler calls is not modelled; it changes no tracker state.
- TableRedaction.RedactTableText: a text is a sequence of lines ended by a line feed; other line separators that `splitlines` knows are not modelled.
- SheetWindow.RenderWindow: row and column keys are distinct naturals already in order, and the decoding of the sheet is a parameter.
- BackupStore.Collector.Prune: the recursive delete of one generation is one step, so a delete cut short in the middle is not modelled.
- OaTree.TreeBuilder.FeedDocument: nodes are kept in a sequence and refer to each other by index instead of by reference; how HTML text becomes events is not modelled.
- Cap4Tokens.LocateTokens: trimming is a parameter of the loop and fixed only in TokenPositions.
- EvidenceFinish.VerifyMeansNothingChanged: hashing is injective, and the inputs are one value of which only the commit is looked into.
- Report, record and receipt files are different files, and `write_text` of the temporary receipt is one step; its rename is another.
- Nobody but the modelled runs writes receipts or stage records; commands may write report and wheel files at any time. Any earlier receipt is one that an earlier run in the same history left.
- Two steps of a validation that read the same report one after the other for `is_file` and its digest are one step.
- A release's configuration is fixed for its id; nobody else edits link, units or env file; a failure to sync a directory after a successful rename is not modelled, nor are file modes, ownership and the receipt's report on standard output.
- The virtual environment, pip, unit verification, `transaction.json` and readiness probes are commands that may fail and leave the modelled files alone.
- ReleaseProcess.Release.Execute: how a run ends is fixed only for a host on which no step fails and the service sets one schema for each deployment it starts from; what it ends with after one failing step is not.
- The service may be restarted by the machine only between release processes; while it runs it may change the schema or die at any moment.
- Schema digests are taken as injective, so comparing digests is comparing schemas.
- Clocks are numbers given to a run, time budgets are an arbitrary choice before each page, sleeps are left out.
- Case folding, regular expressions, JSON and zlib are parameters or values.
- `int` of a value too large or not finite, where the code would raise an error of another kind, is not modelled.
- Staging directories that a killed collector leaves behind are not modelled; they never match a generation's name.
- Leave, meeting and missed-punch submissions, workflow revocation and pending actions follow the same freeze, write and read-back shape.
- Document ranking, Chinese numerals, hand-over and flight rows, catalogs, command-line parsing, page scripts and HTTP are left out.
