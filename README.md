# vibe — a Dafny model of the task queue and the decisions around it

vibe drains a directory of Markdown task files. It hands each file to a
coding-agent process (`claude`), and it retries, archives or releases the
task depending on how that process ended. This project models the parts of
vibe that decide things, and proves properties of them:

- **The task queue** (`task.py`). The task directory `tasks/` is a map from
  file name to content.
  - A file is in one of four states: pending `<name>.md`, running
    `<name>.md.running.<wid>`, done `done/<ts>_<name>.md` and failed
    `failed/<ts>_<name>.md`.
  - `claim_next`, `complete`, `fail`, `retry_failed` and `recover_running`
    are methods of classes (`TaskDirs`, `TaskQueue`) whose fields are those
    maps.
  - `retry_failed` strips the scheduler's own comment lines. The later
    lines of a multi-line error do not start such a comment, so they stay
    in the task text unless they look like one (`Tasks.ErrorTailKept`).
  - Each method is proved equal to a function on the directory state
    (`AfterClaim`, `AfterComplete`, `AfterFail`, `AfterRetryFailed`,
    `AfterRecover`). Lemmas state what each of those functions does.
- **The retry marker** `<!-- RETRY: n -->`. The regular expression is
  replaced by a deterministic automaton (`MarkerState`, `Run`). Reading and
  rewriting the marker are proved to be inverse
  (`extract(set(c, n)) == n`).
- **The agent's output and the commands run** (`manager.py`).
  - The stream-json line decoder, with JSON decoding passed in as a
    function that yields a closed `Event` datatype.
  - The `docker run` command builder.
  - The plan-mode timeouts, error relabelling and output framing.
- **The approval store** (`approval.py`): approval objects with a decision
  and a signalled flag, kept in a store that maps ids to approvals.
- **The worker** (`worker.py`).
  - Prompt building, the tool-detail formatter and the three-way dispatch.
  - The rule that releases, completes or fails a task after its run.
  - The approval ladder of `_execute_with_approval`.
  - The claim loop of `worker_loop`, and its whole run when every agent
    run fails (`Worker.RetriesExhausted`).
- **The scheduler** (`loop.py`). The choice between one inline worker,
  worktree mode and shared mode. The create, fall-back and merge-back
  order is recorded as a trace of abstract events.
- **Configuration** (`config.py`): the `.env` parser, type coercion,
  precedence (environment over `.env` over default) and the range resets.
- **Naming new tasks and listing them** (`server.py`, `__main__.py`).
  - The dashboard's listing, add and delete endpoints.
  - `vibe add` numbering and slugs.
  - The option overrides of `vibe run`.

Clocks, ids, the OS user, process outcomes, the JSON decoder and the shell
tokenizer are parameters. Nothing is threaded: every worker runs to
completion before the next one starts.

Modules: `Wrappers` (Option), `Strings` (the Python string operations
used: `strip`, `split`, `replace`, `splitlines`, `int()`, `sorted`,
`Path.stem`), `Tasks`, `Manager`, `Approval`, `Worker`, `Loop`, `Config`,
`Numbering`, `Server` and `Cli`.

Where the code and the design description differ, the model follows the
code:

- `claim_next` renames an oversized task (over 1 MiB) to its running name
  before it returns nothing. The file is not skipped: it stays stranded as
  running (`Tasks.ClaimSmallest`).
- `approve` and `reject` do not decide "exactly once". A later decision
  overwrites an earlier one (`Approval.LaterDecisionWins`).
- `retry_failed` writes its destination with a plain `write_text`, not
  atomically. The write replaces a pending file of the same name
  (`Tasks.RequeueAllContent`).
- The worktree fallback runs `_run_shared` without the approval store
  (`Loop.FallbackTrace`).
- A worker that raises in worktree mode makes `f.result()` re-raise, so
  no worktree is merged back or removed (`Loop.RaisedTrace`).

## Model

| member | source | states |
|---|---|---|
| Tasks.MarkerMatchesItself | src/vibe/task.py:16 | the marker written for n is matched at its start with the value n and its full length, whatever follows |
| Tasks.NoLtNoMarkers | src/vibe/task.py:16 | text without `<` contains no marker; a prefix without `<` hides none |
| Tasks.NoMarkerAnywhere | src/vibe/task.py:239-242 | the text has no marker iff no position starts a match |
| Tasks.ExtractIsLeftmost | src/vibe/task.py:239-242 | the count extracted is the number of the leftmost match, as with `re.search` |
| Tasks.ExtractOfSet | src/vibe/task.py:239-251 | reading the count after setting it to n gives n |
| Tasks.MarkersOfSet | src/vibe/task.py:245-251 | after setting, every marker reads n: one if the text had none, otherwise as many as it had |
| Tasks.SetOfSet | src/vibe/task.py:245-251 | setting the count twice leaves the same markers as setting it once |
| Tasks.HeaderInert | src/vibe/task.py:105-109 | the requeue header hides no marker and is not rewritten, if its timestamp and error contain no `<` |
| Tasks.RequeuedCount | src/vibe/task.py:102-111 | a requeued task is read back with the count it was requeued with |
| Tasks.ErrorTextOverridesCount | src/vibe/task.py:105-109 | an error text that itself holds a marker decides the count the next claim reads |
| Tasks.StripTimestampPrefix | src/vibe/task.py:156 | the stripped name is a suffix of the name |
| Tasks.StripArchivePrefix | src/vibe/task.py:156 | stripping removes exactly a `%Y%m%d_%H%M%S_%f_` timestamp prefix |
| Tasks.ArchivedStem | src/vibe/task.py:87-88 | the stem of an archived name, with its timestamp stripped, is the task name; the stripped file name is `<name>.md` |
| Tasks.KeptLines | src/vibe/task.py:177-180 | the kept lines are exactly the lines that do not open a scheduler comment |
| Tasks.CleanRequeued | src/vibe/task.py:177-181 | when the iso time and the error are each a single line: cleaning a requeued file removes its failure header and marker and gives the cleaned original |
| Tasks.CleanArchived | src/vibe/task.py:177-181 | when the iso time and the error are each a single line: cleaning a finally failed file removes its three header lines and gives the cleaned original |
| Tasks.ErrorTailKept | src/vibe/task.py:177-181 | a two-line error: its second line, ending in ` -->`, is not a scheduler comment and survives cleaning, ahead of the cleaned rest |
| Tasks.MdFiles | src/vibe/task.py:50 | the pending listing is exactly the names ending in `.md` |
| Tasks.RunningFiles | src/vibe/task.py:200 | the running listing is exactly the names matching `*.md.running.*` |
| Tasks.RunningNameIsRunning | src/vibe/task.py:55 | the running name of a pending file is listed as running |
| Tasks.ClaimFacts | src/vibe/task.py:47-52 | with nothing pending a claim returns nothing and changes nothing; a claimed task is the file stored at its path |
| Tasks.ClaimSmallest | src/vibe/task.py:47-83 | the smallest pending name moves to its running name with its content and nothing else changes; a task comes back iff the file is at most 1 MiB, with the stem as name and the marker count as retries |
| Tasks.AfterComplete | src/vibe/task.py:85-93 | completing touches only pending and done; a failed rename changes nothing |
| Tasks.CompleteArchives | src/vibe/task.py:85-93 | the running file moves unchanged to `done/<ts>_<name>.md`; every other file keeps its name and its content, in all three directories; the archived name leads back to the task name |
| Tasks.AfterFail | src/vibe/task.py:95-141 | a failed write raises and changes nothing; `done/` is never touched |
| Tasks.FailRequeues | src/vibe/task.py:100-121 | below the limit, pending `<name>.md` holds the header and the content with count retries+1; the running file is gone; every other pending file keeps its content; `done/` and `failed/` are unchanged; the count reads back |
| Tasks.FailArchives | src/vibe/task.py:122-141 | at the limit, for any iso time and error: `failed/<ts>_<name>.md` holds the final header over the unchanged content; no pending file appears; every other file keeps its name and content; and, when the iso time and the error are each a single line, cleaning restores the content |
| Tasks.AfterFailAtLimit | src/vibe/task.py:122-141 | at the limit, the running file is gone and the archive holds the final header over the content, with no raise |
| Tasks.Filter | src/vibe/task.py:166-170 | the matches are exactly the listed names whose stem, or stripped stem, is the name |
| Tasks.FilterDistinct | src/vibe/task.py:166-170 | a listing without repeats gives matches without repeats |
| Tasks.DestNames | src/vibe/task.py:183 | each destination is its source with the timestamp prefix stripped |
| Tasks.AfterRetryFailed | src/vibe/task.py:153-154 | without a `failed/` directory nothing is retried and nothing changes |
| Tasks.RequeueAll | src/vibe/task.py:174-190 | the retry loop never touches `done/` |
| Tasks.RequeueAllFailed | src/vibe/task.py:174-190 | exactly the handled files leave `failed/`; the others keep their content |
| Tasks.RequeueAllKeys | src/vibe/task.py:183-187 | the pending directory gains exactly the destination names; other pending files are untouched |
| Tasks.RequeueAllContent | src/vibe/task.py:176-185 | each destination holds the cleaned text of the last handled file that maps to it, overwriting what was there |
| Tasks.ArchiveMatches | src/vibe/task.py:169 | a file archived for a task matches its name and comes back as `<name>.md` |
| Tasks.AfterRecover | src/vibe/task.py:199-218 | the count returned is the number of running files, restored or discarded |
| Tasks.RestoredNotRunning | src/vibe/task.py:202 | a restored name is never itself a running name |
| Tasks.RecoverAllFrame | src/vibe/task.py:200-217 | after each prefix of the running files, exactly the others are still running; other files keep their content |
| Tasks.RecoverClears | src/vibe/task.py:192-218 | recovery leaves no running file and keeps every other file |
| Tasks.RecoverUndoesClaim | src/vibe/task.py:200-215 | recovery right after a claim restores the directory exactly |
| Tasks.WriteTo | src/vibe/task.py:224-236 | the write puts the content under the name in the chosen directory and leaves the other directory alone |
| Tasks.TaskDirs.AtomicWrite | src/vibe/task.py:224-236 | either the destination is replaced, or it raises (write error, or `failed/` missing) and nothing changes |
| Tasks.TaskDirs.RetryFailed | src/vibe/task.py:143-190 | the new state and the returned names are those of `AfterRetryFailed` |
| Tasks.TaskDirs.RequeueFile | src/vibe/task.py:175-187 | one loop turn: write the cleaned text under the stripped name, unlink the source |
| Tasks.TaskDirs.RecoverRunning | src/vibe/task.py:192-218 | the new pending directory and the count are those of `AfterRecover`; `done/` and `failed/` are untouched |
| Tasks.RecoverFiles | src/vibe/task.py:199-218 | the loop over the sorted running files gives the recovered directory and one count per file |
| Tasks.RecoverPending | src/vibe/task.py:200-213 | each running file is still present when its turn comes |
| Tasks.TaskQueue.constructor | src/vibe/task.py:36-45 | `done/` and `failed/` exist afterwards, keeping their files if they existed |
| Tasks.TaskQueue.ClaimNext | src/vibe/task.py:47-83 | the claim's result and new directory are `AfterClaim`; only the pending directory changes |
| Tasks.TaskQueue.Complete | src/vibe/task.py:85-93 | the new state is `AfterComplete` |
| Tasks.TaskQueue.Fail | src/vibe/task.py:95-141 | the new state and whether it raised are `AfterFail` |
| Manager.BlockTexts | src/vibe/manager.py:74-76 | at most one text per block |
| Manager.BlockTextsMembers | src/vibe/manager.py:74-76 | a text is collected iff some block is a text block with it |
| Manager.ConsumeLine | src/vibe/manager.py:57-92 | one line appends its output parts and tool calls |
| Manager.AppendTexts | src/vibe/manager.py:74-76 | the loop appends the text blocks in order |
| Manager.AppendCalls | src/vibe/manager.py:84-86 | the loop appends the `tool_use` blocks in order |
| Manager.BlockCalls | src/vibe/manager.py:84-86 | at most one call per block |
| Manager.CollectChangedFiles | src/vibe/manager.py:95-101 | the loop over the tool calls collects `ChangedFiles` |
| Manager.ParseStreamJson | src/vibe/manager.py:51-109 | the loop's result is `Parse` |
| Manager.Parse | src/vibe/manager.py:103-109 | the parsed result is a success with no error and no return code |
| Manager.OutputPartsConcat | src/vibe/manager.py:57-92 | the output parts of two runs of lines are those of the first followed by those of the second |
| Manager.ToolCallsConcat | src/vibe/manager.py:57-92 | the same for tool calls |
| Manager.InsertLineParts | src/vibe/manager.py:57-92 | a line contributes its own parts in place |
| Manager.InsertLineCalls | src/vibe/manager.py:57-92 | a line contributes its own calls in place |
| Manager.BlankLineSkipped | src/vibe/manager.py:58-60 | a blank line adds no output part, wherever it stands |
| Manager.BlankLineNoCalls | src/vibe/manager.py:58-60 | a blank line adds no tool call |
| Manager.NonJsonKept | src/vibe/manager.py:61-66 | a line that is not JSON is kept, stripped, as one output part |
| Manager.NonJsonNoCalls | src/vibe/manager.py:61-66 | a line that is not JSON adds no tool call |
| Manager.AssistantLine | src/vibe/manager.py:71-86 | an assistant message adds its text blocks to the output and its `tool_use` blocks to the calls |
| Manager.ChangedFilesDistinct | src/vibe/manager.py:100-101 | no file is listed twice |
| Manager.ChangedFilesMembers | src/vibe/manager.py:95-101 | a file is listed iff some Write/Edit call names it as `file_path` |
| Manager.ChangedFilesGrow | src/vibe/manager.py:95-101 | the files of a prefix of the calls are a prefix of the files: first-seen order |
| Manager.OtherCallsIgnored | src/vibe/manager.py:98 | a call to any other tool changes nothing |
| Manager.DockerPrefix | src/vibe/manager.py:130-137 | the fixed head of the command has twelve elements |
| Manager.DockerCmd | src/vibe/manager.py:115-151 | the command is the fixed head, the options, the image, then the claude command, with the length adding up |
| Manager.BuildDockerCmd | src/vibe/manager.py:115-151 | the list built by `extend` is `DockerCmd` |
| Manager.DockerUser | src/vibe/manager.py:138-142 | a non-root user gets `--user uid:gid` right after the head; root gets no `--user` |
| Manager.DockerJsonMount | src/vibe/manager.py:143-148 | the `.claude.json` mount follows iff the file exists; otherwise the extra arguments follow directly |
| Manager.DockerNoEmptyArgument | src/vibe/manager.py:147-148 | empty extra arguments add no token |
| Manager.Classify | src/vibe/manager.py:269-365 | success iff the process exited 0; an exit keeps its code; a timeout has no code and the timeout error |
| Manager.RunClaude | src/vibe/manager.py:249-254 | one process runs, docker-wrapped when docker is on, with the given timeout |
| Manager.PlanCmd | src/vibe/manager.py:448-453 | the planning command has no `--dangerously-skip-permissions` |
| Manager.PlanTimeout | src/vibe/manager.py:455 | `min(timeout // 3, 300)`: at most 300 and a third of the timeout, the largest such whole number |
| Manager.RemainingTimeout | src/vibe/manager.py:547-549 | the time left, but never below 60 |
| Manager.RelabelPlanError | src/vibe/manager.py:465-468 | relabelling keeps success and output; a success is left alone |
| Manager.GeneratePlan | src/vibe/manager.py:424-472 | one planning process with the plan command and the plan timeout |
| Manager.Frame | src/vibe/manager.py:513-517 | the output starts with `[计划]` and the plan; a non-empty run output follows after `[执行结果]` |
| Manager.ExecutePlan | src/vibe/manager.py:475-519 | one process runs the execution prompt with the given timeout |
| Manager.RunPlanStopsOnFailure | src/vibe/manager.py:544-545 | a failed plan is returned as it is and nothing is executed |
| Manager.RunPlanExecutes | src/vibe/manager.py:522-560 | a successful plan is executed once, with at least 60 seconds, and the output is framed by the plan |
| Manager.PlanTimeoutRelabelled | src/vibe/manager.py:465-466 | a planning timeout reports the planning phase's own limit |
| Manager.PlanExitRelabelled | src/vibe/manager.py:467-468 | a non-zero exit reports a planning failure around the exit error |
| Manager.PlanExitMentioningTimeout | src/vibe/manager.py:465-466 | an exit error whose stderr says `超时` is reported as a planning timeout |
| Approval.PendingApproval.constructor | src/vibe/approval.py:16-26 | a new approval holds its ids and plan, undecided and not signalled |
| Approval.PendingApproval.Wait | src/vibe/approval.py:28-30 | the wait returns whether the approval was signalled |
| Approval.PendingApproval.Approve | src/vibe/approval.py:32-34 | the decision becomes approved and the approval is signalled |
| Approval.PendingApproval.Reject | src/vibe/approval.py:36-38 | the decision becomes rejected and the approval is signalled |
| Approval.Submitted | src/vibe/approval.py:48-58 | submitting adds a fresh, undecided record under the id and keeps the others |
| Approval.OrderAfterSubmit | src/vibe/approval.py:57 | the dict order gains the id once, or keeps its place |
| Approval.Decided | src/vibe/approval.py:71-85 | deciding sets and signals that record only; an absent id changes nothing |
| Approval.Removed | src/vibe/approval.py:87-89 | removing drops the id and keeps the rest |
| Approval.Without | src/vibe/approval.py:87-89 | the order loses exactly the id |
| Approval.PendingIds | src/vibe/approval.py:64-69 | the listed ids are exactly the undecided ones, in dict order |
| Approval.DecidedLeavesPending | src/vibe/approval.py:64-85 | a decided approval leaves the pending list and stays in the store |
| Approval.DecidingKeepsOthers | src/vibe/approval.py:64-85 | deciding one approval does not change whether another is pending |
| Approval.SubmittedIsPending | src/vibe/approval.py:48-69 | a submitted approval is listed as pending |
| Approval.SignalStays | src/vibe/approval.py:32-38 | once signalled, an approval stays signalled |
| Approval.LaterDecisionWins | src/vibe/approval.py:71-85 | a later decision overwrites an earlier one |
| Approval.RemoveIdempotent | src/vibe/approval.py:87-89 | after removal the id is gone; removing again, or removing an absent id, changes nothing |
| Approval.ApprovalStore.constructor | src/vibe/approval.py:44-46 | a new store is empty |
| Approval.ApprovalStore.Submit | src/vibe/approval.py:48-58 | stores a fresh undecided approval under the id; the snapshot is `Submitted` |
| Approval.ApprovalStore.Get | src/vibe/approval.py:60-62 | the very object stored under the id, or nothing |
| Approval.ApprovalStore.ListPending | src/vibe/approval.py:64-69 | exactly the stored undecided approvals, in insertion order |
| Approval.ApprovalStore.CollectPending | src/vibe/approval.py:66-69 | the list comprehension's loop gives the approvals of `PendingIds` |
| Approval.ApprovalStore.ListedPending | src/vibe/approval.py:64-69 | an approval is listed iff it is stored and undecided |
| Approval.ApprovalStore.Approve | src/vibe/approval.py:71-77 | returns true iff the id is present; the snapshot is `Decided(…, Approved)` |
| Approval.ApprovalStore.Reject | src/vibe/approval.py:79-85 | returns true iff the id is present; the snapshot is `Decided(…, Rejected)` |
| Approval.ApprovalStore.Remove | src/vibe/approval.py:87-89 | the id is dropped with no error when absent; the snapshot is `Removed` |
| Worker.PromptFraming | src/vibe/worker.py:39-60 | every prompt starts with the prefix and ends with the suffix; plain text and a first attempt are framed unchanged |
| Worker.FormatToolDetail | src/vibe/worker.py:74-87 | the detail shown for each tool: file path, pattern, description, URL, or nothing |
| Worker.BashDetail | src/vibe/worker.py:78-80 | a Bash command is shown whole up to 80 characters, else cut to 80 and marked `...` |
| Worker.Dispatch | src/vibe/worker.py:179-199 | approval flow iff plan mode, no auto-approve and a store; plain plan iff plan mode otherwise; plain run iff no plan mode |
| Worker.ApprovalPlanFailure | src/vibe/worker.py:252-257 | a failed plan is returned as it is; nothing is submitted or executed |
| Worker.ApprovalWaitTimesOut | src/vibe/worker.py:265-276 | no decision in time fails with the wait-timeout error, and only the planning process ran |
| Worker.ApprovalRejected | src/vibe/worker.py:278-282 | a rejected plan fails with the rejection error and is not executed |
| Worker.ApprovalExecutes | src/vibe/worker.py:284-295 | an approved plan runs once, with at least 60 seconds, framed by the plan |
| Worker.OutcomeOf | src/vibe/worker.py:201-223 | a shutdown releases; otherwise success completes and failure fails with the run's error |
| Worker.ApplyAction | src/vibe/worker.py:204-223 | release, `complete` or `fail` on the directories, as the action says |
| Worker.Rounds | src/vibe/worker.py:154-161 | at most one task runs per round |
| Worker.EmptyQueueStops | src/vibe/worker.py:154-158 | with nothing pending the worker stops at once and changes nothing |
| Worker.ShutdownStops | src/vibe/worker.py:154 | a shutdown seen before claiming stops the worker with nothing changed |
| Worker.ReleaseIsLast | src/vibe/worker.py:202-205 | a task released on shutdown is the last one the worker runs |
| Worker.ClaimOnly | src/vibe/task.py:47-83 | claiming the only pending file renames it to its running name and hands over its content and its count |
| Worker.StepFails | src/vibe/worker.py:166-223 | a failed run with no shutdown goes to `fail` with the run's error |
| Worker.RequeueStep | src/vibe/task.py:100-121 | below the limit, the running file is replaced by the next attempt's text under the pending name, carrying the count one higher |
| Worker.ArchiveStep | src/vibe/task.py:122-141 | in the last allowed round, the task goes to `failed/` with the final header and the tasks directory is left empty |
| Worker.AttemptCount | src/vibe/task.py:100-109 | the text of attempt j carries the count j, as the next claim reads it |
| Worker.RoundsUntilEmpty | src/vibe/worker.py:135-163 | rounds that each claim a task and hand on the next state, followed by an empty claim, run exactly those tasks and stop on the empty queue |
| Worker.ExhaustedRun | src/vibe/worker.py:135-223 | the whole run of a worker whose agent always fails, from one unmarked task: the tasks of rounds 0 to m-1, then the empty queue |
| Worker.RetriesExhausted | src/vibe/worker.py:135-223 | an always-failing agent runs the one task exactly `max_retries` times, with counts 0, 1, …; it stops on the empty queue; `failed/` gains exactly one file; no pending or running file remains; `done/` is unchanged |
| Worker.ClaimNoneMeans | src/vibe/worker.py:155-158 | the worker stops on an empty claim only when nothing is pending, or the smallest file was oversized and is stranded |
| Worker.RoundsOne | src/vibe/worker.py:154-161 | one round: claim, run, then the rest of the loop |
| Worker.QueueEmptyMeans | src/vibe/worker.py:154-158 | a worker that stops on an empty queue leaves nothing claimable behind |
| Worker.RoundsQueueEmpty | src/vibe/worker.py:154-158 | whenever the rounds end on an empty claim, the directory left behind has nothing claimable |
| Worker.Release | src/vibe/worker.py:204 | the directories become `release(task)` of what they were |
| Worker.Answer | src/vibe/worker.py:269 | the user's reply (none, approve or reject) sets the decision and the signal |
| Worker.SubmitAndAwait | src/vibe/worker.py:263-272 | waiting succeeds iff a reply came; the decision read is the reply; the approval is removed afterwards |
| Worker.ExecuteWithApproval | src/vibe/worker.py:226-295 | the result is `WithApproval`; a submitted approval is removed again whatever the reply |
| Worker.ExecuteTask | src/vibe/worker.py:166-223 | the new directories and the raise are `ExecuteStep`; the store only loses approvals |
| Worker.Claim | src/vibe/worker.py:155 | the claim of a round is `claim_next` |
| Worker.Step | src/vibe/worker.py:161 | the step of a round is `_execute_task` |
| Worker.Round | src/vibe/worker.py:154-161 | one loop iteration keeps the run so far plus the rest equal to the whole run |
| Worker.RunRounds | src/vibe/worker.py:154-163 | the loop's executed tasks, final directories and stop reason are `Rounds` |
| Worker.WorkerLoop | src/vibe/worker.py:135-163 | `worker_loop` equals `WorkerRun` from the initial directories |
| Loop.WidInjective | src/vibe/loop.py:86 | different indices give different worker ids |
| Loop.FirstWid | src/vibe/loop.py:65 | `f"w{0}"` is `w0` |
| Loop.SharedRuns | src/vibe/loop.py:123-130 | n workers in index order, none with a worktree |
| Loop.SharedIds | src/vibe/loop.py:123-130 | shared mode starts workers `w0 … w(n-1)`, all different |
| Loop.FirstFailure | src/vibe/loop.py:85-90 | the first index whose creation fails, with every earlier one created |
| Loop.Attempts | src/vibe/loop.py:85-88 | one creation attempt per worker tried |
| Loop.AttemptsAt | src/vibe/loop.py:85-88 | attempt j is for worker j |
| Loop.Worktrees | src/vibe/loop.py:85-89 | one worktree per created worker |
| Loop.WorktreesAt | src/vibe/loop.py:85-89 | worktree j belongs to worker j, at the path its creation returned |
| Loop.Removals | src/vibe/loop.py:93-94 | the cleanup removes each created worktree |
| Loop.WorktreeRuns | src/vibe/loop.py:100-107 | one worker per worktree, each in its own directory |
| Loop.MergeBack | src/vibe/loop.py:112-114 | two events per worktree |
| Loop.MergeBackAt | src/vibe/loop.py:112-114 | worktree j is merged at 2j with its message and removed right after |
| Loop.WorktreeTraceFailed | src/vibe/loop.py:90-97 | a failed creation: attempts, cleanup of the created ones, then shared mode without the store |
| Loop.WorktreeTraceCreated | src/vibe/loop.py:84-114 | all created and no worker raises: attempts, workers in their worktrees, then merge-back |
| Loop.WorktreeTraceRaised | src/vibe/loop.py:100-114 | all created and some worker raises: attempts and workers only; `f.result()` re-raises before the merge-back |
| Loop.RaisedTrace | src/vibe/loop.py:100-114 | after a raising worker the trace has exactly the n creations and n runs, and no merge and no removal |
| Loop.FallbackTrace | src/vibe/loop.py:90-97 | the fallback trace in closed form, with no merge |
| Loop.MergeBackTrace | src/vibe/loop.py:99-114 | when no worker raises, the full worktree trace in closed form: one merge then one removal per worktree, in creation order |
| Loop.LoopModes | src/vibe/loop.py:39-69 | no pending task means no event; one worker runs inline as `w0`; otherwise shared mode unless worktree mode applies |
| Loop.CleanupIff | src/vibe/loop.py:48-56 | the stale-worktree cleanup happens iff there is work and worktree mode applies |
| Loop.Scheduler.RunLoop | src/vibe/loop.py:24-72 | appends `LoopTrace` to the trace; reports a worker exception iff there is work and some worker raises |
| Loop.Scheduler.RunWithWorktrees | src/vibe/loop.py:75-114 | appends `WorktreeTrace` to the trace, skipping the merge-back exactly when a worker raises; reports whether one did |
| Loop.Scheduler.CreateAll | src/vibe/loop.py:85-97 | creates up to the first failure; reports whether every worker got a worktree |
| Loop.Scheduler.CleanUp | src/vibe/loop.py:93-94 | appends the removals |
| Loop.Scheduler.StartAll | src/vibe/loop.py:100-109 | appends one worker per worktree; reports whether any of them raised |
| Loop.Scheduler.MergeAll | src/vibe/loop.py:112-114 | appends merge then remove for each worktree |
| Loop.Scheduler.RunShared | src/vibe/loop.py:117-132 | appends the shared workers; reports whether any of them raised |
| Config.Defaults | src/vibe/config.py:11-35 | `Config()`: every field at its default, of its type |
| Config.Unquote | src/vibe/config.py:64-65 | a value in matching `"` or `'` loses exactly those; any other value is kept |
| Config.ParseLine | src/vibe/config.py:55-66 | a line yields an entry only if it is non-blank, not a comment, and contains `=` |
| Config.Entries | src/vibe/config.py:54-66 | one entry slot per line |
| Config.ParseDotenv | src/vibe/config.py:41-67 | the loop over the lines gives `Dotenv` |
| Config.CollectKeys | src/vibe/config.py:51-66 | a key is defined iff some line defines it |
| Config.CollectLastWins | src/vibe/config.py:66 | the last line that defines a key wins |
| Config.JoinedLine | src/vibe/config.py:58-66 | `key=value` reads back as the key and the unquoted value |
| Config.KeyValueLine | src/vibe/config.py:58-66 | an unquoted value reads back unchanged |
| Config.QuotedLine | src/vibe/config.py:64-65 | a quoted value keeps its inner text, white space included |
| Config.Coerce | src/vibe/config.py:70-80 | the result has the field's type; it is missing only where `int()` raises |
| Config.CoerceIntRoundTrip | src/vibe/config.py:72-74 | `_coerce(str(i), int) == i` |
| Config.CoerceBoolIgnoresCase | src/vibe/config.py:78-79 | bool coercion ignores ASCII case |
| Config.CoerceBoolSpellings | src/vibe/config.py:78-79 | `1`, `true`, `yes` are true; `0`, `false`, `no` are false |
| Config.Raw | src/vibe/config.py:98-102 | the environment variable when set, else the `.env` entry, else nothing |
| Config.Layer | src/vibe/config.py:103-106 | one field's assignment keeps the configuration's size |
| Config.LayerAllStep | src/vibe/config.py:97-106 | the loop visits one more field |
| Config.Chosen | src/vibe/config.py:97-106 | the chosen value has the field's type |
| Config.ChosenPriority | src/vibe/config.py:98-106 | environment over `.env` over default; text that does not coerce keeps the default |
| Config.LayerChosen | src/vibe/config.py:103-106 | a visit sets the field to what was chosen for it |
| Config.LayerAllAt | src/vibe/config.py:97-106 | after k fields, those hold their chosen values and the rest their defaults |
| Config.LayerAllTyped | src/vibe/config.py:97-106 | the loop keeps every field of its type |
| Config.LayerAll | src/vibe/config.py:97-106 | the field loop keeps one value per field |
| Config.MergeFields | src/vibe/config.py:97-106 | the field loop with `setattr` gives `LayerAll` |
| Config.Clamp | src/vibe/config.py:108-117 | a timeout ≤ 0 becomes 600, retries < 0 become 2, workers < 1 become 1; all end in range; other fields are untouched |
| Config.LoadedWellTyped | src/vibe/config.py:83-119 | `load_config` returns a well-formed configuration |
| Config.LoadedInRange | src/vibe/config.py:108-117 | timeout > 0, max_retries ≥ 0, max_workers ≥ 1, and the fields the CLI sets have their types |
| Config.LoadedField | src/vibe/config.py:97-106 | every field that is not range-checked holds what was chosen for it |
| Config.LoadedRanges | src/vibe/config.py:108-117 | each range-checked field holds its chosen value when in range, its reset value otherwise |
| Config.LoadedDefaults | src/vibe/config.py:89-106 | with no `VIBE_` variable and no `.env`, the result is `Config()` |
| Config.Loaded | src/vibe/config.py:83-119 | `load_config` returns one value per field |
| Config.LoadConfig | src/vibe/config.py:83-119 | `load_config` is `Loaded` |
| Server.PendingEntriesExact | src/vibe/server.py:85-87 | the pending entries are exactly the names without `.running.`, each named by its stem |
| Server.RunningEntryOfClaim | src/vibe/server.py:90-97 | a claimed file is listed as running, with its worker and its name without `.md` |
| Server.ArchivedEntryOfArchive | src/vibe/server.py:99-110 | an archived file is listed under the name it was archived for |
| Server.ScanPending | src/vibe/server.py:85-87 | the pending loop appends `PendingEntries` |
| Server.ScanRunning | src/vibe/server.py:90-97 | the running loop appends `RunningEntries` |
| Server.RunningFileEntry | src/vibe/server.py:91-97 | the worker after the first `.running.` (`?` without one), and the name before it |
| Server.ScanArchived | src/vibe/server.py:100-110 | the done or failed loop appends `ArchivedEntries` |
| Server.ScanTasks | src/vibe/server.py:77-112 | `_scan_tasks` lists pending, running, done, then failed, each in name order |
| Server.AddedReply | src/vibe/server.py:122-146 | blank descriptions are refused; otherwise the new file is fresh and pending, carrying the number reported, which beats every pending file's number |
| Server.AddTask | src/vibe/server.py:120-146 | the reply is `Added`; a created file holds the stripped description and a newline; a refusal changes nothing |
| Server.DeleteTargetSpec | src/vibe/server.py:162-175 | nothing is deleted iff no pending or failed file matches; a failed file is deleted only when no pending one matches |
| Server.DeleteTask | src/vibe/server.py:162-175 | the reply and the new state follow `DeleteTarget` |
| Numbering.NumberPartShape | src/vibe/server.py:135 | the number part is a prefix of the stem without `_` |
| Numbering.ScanOfBounds | src/vibe/__main__.py:120-127 | every parsed number is at most the maximum, which is 0 or one of them; unparsable names are ignored |
| Numbering.ScanMaxNumber | src/vibe/__main__.py:120-126 | the loop over the sorted names computes `MaxNumber` |
| Numbering.ParseNumber | src/vibe/__main__.py:122-126 | parsing the number part, with `ValueError` as `None` |
| Numbering.NextNumberBounds | src/vibe/__main__.py:117-129 | the next number beats every pending number; it is 1 or one more than some pending number; it is 1 with nothing pending |
| Numbering.SlugShape | src/vibe/__main__.py:132 | the slug is the first 30 characters with spaces and `/` made `_` |
| Numbering.TaskFileNameNumber | src/vibe/__main__.py:133 | the file name is pending and carries its own number |
| Numbering.NewNameFresh | src/vibe/__main__.py:133-135 | the new name never replaces an existing file |
| Cli.RunOverrides | src/vibe/__main__.py:29-40 | each given option replaces its field; the flags only clear `use_worktree` or set `plan_mode` and `use_docker`; other fields are untouched |
| Cli.CmdRun | src/vibe/__main__.py:26-46 | each option overrides its field when given and the loaded value stays otherwise (workspace, worktree, plan mode, docker, image); plan mode forces auto-approve, and without it the loaded auto-approve stays; timeout and retries stay in range, and workers too unless `--workers` is given; `--workers` is taken as given |
| Cli.CmdAdd | src/vibe/__main__.py:107-136 | writes the description and a newline under the next number and the slug, and nothing else |
| Cli.CmdAddName | src/vibe/__main__.py:117-135 | the new file is fresh, pending, and numbered above every pending file |
| Cli.FirstTaskName | src/vibe/__main__.py:117-129 | with nothing pending the new file is `001_<slug>.md` |
| Cli.FirstPad | src/vibe/__main__.py:133 | `f"{1:03d}"` is `001` |
| Strings.Strip | src/vibe/config.py:55 | `str.strip`: the ends are not white space; the result is empty iff the text is all white space |
| Strings.IndexOf | src/vibe/server.py:91 | the first occurrence, or none |
| Strings.BeforeFirst | src/vibe/server.py:135 | `split(sep)[0]`: the prefix up to the first separator, or the whole text |
| Strings.SplitLines | src/vibe/config.py:54 | `splitlines()` yields lines without line breaks |
| Strings.ParseDigits | src/vibe/config.py:74 | `int()` reads a run of ASCII digits as its decimal value |
| Strings.ParseInt | src/vibe/config.py:74 | `int()` succeeds only on text that is not blank |
| Strings.ParseNatToString | src/vibe/config.py:74 | `int(str(n)) == n` |
| Strings.NatToString | src/vibe/manager.py:355 | `str(n)` is a non-empty run of digits |
| Strings.ZeroPad3 | src/vibe/__main__.py:133 | `f"{n:03d}"` is at least three digits |
| Strings.Join | src/vibe/manager.py:103 | `"\n".join` of no parts is empty and of one part is that part |
| Strings.Upper | src/vibe/config.py:98 | `upper()` maps each character on its own |
| Strings.ParseZeroPad3 | src/vibe/__main__.py:133 | `int(f"{n:03d}") == n` |
| Strings.Lower | src/vibe/config.py:79 | `lower()` maps each character on its own |
| Strings.Utf8Size | src/vibe/task.py:66 | the byte size is between 1 and 4 bytes per character |
| Strings.Stem | src/vibe/server.py:87 | `Path.stem` is a prefix of the name |
| Strings.StemOfMd | src/vibe/server.py:87 | the stem of `<base>.md` is `<base>` |
| Strings.Least | src/vibe/task.py:50 | the first of the sorted names is in the set and below every other |
| Strings.Sorted | src/vibe/server.py:85 | `sorted` lists exactly the set's names |
| Strings.SortedAscending | src/vibe/server.py:85 | in strictly ascending order |

## Left out

- Threads and locks: the queue lock, the store lock, the thread pool and reader threads. Workers run one after another, in submission order, with no interleaving.
- The subprocess lifecycle of `_run_claude`: spawning, the 0.5 s poll, terminate and kill, thread joins. Its outcome (not found, spawn error, exit code, timeout, interrupted) is the `Outcome` parameter, and `Manager.Classify` maps it to a result.
- `check_docker_available`, `ensure_docker_image`, all of `worktree.py`, and the git calls that `loop.py` makes: these are foreign process calls. `loop.py` records them as trace events. Whether each worktree creation succeeds, and whether each worker raises out of its thread, are parameters indexed by worker number.
- `TaskQueue.release` and `extract_error_context` are called by `worker.py` but are not defined in `task.py`. Both are parameters (function values).
- Worker.PromptFraming: the `retries > 0` branch of `build_prompt` is stated only through what `extract_error_context` returns.
- Clocks, uuids and float durations: timestamps, iso times, approval ids and whole elapsed seconds are parameters. `duration_seconds` is not modelled.
- JSON decoding is a parameter yielding `Event`. Non-object JSON, and a text block without `"text"`, crash the source and are outside the model.
- `shlex.split` is a tokenizer parameter.
- The regular expressions are replaced by scanners and an automaton. `\d` is ASCII digits only, and `int()` accepts only ASCII digits, so Unicode digits are not modelled.
- `lower()` and `upper()` act on ASCII letters only.
- The filesystem is maps. Other effects are parameters:
  - the `.env` text and `os.environ`;
  - the `is_file` and `is_dir` facts;
  - the OS user, group and home;
  - the unsorted `glob` listings used by `retry_failed(name=…)` and `delete_task`.
- `stat()` failing (`task.py:66-68`) is left out, because the claimed file always exists in the model.
- `read_text(encoding="utf-8")` (`task.py:75`) is modelled as always succeeding on a `string`. On a file that is not valid UTF-8 it raises `UnicodeDecodeError`, which escapes `worker_loop` and leaves the file stranded under its running name; and it translates `\r\n` and `\r` to `\n`, while the 1 MiB check (`task.py:66-69`) counts the raw bytes. Neither is modelled.
- Tasks.TaskQueue.ClaimNext: the rename of the smallest pending file cannot fail in a sequential model, so the `OSError` branch (`task.py:58-62`) is not modelled.
- `recover_running`: a failed rename or unlink is logged and skipped in the source. The model lets both succeed. The case where the part before `.running.` names a directory is not modelled.
- Worker.WorkerLoop: the loop is bounded by a `fuel` round count. A run that would need more rounds ends with `OutOfFuel`.
- Worker.RetriesExhausted: it assumes that each requeued text stays within 1 MiB. Every failure adds a header, so a large enough task would instead be stranded by the size check.
- The shutdown signal is a monotone flag read at numbered points; signal handlers are not modelled.
- `_make_verbose_callback` and `on_output` only log, and are not modelled.
- The warning-only branch at `loop.py:57-61` is not modelled.
- Loop.Scheduler.RunLoop requires `max_workers >= 1`. `load_config` guarantees this, and the thread pool rejects fewer. `vibe run --workers 0` bypasses the clamp (`Cli.CmdRun` states this) and is outside the loop model.
- HTTP plumbing is not modelled: routing, status codes (kept as numbers), the SSE log buffer, the dashboard page, `start_server`, `retry_task` (a thin call to `retry_failed`) and `get_config`.
- A JSON body whose description is not a string is not modelled.
- `write_text` failures in `add_task` and `cmd_add` are not modelled.
- The `parts`-empty and `else f.stem` fallbacks of `_scan_tasks` cannot happen, and are not modelled.
- The CLI's argparse, logging setup, printing, `cmd_serve`, `cmd_list` and `cmd_retry` are not modelled. The workspace option picks the `.env` file, so the `.env` text is a parameter.
