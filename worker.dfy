/**
 * The worker of `vibe/worker.py`: it claims tasks from the queue one after
 * another, runs each through the agent (directly, in plan mode, or in plan
 * mode with a human approval between planning and execution) and then
 * completes, fails or releases the task.
 *
 * Everything a worker observes from outside is a parameter: the process
 * outcomes, the clock readings, the user's reply to an approval request, the
 * shutdown flag, and the two operations the queue module is expected to
 * provide but does not define here (`release` and `extract_error_context`).
 */
module Worker {
  import opened Wrappers
  import opened Strings
  import opened Tasks
  import opened Manager
  import opened Approval

  // ================================================================ prompts

  const PromptPrefix: string :=
    "## 执行前准备\n"
    + "1. 阅读 CLAUDE.md 了解项目架构和开发约定\n"
    + "2. 阅读 PROGRESS.md 了解项目历史、已知问题和经验教训\n"
    + "3. 注意：可能有其他 agent 在并行工作，只修改与本任务相关的文件\n\n"
    + "## 任务内容\n\n"

  const PromptSuffix: string :=
    "\n\n## 完成后要求\n"
    + "1. 确保代码能运行，通过相关测试\n"
    + "2. git add 并 commit 变更（message 格式见 CLAUDE.md）\n"
    + "3. 更新 PROGRESS.md：\n"
    + "   - 在「已完成任务」顶部追加本次记录（含改动文件、测试结果）\n"
    + "   - 在「经验教训」中记录有价值的发现\n"
    + "   - 在「已知问题」中记录发现但未处理的问题\n"

  /** What `build_prompt` is given: a plain string or a claimed task. */
  datatype PromptInput = PlainText(text: string) | OfTask(task: Task)

  /** `extract_error_context(content)`: the earlier errors and the content
      without them. The queue module does not define it; it is a parameter. */
  type ErrorContext = string -> (seq<string>, string)

  function ErrorBlock(errors: seq<string>): string
    decreases |errors|
  {
    if errors == [] then []
    else if |errors| == 1 then "- " + errors[0]
    else ErrorBlock(errors[..|errors| - 1]) + "\n" + "- " + errors[|errors| - 1]
  }

  function RetryNotes(retries: nat, errors: seq<string>): string {
    "\n\n## 上次执行失败信息\n\n"
    + "这是第 " + NatToString(retries + 1) + " 次尝试。之前失败的原因：\n" + ErrorBlock(errors) + "\n"
    + "请特别注意避免同样的错误。\n"
  }

  /** `build_prompt(task)`. */
  function BuildPrompt(input: PromptInput, extract: ErrorContext): string {
    var body :=
      match input
      case PlainText(s) => s
      case OfTask(t) =>
        if t.retries > 0 && extract(t.content).0 != [] then
          extract(t.content).1 + RetryNotes(t.retries, extract(t.content).0)
        else t.content;
    PromptPrefix + body + PromptSuffix
  }

  /** Every prompt is the task text between the fixed prefix and suffix; a
      first attempt, or a retry whose content yields no earlier errors, gets
      the content unchanged. */
  lemma PromptFraming(input: PromptInput, extract: ErrorContext)
    ensures var r := BuildPrompt(input, extract);
      StartsWith(r, PromptPrefix) && EndsWith(r, PromptSuffix)
    ensures input.PlainText? ==> BuildPrompt(input, extract) == PromptPrefix + input.text + PromptSuffix
    ensures input.OfTask? && (input.task.retries == 0 || extract(input.task.content).0 == [])
      ==> BuildPrompt(input, extract) == PromptPrefix + input.task.content + PromptSuffix
  {
    var r := BuildPrompt(input, extract);
    assert r[..|PromptPrefix|] == PromptPrefix;
    assert r[|r| - |PromptSuffix|..] == PromptSuffix;
  }

  // ============================================================ tool detail

  /** A string-valued entry of a tool's input, `""` when absent. */
  function InputOr(input: map<string, string>, key: string): string {
    if key in input then input[key] else ""
  }

  const BashPreview: nat := 80

  /** `_format_tool_detail(tool_name, tool_input)`. */
  function FormatToolDetail(name: string, input: map<string, string>): (r: string)
    ensures name in {"Read", "Write", "Edit"} ==> r == InputOr(input, "file_path")
    ensures name in {"Grep", "Glob"} ==> r == InputOr(input, "pattern")
    ensures name == "Task" ==> r == InputOr(input, "description")
    ensures name == "WebFetch" ==> r == InputOr(input, "url")
    ensures name !in {"Read", "Write", "Edit", "Bash", "Grep", "Glob", "Task", "WebFetch"} ==> r == ""
  {
    if name in {"Read", "Write", "Edit"} then InputOr(input, "file_path")
    else if name == "Bash" then
      var cmd := InputOr(input, "command");
      if |cmd| > BashPreview then cmd[..BashPreview] + "..." else cmd
    else if name in {"Grep", "Glob"} then InputOr(input, "pattern")
    else if name == "Task" then InputOr(input, "description")
    else if name == "WebFetch" then InputOr(input, "url")
    else ""
  }

  /** A Bash command is shown whole up to 80 characters; a longer one is cut
      to its first 80 characters and marked with `"..."`. */
  lemma BashDetail(input: map<string, string>)
    ensures var cmd := InputOr(input, "command"); var r := FormatToolDetail("Bash", input);
      && (|cmd| <= 80 ==> r == cmd)
      && (|cmd| > 80 ==> |r| == 83 && r[..80] == cmd[..80] && r[80..] == "...")
      && |r| <= 83
  {
  }

  // =============================================================== dispatch

  datatype Mode = ApprovalFlow | PlanFlow | TaskFlow

  /** The three-way choice of `_execute_task`. */
  function Dispatch(planMode: bool, autoApprove: bool, hasStore: bool): (m: Mode)
    ensures m == ApprovalFlow <==> planMode && !autoApprove && hasStore
    ensures m == PlanFlow <==> planMode && (autoApprove || !hasStore)
    ensures m == TaskFlow <==> !planMode
  {
    if planMode && !autoApprove && hasStore then ApprovalFlow
    else if planMode then PlanFlow
    else TaskFlow
  }

  /** What the worker's settings hold. */
  datatype WorkerConfig = WorkerConfig(timeout: int, planMode: bool, planAutoApprove: bool, settings: Settings)

  /** What the user does with an approval request while the worker waits
      (the request's wait timeout is what the reply may depend on). */
  datatype Reply = NoReply | ApproveReply | RejectReply

  /** What the world supplies for one executed task: the process outcomes,
      the timestamp and the ISO time for archiving, whether the atomic write
      succeeds, the new approval's id, the whole seconds elapsed when the
      approval wait and when the execution start, and the user's reply. */
  datatype Env = Env(
    run: Invocation -> Outcome,
    ts: string,
    iso: string,
    writeOk: bool,
    approvalId: string,
    waitElapsed: int,
    execElapsed: int,
    reply: int -> Reply)

  const WaitTimedOut: string := "审批等待超时"
  const PlanRejected: string := "用户拒绝计划"

  /** `_execute_with_approval`: plan, wait for the user, then execute. */
  function WithApproval(prompt: string, timeout: int, s: Settings, env: Env): Run {
    var p := GeneratePlan(prompt, timeout, s, env.run);
    if !p.result.success then p
    else
      match env.reply(RemainingTimeout(timeout, env.waitElapsed))
      case NoReply => Run(Failure("", WaitTimedOut, None), p.calls)
      case RejectReply => Run(Failure("", PlanRejected, None), p.calls)
      case ApproveReply =>
        var e := ExecutePlan(p.result.output, RemainingTimeout(timeout, env.execElapsed), s, env.run);
        Run(e.result, p.calls + e.calls)
  }

  /** What running one prompt in a mode yields. */
  function Execution(mode: Mode, prompt: string, cfg: WorkerConfig, env: Env): Run {
    match mode
    case ApprovalFlow => WithApproval(prompt, cfg.timeout, cfg.settings, env)
    case PlanFlow => RunPlan(prompt, cfg.timeout, env.waitElapsed, cfg.settings, env.run)
    case TaskFlow => RunTask(prompt, cfg.timeout, cfg.settings, env.run)
  }

  /** A failed plan is returned as it is: nothing is submitted or executed. */
  lemma ApprovalPlanFailure(prompt: string, timeout: int, s: Settings, env: Env)
    requires !GeneratePlan(prompt, timeout, s, env.run).result.success
    ensures WithApproval(prompt, timeout, s, env) == GeneratePlan(prompt, timeout, s, env.run)
  {
  }

  /** No decision within the wait: the task fails with the wait-timeout error
      and only the planning process ran. */
  lemma ApprovalWaitTimesOut(prompt: string, timeout: int, s: Settings, env: Env)
    requires GeneratePlan(prompt, timeout, s, env.run).result.success
    requires env.reply(RemainingTimeout(timeout, env.waitElapsed)) == NoReply
    ensures var r := WithApproval(prompt, timeout, s, env);
      !r.result.success && r.result.error == "审批等待超时" && |r.calls| == 1
  {
  }

  /** A rejected plan fails the task with the rejection error and is not
      executed. */
  lemma ApprovalRejected(prompt: string, timeout: int, s: Settings, env: Env)
    requires GeneratePlan(prompt, timeout, s, env.run).result.success
    requires env.reply(RemainingTimeout(timeout, env.waitElapsed)) == RejectReply
    ensures var r := WithApproval(prompt, timeout, s, env);
      !r.result.success && r.result.error == "用户拒绝计划" && |r.calls| == 1
  {
  }

  /** An approved plan is executed once, with the time left but at least 60
      seconds, and the output is framed by the plan. */
  lemma ApprovalExecutes(prompt: string, timeout: int, s: Settings, env: Env)
    requires GeneratePlan(prompt, timeout, s, env.run).result.success
    requires env.reply(RemainingTimeout(timeout, env.waitElapsed)) == ApproveReply
    ensures var p := GeneratePlan(prompt, timeout, s, env.run).result;
      var r := WithApproval(prompt, timeout, s, env);
      && |r.calls| == 2
      && r.calls[0].timeout == PlanTimeout(timeout)
      && r.calls[1].cmd == ActualCmd(TaskCmd(ExecPrompt(p.output)), s)
      && r.calls[1].timeout == RemainingTimeout(timeout, env.execElapsed) >= 60
      && StartsWith(r.result.output, "[计划]\n" + p.output)
  {
  }

  // ================================================================ outcome

  /** What the worker does with a task once its run is over. */
  datatype Action = Released | Completed | FailedWith(error: string)

  /** A shutdown seen after the run releases the task; otherwise success
      completes it and failure fails it with the run's error. */
  function OutcomeOf(shutdown: bool, r: TaskResult): (a: Action)
    ensures a == Released <==> shutdown
    ensures a == Completed <==> !shutdown && r.success
    ensures a.FailedWith? <==> !shutdown && !r.success
    ensures a.FailedWith? ==> a.error == r.error
  {
    if shutdown then Released else if r.success then Completed else FailedWith(r.error)
  }

  /** `TaskQueue.release(task)`: not defined by the queue module, so any
      transformation of the directories. */
  type ReleaseOp = (Dirs, Task) -> Dirs

  /** The directories after the action, and whether `fail` raised. */
  function ApplyAction(d: Dirs, task: Task, a: Action, env: Env, maxRetries: int, release: ReleaseOp): (r: Failed)
    ensures a == Released ==> r == Failed(release(d, task), false)
    ensures a == Completed ==> r == Failed(AfterComplete(d, task, env.ts), false)
    ensures a.FailedWith? ==> r == AfterFail(d, task, a.error, env.ts, env.iso, maxRetries, env.writeOk)
  {
    match a
    case Released => Failed(release(d, task), false)
    case Completed => Failed(AfterComplete(d, task, env.ts), false)
    case FailedWith(e) => AfterFail(d, task, e, env.ts, env.iso, maxRetries, env.writeOk)
  }

  // ============================================================ worker loop

  /** The shutdown flag as the worker reads it at its `i`-th reading: once
      set it stays set. */
  predicate ShutdownAt(from: Option<nat>, i: nat) {
    from.Some? && from.value <= i
  }

  /** Everything fixed for one worker's run. */
  datatype Setup = Setup(
    wid: string,
    cfg: WorkerConfig,
    hasStore: bool,
    maxRetries: int,
    env: nat -> Env,
    shutdownFrom: Option<nat>,
    release: ReleaseOp,
    extract: ErrorContext)

  /** The agent's run on `task` in round `k`, in the mode the settings choose. */
  function RunOf(task: Task, k: nat, w: Setup): Run {
    Execution(Dispatch(w.cfg.planMode, w.cfg.planAutoApprove, w.hasStore),
              BuildPrompt(OfTask(task), w.extract), w.cfg, w.env(k))
  }

  /** Round `k` of the loop reads the flag twice: before claiming (reading
      `2k`) and after the run (reading `2k + 1`). */
  function ExecuteStep(d: Dirs, task: Task, k: nat, w: Setup): Failed {
    var run := RunOf(task, k, w);
    ApplyAction(d, task, OutcomeOf(ShutdownAt(w.shutdownFrom, 2 * k + 1), run.result), w.env(k), w.maxRetries, w.release)
  }

  /** Why the loop stopped; `WriteRaised` is `fail` raising out of the loop,
      `OutOfFuel` the bound on rounds the model puts on it. */
  datatype LoopEnd = QueueEmpty | ShutdownSeen | WriteRaised | OutOfFuel

  datatype Worked = Worked(dirs: Dirs, executed: seq<Task>, end: LoopEnd)

  /** What one round does with a claimed task in round `k`. */
  type StepOp = (Dirs, Task, nat) -> Failed

  /** What a claim does to the tasks directory: `claim_next` for one worker. */
  type ClaimOp = map<string, string> -> Claimed

  /** The shape of `worker_loop` from round `k`, with at most `fuel` more
      rounds: read the flag, claim, run the claimed task, repeat. */
  function Rounds(d: Dirs, k: nat, fuel: nat, shut: nat -> bool, claim: ClaimOp, step: StepOp): (r: Worked)
    ensures |r.executed| <= fuel
    decreases fuel
  {
    if shut(2 * k) then Worked(d, [], ShutdownSeen)
    else if fuel == 0 then Worked(d, [], OutOfFuel)
    else
      var c := claim(d.tasks);
      var d1 := d.(tasks := c.tasks);
      if c.task.None? then Worked(d1, [], QueueEmpty)
      else
        var s := step(d1, c.task.value, k);
        if s.raised then Worked(s.dirs, [c.task.value], WriteRaised)
        else
          var rest := Rounds(s.dirs, k + 1, fuel - 1, shut, claim, step);
          Worked(rest.dirs, [c.task.value] + rest.executed, rest.end)
  }

  function ShutOf(w: Setup): nat -> bool {
    (i: nat) => ShutdownAt(w.shutdownFrom, i)
  }

  function ClaimOf(wid: string): ClaimOp {
    (t: map<string, string>) => AfterClaim(t, wid)
  }

  function StepOf(w: Setup): StepOp {
    (d: Dirs, t: Task, k: nat) => ExecuteStep(d, t, k, w)
  }

  /** `worker_loop` run by the worker `w.wid`. */
  function WorkerRun(d: Dirs, k: nat, fuel: nat, w: Setup): Worked {
    Rounds(d, k, fuel, ShutOf(w), ClaimOf(w.wid), StepOf(w))
  }

  /** With nothing pending the worker stops at once and changes nothing. */
  lemma EmptyQueueStops(d: Dirs, fuel: nat, w: Setup)
    requires MdFiles(d.tasks) == {} && fuel > 0 && !ShutdownAt(w.shutdownFrom, 0)
    ensures WorkerRun(d, 0, fuel, w) == Worked(d, [], QueueEmpty)
  {
  }

  /** A shutdown seen before claiming stops the worker with nothing changed. */
  lemma ShutdownStops(d: Dirs, k: nat, fuel: nat, w: Setup)
    requires ShutdownAt(w.shutdownFrom, 2 * k)
    ensures WorkerRun(d, k, fuel, w) == Worked(d, [], ShutdownSeen)
  {
  }

  /** A task released on shutdown is the last one: the next reading of the
      flag stops the loop. */
  lemma ReleaseIsLast(d: Dirs, k: nat, fuel: nat, w: Setup)
    requires fuel > 1 && !ShutdownAt(w.shutdownFrom, 2 * k) && ShutdownAt(w.shutdownFrom, 2 * k + 1)
    requires AfterClaim(d.tasks, w.wid).task.Some?
    ensures var c := AfterClaim(d.tasks, w.wid);
      WorkerRun(d, k, fuel, w) == Worked(w.release(d.(tasks := c.tasks), c.task.value), [c.task.value], ShutdownSeen)
  {
    var c := AfterClaim(d.tasks, w.wid);
    var d1 := d.(tasks := c.tasks);
    var s := ExecuteStep(d1, c.task.value, k, w);
    assert s == Failed(w.release(d1, c.task.value), false);
    assert StepOf(w)(d1, c.task.value, k) == s;
    assert ClaimOf(w.wid)(d.tasks) == c;
    assert ShutOf(w)(2 * (k + 1));
    assert Rounds(s.dirs, k + 1, fuel - 1, ShutOf(w), ClaimOf(w.wid), StepOf(w)) == Worked(s.dirs, [], ShutdownSeen);
  }

  /** The loop stops on a claim that yields no task: either nothing is
      pending, or the smallest pending file is oversized and stays under its
      running name, even when other files are still pending. */
  ghost predicate StoppedOnClaim(t: map<string, string>) {
    MdFiles(t) == {} || exists f :: f in t && IsRunningName(f) && Utf8Size(t[f]) > MaxTaskFileSize
  }

  lemma ClaimNoneMeans(t: map<string, string>, wid: string)
    requires AfterClaim(t, wid).task.None?
    ensures StoppedOnClaim(AfterClaim(t, wid).tasks)
  {
    if MdFiles(t) != {} {
      var f := Least(MdFiles(t));
      var rn := RunningName(f, wid);
      RunningNameIsRunning(f, wid);
      assert rn in AfterClaim(t, wid).tasks && AfterClaim(t, wid).tasks[rn] == t[f];
    }
  }

  /** Every claim that yields no task leaves a queue the loop stops on. */
  ghost predicate StopsWhenEmpty(claim: ClaimOp) {
    forall t :: claim(t).task.None? ==> StoppedOnClaim(claim(t).tasks)
  }

  lemma ClaimStopsWhenEmpty(wid: string)
    ensures StopsWhenEmpty(ClaimOf(wid))
  {
    forall t | ClaimOf(wid)(t).task.None? ensures StoppedOnClaim(ClaimOf(wid)(t).tasks) {
      assert ClaimOf(wid)(t) == AfterClaim(t, wid);
      ClaimNoneMeans(t, wid);
    }
  }

  lemma {:induction false} RoundsQueueEmpty(d: Dirs, k: nat, fuel: nat, shut: nat -> bool, claim: ClaimOp, step: StepOp)
    requires StopsWhenEmpty(claim)
    requires Rounds(d, k, fuel, shut, claim, step).end == QueueEmpty
    ensures StoppedOnClaim(Rounds(d, k, fuel, shut, claim, step).dirs.tasks)
    decreases fuel
  {
    var c := claim(d.tasks);
    if c.task.Some? {
      var s := step(d.(tasks := c.tasks), c.task.value, k);
      RoundsQueueEmpty(s.dirs, k + 1, fuel - 1, shut, claim, step);
    }
  }

  /** What one round contributes: nothing claimable ends the loop, a raise
      ends it after the task, otherwise the rest follows. */
  lemma RoundsOne(d: Dirs, k: nat, fuel: nat, shut: nat -> bool, claim: ClaimOp, step: StepOp)
    requires fuel > 0 && !shut(2 * k)
    ensures var c := claim(d.tasks); var d1 := d.(tasks := c.tasks);
      c.task.None? ==> Rounds(d, k, fuel, shut, claim, step) == Worked(d1, [], QueueEmpty)
    ensures var c := claim(d.tasks); var d1 := d.(tasks := c.tasks);
      c.task.Some? && step(d1, c.task.value, k).raised ==>
      Rounds(d, k, fuel, shut, claim, step) == Worked(step(d1, c.task.value, k).dirs, [c.task.value], WriteRaised)
    ensures var c := claim(d.tasks); var d1 := d.(tasks := c.tasks);
      c.task.Some? && !step(d1, c.task.value, k).raised ==>
      var rest := Rounds(step(d1, c.task.value, k).dirs, k + 1, fuel - 1, shut, claim, step);
      Rounds(d, k, fuel, shut, claim, step) == Worked(rest.dirs, [c.task.value] + rest.executed, rest.end)
  {
  }

  /** Whichever tasks ran, a worker that stops on `QueueEmpty` leaves
      nothing claimable behind. */
  lemma QueueEmptyMeans(d: Dirs, k: nat, fuel: nat, w: Setup)
    requires WorkerRun(d, k, fuel, w).end == QueueEmpty
    ensures StoppedOnClaim(WorkerRun(d, k, fuel, w).dirs.tasks)
  {
    ClaimStopsWhenEmpty(w.wid);
    RoundsQueueEmpty(d, k, fuel, ShutOf(w), ClaimOf(w.wid), StepOf(w));
  }

  // ====================================================== retry exhaustion

  /** Every run of the agent fails with an error text free of `<`, and every
      write of `fail` succeeds, with a clock reading free of `<`. */
  ghost predicate AlwaysFails(w: Setup) {
    && (forall k: nat, t: Task :: !RunOf(t, k, w).result.success && NoLt(RunOf(t, k, w).result.error))
    && (forall k: nat :: w.env(k).writeOk && NoLt(w.env(k).iso))
  }

  /** The text of the task file `f` when round `j` claims it, each earlier
      round having failed and requeued it. */
  function AttemptText(f: string, c: string, j: nat, w: Setup): string
    decreases j
  {
    if j == 0 then c
    else
      var p := AttemptText(f, c, j - 1, w);
      RequeuedContent(p, w.env(j - 1).iso, RunOf(Task(RunningName(f, w.wid), Stem(f), p, j - 1), j - 1, w).result.error, j)
  }

  /** The text `fail` archives in round `m - 1`, the last one. */
  function FinalText(f: string, c: string, m: nat, w: Setup): string
    requires m >= 1
  {
    var p := AttemptText(f, c, m - 1, w);
    var err := RunOf(Task(RunningName(f, w.wid), Stem(f), p, m - 1), m - 1, w).result.error;
    FinalFailureHeader(w.env(m - 1).iso, err, m, m) + p
  }

  /** Claiming the only file of the tasks directory. */
  lemma ClaimOnly(f: string, p: string, wid: string)
    requires IsMdName(f) && Utf8Size(p) <= MaxTaskFileSize
    ensures var rn := RunningName(f, wid);
      AfterClaim(map[f := p], wid) == Claimed(map[rn := p], Some(Task(rn, Stem(f), p, ExtractRetryCount(p))))
  {
    var t := map[f := p];
    assert MdFiles(t) == {f};
    assert (t - {f})[RunningName(f, wid) := p] == map[RunningName(f, wid) := p];
  }

  /** The task `claim_next` hands over in round `i`. */
  function Attempt(f: string, c: string, i: nat, w: Setup): Task {
    Task(RunningName(f, w.wid), Stem(f), AttemptText(f, c, i, w), i)
  }

  /** What the worker leaves behind once the task is archived. */
  function Exhausted(d: Dirs, f: string, c: string, m: nat, w: Setup): Dirs
    requires m >= 1
  {
    d.(tasks := map[], failed := d.failed[ArchiveName(w.env(m - 1).ts, Stem(f)) := FinalText(f, c, m, w)])
  }

  /** The tasks run in rounds `k` up to `n - 1`. */
  function RunBetween(ts: nat -> Task, k: nat, n: nat): (r: seq<Task>)
    ensures |r| == if k < n then n - k else 0
    decreases n - k
  {
    if k < n then [ts(k)] + RunBetween(ts, k + 1, n) else []
  }

  lemma {:induction false} RunBetweenAt(ts: nat -> Task, k: nat, n: nat, i: nat)
    requires k + i < n
    ensures RunBetween(ts, k, n)[i] == ts(k + i)
    decreases i
  {
    if i > 0 {
      RunBetweenAt(ts, k + 1, n, i - 1);
    }
  }

  /** Rounds `k` up to `n - 1` each claim a task and leave the state the
      next round starts from, and round `n` finds nothing to claim: the
      loop runs exactly those tasks and stops on the empty queue. */
  lemma {:induction false} RoundsUntilEmpty(ds: nat -> Dirs, held: nat -> map<string, string>, ts: nat -> Task,
                                            k: nat, n: nat, fuel: nat, shut: nat -> bool, claim: ClaimOp, step: StepOp)
    requires k <= n && fuel > n - k
    requires forall i :: 2 * k <= i <= 2 * n ==> !shut(i)
    requires forall i :: k <= i < n ==> claim(ds(i).tasks) == Claimed(held(i), Some(ts(i)))
    requires forall i :: k <= i < n ==> step(ds(i).(tasks := held(i)), ts(i), i) == Failed(ds(i + 1), false)
    requires claim(ds(n).tasks) == Claimed(held(n), None)
    ensures Rounds(ds(k), k, fuel, shut, claim, step) == Worked(ds(n).(tasks := held(n)), RunBetween(ts, k, n), QueueEmpty)
    decreases n - k
  {
    assert !shut(2 * k);
    RoundsOne(ds(k), k, fuel, shut, claim, step);
    if k < n {
      RoundsUntilEmpty(ds, held, ts, k + 1, n, fuel - 1, shut, claim, step);
    }
  }

  /** Each requeued text carries the count of the rounds before it. */
  lemma {:induction false} AttemptCount(f: string, c: string, j: nat, w: Setup)
    requires Markers(c) == [] && AlwaysFails(w)
    ensures ExtractRetryCount(AttemptText(f, c, j, w)) == j
    decreases j
  {
    if j > 0 {
      AttemptCount(f, c, j - 1, w);
      var task := Attempt(f, c, j - 1, w);
      assert NoLt(RunOf(task, j - 1, w).result.error);
      assert NoLt(w.env(j - 1).iso);
      RequeuedCount(task.content, w.env(j - 1).iso, RunOf(task, j - 1, w).result.error, j);
    }
  }

  /** Round `i` claims attempt `i`. */
  lemma ClaimFact(f: string, c: string, i: nat, w: Setup)
    requires IsMdName(f) && Markers(c) == [] && AlwaysFails(w)
    requires Utf8Size(AttemptText(f, c, i, w)) <= MaxTaskFileSize
    ensures AfterClaim(map[f := AttemptText(f, c, i, w)], w.wid)
      == Claimed(map[RunningName(f, w.wid) := AttemptText(f, c, i, w)], Some(Attempt(f, c, i, w)))
  {
    AttemptCount(f, c, i, w);
    ClaimOnly(f, AttemptText(f, c, i, w), w.wid);
  }

  /** Round `i` requeues attempt `i` for round `i + 1` or, in the last
      round, archives it. */
  lemma StepFact(d: Dirs, f: string, c: string, m: nat, i: nat, w: Setup)
    requires Stem(f) + ".md" == f && d.failedIsDir
    requires AlwaysFails(w) && w.shutdownFrom.None? && w.maxRetries == m && i < m
    ensures ExecuteStep(d.(tasks := map[RunningName(f, w.wid) := AttemptText(f, c, i, w)]), Attempt(f, c, i, w), i, w)
      == Failed(if i + 1 < m then d.(tasks := map[f := AttemptText(f, c, i + 1, w)]) else Exhausted(d, f, c, m, w), false)
  {
    if i + 1 < m {
      RequeueFact(d, f, c, m, i, w);
    } else {
      ArchiveFact(d, f, c, m, w);
    }
  }

  lemma RequeueFact(d: Dirs, f: string, c: string, m: nat, i: nat, w: Setup)
    requires Stem(f) + ".md" == f
    requires AlwaysFails(w) && w.shutdownFrom.None? && w.maxRetries == m && i + 1 < m
    ensures ExecuteStep(d.(tasks := map[RunningName(f, w.wid) := AttemptText(f, c, i, w)]), Attempt(f, c, i, w), i, w)
      == Failed(d.(tasks := map[f := AttemptText(f, c, i + 1, w)]), false)
  {
    var d1 := d.(tasks := map[RunningName(f, w.wid) := AttemptText(f, c, i, w)]);
    RequeueStep(d1, f, c, m, i, w);
    assert d1.(tasks := map[f := AttemptText(f, c, i + 1, w)]) == d.(tasks := map[f := AttemptText(f, c, i + 1, w)]);
  }

  lemma ArchiveFact(d: Dirs, f: string, c: string, m: nat, w: Setup)
    requires d.failedIsDir
    requires AlwaysFails(w) && w.shutdownFrom.None? && w.maxRetries == m >= 1
    ensures ExecuteStep(d.(tasks := map[RunningName(f, w.wid) := AttemptText(f, c, m - 1, w)]), Attempt(f, c, m - 1, w), m - 1, w)
      == Failed(Exhausted(d, f, c, m, w), false)
  {
    var d1 := d.(tasks := map[RunningName(f, w.wid) := AttemptText(f, c, m - 1, w)]);
    ArchiveStep(d1, f, c, m, w);
    assert Exhausted(d1, f, c, m, w) == Exhausted(d, f, c, m, w);
  }

  /** The directories at the start of round `i`. */
  function StatesOf(d: Dirs, f: string, c: string, m: nat, w: Setup): nat -> Dirs
    requires m >= 1
  {
    (i: nat) => if i < m then d.(tasks := map[f := AttemptText(f, c, i, w)]) else Exhausted(d, f, c, m, w)
  }

  /** The tasks directory right after the claim of round `i`. */
  function HeldOf(f: string, c: string, m: nat, w: Setup): nat -> map<string, string> {
    (i: nat) => if i < m then map[RunningName(f, w.wid) := AttemptText(f, c, i, w)] else map[]
  }

  /** The task of round `i`. */
  function AttemptOf(f: string, c: string, w: Setup): nat -> Task {
    (i: nat) => Attempt(f, c, i, w)
  }

  /** The claim of round `i`, in the terms the loop lemma takes. */
  lemma ClaimOfRound(d: Dirs, f: string, c: string, m: nat, i: nat, w: Setup)
    requires IsMdName(f) && Markers(c) == [] && AlwaysFails(w) && m >= 1
    requires i < m ==> Utf8Size(AttemptText(f, c, i, w)) <= MaxTaskFileSize
    ensures i < m ==> ClaimOf(w.wid)(StatesOf(d, f, c, m, w)(i).tasks) == Claimed(HeldOf(f, c, m, w)(i), Some(AttemptOf(f, c, w)(i)))
    ensures i >= m ==> ClaimOf(w.wid)(StatesOf(d, f, c, m, w)(i).tasks) == Claimed(HeldOf(f, c, m, w)(i), None)
  {
    if i < m {
      assert StatesOf(d, f, c, m, w)(i).tasks == map[f := AttemptText(f, c, i, w)];
      ClaimFact(f, c, i, w);
    } else {
      assert StatesOf(d, f, c, m, w)(i).tasks == map[];
      assert MdFiles(map[]) == {};
    }
  }

  /** The step of round `i`, in the terms the loop lemma takes. */
  lemma StepOfRound(d: Dirs, f: string, c: string, m: nat, i: nat, w: Setup)
    requires Stem(f) + ".md" == f && d.failedIsDir
    requires AlwaysFails(w) && w.shutdownFrom.None? && w.maxRetries == m && i < m
    ensures StepOf(w)(StatesOf(d, f, c, m, w)(i).(tasks := HeldOf(f, c, m, w)(i)), AttemptOf(f, c, w)(i), i)
      == Failed(StatesOf(d, f, c, m, w)(i + 1), false)
  {
    var ds := StatesOf(d, f, c, m, w);
    assert ds(i).(tasks := HeldOf(f, c, m, w)(i)) == d.(tasks := map[RunningName(f, w.wid) := AttemptText(f, c, i, w)]);
    assert ds(i + 1) == if i + 1 < m then d.(tasks := map[f := AttemptText(f, c, i + 1, w)]) else Exhausted(d, f, c, m, w);
    StepFact(d, f, c, m, i, w);
  }

  /** A failed run in round `k` hands the run's error to `fail`. */
  lemma StepFails(d: Dirs, task: Task, k: nat, w: Setup)
    requires AlwaysFails(w) && w.shutdownFrom.None?
    ensures var e := w.env(k); var err := RunOf(task, k, w).result.error;
      && ExecuteStep(d, task, k, w) == AfterFail(d, task, err, e.ts, e.iso, w.maxRetries, true)
      && NoLt(err) && NoLt(e.iso)
  {
    assert !RunOf(task, k, w).result.success && NoLt(RunOf(task, k, w).result.error);
    assert w.env(k).writeOk && NoLt(w.env(k).iso);
  }

  /** Below the limit, `fail` writes the requeued text under the pending
      name and drops the running file. */
  lemma FailBelow(d: Dirs, task: Task, error: string, ts: string, iso: string, m: int)
    requires task.retries + 1 < m
    ensures AfterFail(d, task, error, ts, iso, m, true)
      == Failed(d.(tasks := d.tasks[task.name + ".md" := RequeuedContent(task.content, iso, error, task.retries + 1)] - {task.path}), false)
  {
  }

  /** Below the limit, round `j` puts the text of attempt `j + 1` back
      under `f`, and it carries the count `j + 1`. */
  lemma RequeueStep(d1: Dirs, f: string, c: string, m: nat, j: nat, w: Setup)
    requires Stem(f) + ".md" == f
    requires AlwaysFails(w) && w.shutdownFrom.None? && w.maxRetries == m && j + 1 < m
    requires d1.tasks == map[RunningName(f, w.wid) := AttemptText(f, c, j, w)]
    ensures ExecuteStep(d1, Attempt(f, c, j, w), j, w) == Failed(d1.(tasks := map[f := AttemptText(f, c, j + 1, w)]), false)
    ensures ExtractRetryCount(AttemptText(f, c, j + 1, w)) == j + 1
  {
    var task := Attempt(f, c, j, w);
    var e := w.env(j);
    var err := RunOf(task, j, w).result.error;
    StepFails(d1, task, j, w);
    FailBelow(d1, task, err, e.ts, e.iso, m);
    var q := AttemptText(f, c, j + 1, w);
    assert q == RequeuedContent(task.content, e.iso, err, j + 1);
    DropRunning(task.path, f, task.content, q);
    RequeuedCount(task.content, e.iso, err, j + 1);
  }

  /** Writing the pending name and dropping the running one. */
  lemma DropRunning(rn: string, f: string, p: string, q: string)
    requires rn != f
    ensures map[rn := p][f := q] - {rn} == map[f := q]
  {
  }

  /** In the last round, `fail` archives the task and leaves no file in
      the tasks directory. */
  lemma ArchiveStep(d1: Dirs, f: string, c: string, m: nat, w: Setup)
    requires AlwaysFails(w) && w.shutdownFrom.None? && w.maxRetries == m >= 1
    requires d1.failedIsDir && d1.tasks == map[RunningName(f, w.wid) := AttemptText(f, c, m - 1, w)]
    ensures ExecuteStep(d1, Attempt(f, c, m - 1, w), m - 1, w) == Failed(Exhausted(d1, f, c, m, w), false)
  {
    var task := Attempt(f, c, m - 1, w);
    var e := w.env(m - 1);
    var err := RunOf(task, m - 1, w).result.error;
    StepFails(d1, task, m - 1, w);
    AfterFailAtLimit(d1, task, err, e.ts, e.iso, m);
    assert map[task.path := task.content] - {task.path} == map[];
  }

  /** A runner that always fails: a single task file `f` without a retry
      marker is run exactly `max_retries` times, each time requeued with the
      count one higher, and then lands in `failed/` as the one new file, with
      no pending or running file of it left and `done/` untouched. Every
      requeued text is assumed to stay within the 1 MiB limit. */
  lemma RetriesExhausted(d: Dirs, f: string, c: string, m: nat, fuel: nat, w: Setup)
    requires IsMdName(f) && Stem(f) + ".md" == f
    requires d.tasks == map[f := c] && Markers(c) == [] && d.failedIsDir
    requires AlwaysFails(w) && w.shutdownFrom.None? && w.maxRetries == m >= 1 && fuel >= m + 1
    requires forall i :: 0 <= i < m ==> Utf8Size(AttemptText(f, c, i, w)) <= MaxTaskFileSize
    ensures var r := WorkerRun(d, 0, fuel, w); var a := ArchiveName(w.env(m - 1).ts, Stem(f));
      && |r.executed| == m
      && (forall i :: 0 <= i < m ==> r.executed[i].retries == i)
      && r.end == QueueEmpty
      && r.dirs.tasks == map[]
      && r.dirs.done == d.done
      && r.dirs.failed == d.failed[a := FinalText(f, c, m, w)]
      && r.dirs.failed.Keys == d.failed.Keys + {a}
  {
    ExhaustedRun(d, f, c, m, fuel, w);
    forall i | 0 <= i < m
      ensures RunBetween(AttemptOf(f, c, w), 0, m)[i].retries == i
    {
      RunBetweenAt(AttemptOf(f, c, w), 0, m, i);
    }
  }

  /** The worker's whole run, as the loop lemma gives it. */
  lemma ExhaustedRun(d: Dirs, f: string, c: string, m: nat, fuel: nat, w: Setup)
    requires IsMdName(f) && Stem(f) + ".md" == f
    requires d.tasks == map[f := c] && Markers(c) == [] && d.failedIsDir
    requires AlwaysFails(w) && w.shutdownFrom.None? && w.maxRetries == m >= 1 && fuel >= m + 1
    requires forall i :: 0 <= i < m ==> Utf8Size(AttemptText(f, c, i, w)) <= MaxTaskFileSize
    ensures WorkerRun(d, 0, fuel, w) == Worked(Exhausted(d, f, c, m, w), RunBetween(AttemptOf(f, c, w), 0, m), QueueEmpty)
  {
    var ds := StatesOf(d, f, c, m, w);
    ClaimsHold(d, f, c, m, w);
    StepsHold(d, f, c, m, w);
    RoundsUntilEmpty(ds, HeldOf(f, c, m, w), AttemptOf(f, c, w), 0, m, fuel, ShutOf(w), ClaimOf(w.wid), StepOf(w));
    assert ds(0) == d;
    assert ds(m).(tasks := HeldOf(f, c, m, w)(m)) == Exhausted(d, f, c, m, w);
  }

  lemma ClaimsHold(d: Dirs, f: string, c: string, m: nat, w: Setup)
    requires IsMdName(f) && Markers(c) == [] && AlwaysFails(w) && m >= 1
    requires forall i :: 0 <= i < m ==> Utf8Size(AttemptText(f, c, i, w)) <= MaxTaskFileSize
    ensures forall i :: 0 <= i < m ==>
      ClaimOf(w.wid)(StatesOf(d, f, c, m, w)(i).tasks) == Claimed(HeldOf(f, c, m, w)(i), Some(AttemptOf(f, c, w)(i)))
    ensures ClaimOf(w.wid)(StatesOf(d, f, c, m, w)(m).tasks) == Claimed(HeldOf(f, c, m, w)(m), None)
  {
    forall i | 0 <= i < m
      ensures ClaimOf(w.wid)(StatesOf(d, f, c, m, w)(i).tasks) == Claimed(HeldOf(f, c, m, w)(i), Some(AttemptOf(f, c, w)(i)))
    {
      ClaimOfRound(d, f, c, m, i, w);
    }
    ClaimOfRound(d, f, c, m, m, w);
  }

  lemma StepsHold(d: Dirs, f: string, c: string, m: nat, w: Setup)
    requires Stem(f) + ".md" == f && d.failedIsDir
    requires AlwaysFails(w) && w.shutdownFrom.None? && w.maxRetries == m >= 1
    ensures forall i :: 0 <= i < m ==>
      StepOf(w)(StatesOf(d, f, c, m, w)(i).(tasks := HeldOf(f, c, m, w)(i)), AttemptOf(f, c, w)(i), i)
      == Failed(StatesOf(d, f, c, m, w)(i + 1), false)
  {
    forall i | 0 <= i < m
      ensures StepOf(w)(StatesOf(d, f, c, m, w)(i).(tasks := HeldOf(f, c, m, w)(i)), AttemptOf(f, c, w)(i), i)
        == Failed(StatesOf(d, f, c, m, w)(i + 1), false)
    {
      StepOfRound(d, f, c, m, i, w);
    }
  }

  // ====================================================== the worker, in place

  /** Carries out `queue.release(task)` on the directories. */
  method Release(dirs: TaskDirs, task: Task, release: ReleaseOp)
    modifies dirs
    ensures dirs.State() == release(old(dirs.State()), task)
  {
    var d := release(dirs.State(), task);
    dirs.tasks, dirs.done, dirs.failed := d.tasks, d.done, d.failed;
    dirs.doneIsDir, dirs.failedIsDir := d.doneIsDir, d.failedIsDir;
  }

  /** The approvals the store held before, unchanged, minus possibly some. */
  ghost predicate StoreShrunk(oldItems: map<string, PendingApproval>, items: map<string, PendingApproval>) {
    forall k :: k in items ==> k in oldItems && items[k] == oldItems[k]
  }

  /** The user's reply to the approval `item`, given while the worker waits
      on it: `approve(id)` or `reject(id)` on the store reaches this very
      object, the one stored under its id. */
  method Answer(item: PendingApproval, reply: Reply)
    requires item.decision == Pending && !item.signalled
    modifies item
    ensures reply == NoReply ==> item.decision == Pending && !item.signalled
    ensures reply == ApproveReply ==> item.decision == Approved && item.signalled
    ensures reply == RejectReply ==> item.decision == Rejected && item.signalled
  {
    match reply {
      case ApproveReply => item.Approve();
      case RejectReply => item.Reject();
      case NoReply =>
    }
  }

  /** The approval part of `_execute_with_approval`: the plan is submitted
      under `id`, `reply` is applied while the worker waits, the wait's
      outcome and the decision are read, and the approval is removed. */
  method SubmitAndAwait(store: ApprovalStore, id: string, taskName: string, wid: string, planText: string,
                        reply: Reply)
    returns (approved: bool, decision: Decision)
    requires store.Valid()
    modifies store
    ensures store.Valid() && store.items == old(store.items) - {id}
    ensures approved <==> reply != NoReply
    ensures reply == ApproveReply ==> decision == Approved
    ensures reply == RejectReply ==> decision == Rejected
  {
    ghost var before := store.items;
    var approval := store.Submit(id, taskName, wid, planText);
    Answer(approval, reply);
    approved := approval.Wait();
    decision := approval.decision;
    store.Remove(id);
    UpdateThenRemove(before, id, approval);
  }

  lemma UpdateThenRemove<K, V>(m: map<K, V>, k: K, v: V)
    ensures m[k := v] - {k} == m - {k}
  {
  }

  /** `_execute_with_approval`: the plan is submitted under `env.approvalId`,
      the user's reply (if any) is applied while the worker waits, and the
      approval is removed again whatever the reply. */
  method ExecuteWithApproval(wid: string, prompt: string, timeout: int, taskName: string,
                             store: ApprovalStore, s: Settings, env: Env)
    returns (r: Run)
    requires store.Valid()
    modifies store
    ensures store.Valid()
    ensures r == WithApproval(prompt, timeout, s, env)
    ensures GeneratePlan(prompt, timeout, s, env.run).result.success
      ==> store.items == old(store.items) - {env.approvalId}
    ensures !GeneratePlan(prompt, timeout, s, env.run).result.success ==> store.items == old(store.items)
  {
    var plan := GeneratePlan(prompt, timeout, s, env.run);
    if !plan.result.success {
      return plan;
    }
    var planText := plan.result.output;
    var waitTimeout := RemainingTimeout(timeout, env.waitElapsed);
    var approved, decision := SubmitAndAwait(store, env.approvalId, taskName, wid, planText, env.reply(waitTimeout));
    if !approved {
      return Run(Failure("", WaitTimedOut, None), plan.calls);
    }
    if decision == Rejected {
      return Run(Failure("", PlanRejected, None), plan.calls);
    }
    var execTimeout := RemainingTimeout(timeout, env.execElapsed);
    var e := ExecutePlan(planText, execTimeout, s, env.run);
    r := Run(e.result, plan.calls + e.calls);
  }

  /** `_execute_task`: run the task's prompt in the configured mode, then
      release, complete or fail it. `k` is the round, which fixes what the
      world supplies and which reading of the shutdown flag is seen. */
  method ExecuteTask(queue: TaskQueue, task: Task, k: nat, w: Setup, store: ApprovalStore?)
    returns (raised: bool)
    requires w.hasStore <==> store != null
    requires w.maxRetries == queue.maxRetries
    requires store != null ==> store.Valid()
    modifies queue.dirs, store
    ensures store != null ==> store.Valid() && StoreShrunk(old(store.items), store.items)
    ensures Failed(queue.dirs.State(), raised) == ExecuteStep(old(queue.dirs.State()), task, k, w)
  {
    var env := w.env(k);
    var prompt := BuildPrompt(OfTask(task), w.extract);
    var mode := Dispatch(w.cfg.planMode, w.cfg.planAutoApprove, store != null);
    var r: Run;
    if mode == ApprovalFlow {
      r := ExecuteWithApproval(w.wid, prompt, w.cfg.timeout, task.name, store, w.cfg.settings, env);
    } else if mode == PlanFlow {
      r := RunPlan(prompt, w.cfg.timeout, env.waitElapsed, w.cfg.settings, env.run);
    } else {
      r := RunTask(prompt, w.cfg.timeout, w.cfg.settings, env.run);
    }
    assert r == Execution(mode, prompt, w.cfg, env);
    if ShutdownAt(w.shutdownFrom, 2 * k + 1) {
      Release(queue.dirs, task, w.release);
      raised := false;
    } else if r.result.success {
      queue.Complete(task, env.ts);
      raised := false;
    } else {
      raised := queue.Fail(task, r.result.error, env.ts, env.iso, env.writeOk);
    }
  }

  /** The whole run is the tasks executed so far followed by the rest. */
  predicate LoopSoFar(whole: Worked, executed: seq<Task>, rest: Worked) {
    whole == Worked(rest.dirs, executed + rest.executed, rest.end)
  }

  /** `step` does what a round of worker `w` does with a claimed task. The
      trigger keeps the concrete step out of proofs that only pass it on. */
  ghost predicate StepMatches(step: StepOp, w: Setup) {
    forall d: Dirs, t: Task, k: nat {:trigger ExecuteStep(d, t, k, w)} :: step(d, t, k) == ExecuteStep(d, t, k, w)
  }

  /** `claim` is `claim_next` for the worker `wid`, kept out of proofs the
      same way. */
  ghost predicate ClaimMatches(claim: ClaimOp, wid: string) {
    forall t {:trigger AfterClaim(t, wid)} :: claim(t) == AfterClaim(t, wid)
  }

  lemma OfMatch(w: Setup)
    ensures ClaimMatches(ClaimOf(w.wid), w.wid) && StepMatches(StepOf(w), w)
  {
    forall t
      ensures ClaimOf(w.wid)(t) == AfterClaim(t, w.wid)
    {
    }
    forall d: Dirs, t: Task, k: nat
      ensures StepOf(w)(d, t, k) == ExecuteStep(d, t, k, w)
    {
    }
  }

  /** `claim_next`, seen through `claim`. */
  method Claim(queue: TaskQueue, wid: string, ghost claim: ClaimOp) returns (task: Option<Task>)
    requires ClaimMatches(claim, wid)
    modifies queue.dirs
    ensures Claimed(queue.dirs.tasks, task) == claim(old(queue.dirs.tasks))
    ensures queue.dirs.State() == old(queue.dirs.State()).(tasks := queue.dirs.tasks)
  {
    task := queue.ClaimNext(wid);
  }

  /** `_execute_task`, seen through `step`. */
  method Step(queue: TaskQueue, task: Task, k: nat, w: Setup, store: ApprovalStore?, ghost step: StepOp)
    returns (raised: bool)
    requires w.hasStore <==> store != null
    requires w.maxRetries == queue.maxRetries
    requires store != null ==> store.Valid()
    requires StepMatches(step, w)
    modifies queue.dirs, store
    ensures store != null ==> store.Valid() && store.Records() <= old(store.Records())
    ensures Failed(queue.dirs.State(), raised) == step(old(queue.dirs.State()), task, k)
  {
    ghost var before := if store != null then store.items else map[];
    raised := ExecuteTask(queue, task, k, w, store);
    if store != null {
      assert StoreShrunk(before, store.items);
      assert store.Records() <= old(store.Records());
    }
  }

  /** One round of `worker_loop`, with `left` rounds still allowed: read the
      flag, claim, and execute what was claimed. `stop` is why the loop ends
      here, if it does; `cur` is the directories' state before the round and
      `cur'` after it. */
  method Round(queue: TaskQueue, k: nat, left: nat, w: Setup, store: ApprovalStore?,
               executed: seq<Task>, ghost claim: ClaimOp, ghost step: StepOp, ghost whole: Worked, ghost cur: Dirs)
    returns (executed': seq<Task>, stop: Option<LoopEnd>, ghost cur': Dirs)
    requires w.hasStore <==> store != null
    requires w.maxRetries == queue.maxRetries
    requires store != null ==> store.Valid()
    requires ClaimMatches(claim, w.wid) && StepMatches(step, w)
    requires cur == queue.dirs.State()
    requires LoopSoFar(whole, executed, Rounds(cur, k, left, ShutOf(w), claim, step))
    modifies queue.dirs, store
    ensures store != null ==> store.Valid() && store.Records() <= old(store.Records())
    ensures cur' == queue.dirs.State()
    ensures stop.Some? ==> whole == Worked(cur', executed', stop.value)
    ensures stop.None? ==> 0 < left && LoopSoFar(whole, executed', Rounds(cur', k + 1, left - 1, ShutOf(w), claim, step))
  {
    cur' := cur;
    if ShutdownAt(w.shutdownFrom, 2 * k) {
      return executed, Some(ShutdownSeen), cur';
    }
    if left == 0 {
      return executed, Some(OutOfFuel), cur';
    }
    RoundsOne(cur, k, left, ShutOf(w), claim, step);
    var task := Claim(queue, w.wid, claim);
    cur' := queue.dirs.State();
    if task.None? {
      return executed, Some(QueueEmpty), cur';
    }
    var raised := Step(queue, task.value, k, w, store, step);
    cur' := queue.dirs.State();
    executed' := executed + [task.value];
    if raised {
      return executed', Some(WriteRaised), cur';
    }
    stop := None;
  }

  /** The loop of `worker_loop`, for any `claim` and `step` that match the
      worker's. */
  method RunRounds(queue: TaskQueue, w: Setup, store: ApprovalStore?, fuel: nat, ghost claim: ClaimOp, ghost step: StepOp)
    returns (executed: seq<Task>, end: LoopEnd)
    requires w.hasStore <==> store != null
    requires w.maxRetries == queue.maxRetries
    requires store != null ==> store.Valid()
    requires ClaimMatches(claim, w.wid) && StepMatches(step, w)
    modifies queue.dirs, store
    ensures store != null ==> store.Valid()
    ensures Worked(queue.dirs.State(), executed, end) == Rounds(old(queue.dirs.State()), 0, fuel, ShutOf(w), claim, step)
  {
    ghost var cur := queue.dirs.State();
    ghost var whole := Rounds(cur, 0, fuel, ShutOf(w), claim, step);
    executed := [];
    var k: nat, left: nat := 0, fuel;
    assert executed + whole.executed == whole.executed;
    var stop: Option<LoopEnd> := None;
    while stop.None?
      invariant store != null ==> store.Valid() && store.Records() <= old(store.Records())
      invariant cur == queue.dirs.State()
      invariant stop.None? ==> LoopSoFar(whole, executed, Rounds(cur, k, left, ShutOf(w), claim, step))
      invariant stop.Some? ==> whole == Worked(cur, executed, stop.value)
      decreases if stop.None? then left + 1 else 0
    {
      executed, stop, cur := Round(queue, k, left, w, store, executed, claim, step, whole, cur);
      if stop.None? {
        k, left := k + 1, left - 1;
      }
    }
    end := stop.value;
  }

  /** `worker_loop`: claim and execute tasks until the queue yields none,
      the shutdown flag is seen, or `fail` raises; at most `fuel` rounds.
      Returns the tasks executed, in order, and why the loop stopped. */
  method WorkerLoop(queue: TaskQueue, w: Setup, store: ApprovalStore?, fuel: nat)
    returns (executed: seq<Task>, end: LoopEnd)
    requires w.hasStore <==> store != null
    requires w.maxRetries == queue.maxRetries
    requires store != null ==> store.Valid()
    modifies queue.dirs, store
    ensures store != null ==> store.Valid()
    ensures Worked(queue.dirs.State(), executed, end) == WorkerRun(old(queue.dirs.State()), 0, fuel, w)
  {
    OfMatch(w);
    executed, end := RunRounds(queue, w, store, fuel, ClaimOf(w.wid), StepOf(w));
  }
}
