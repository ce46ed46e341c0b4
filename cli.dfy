/**
 * The command line (`__main__.py`): the configuration `vibe run`
 * (`cmd_run`) hands to `run_loop` after applying its options, and the task
 * file `vibe add` (`cmd_add`) writes. Argument parsing, logging and
 * printing are not modelled; an option left out is `None`, `false` or, for
 * a text option (which the code tests for truthiness), the empty text.
 */
module Cli {
  import opened Wrappers
  import opened Strings
  import opened Tasks
  import opened Config
  import opened Numbering

  // ---------------------------------------------------------------- cmd_run

  /** The options of `vibe run` that `cmd_run` reads. */
  datatype RunArgs = RunArgs(
    workspace: string,
    workers: Option<int>,
    noWorktree: bool,
    planMode: bool,
    docker: bool,
    dockerImage: string)

  /** The fields no option of `vibe run` sets. */
  predicate Untouched(j: int) {
    j != WorkspaceAt && j != MaxWorkersAt && j != UseWorktreeAt && j != PlanModeAt
    && j != UseDockerAt && j != DockerImageAt && j != PlanAutoApproveAt
  }

  /** Two values of the same type. */
  predicate SameKind(v: Value, w: Value) {
    v.IntValue? == w.IntValue? && v.BoolValue? == w.BoolValue? && v.StrValue? == w.StrValue?
  }

  /** `d` has a value of the same type as `c` at every field, and the
      value of `c` at every field no option sets. */
  predicate Overrides(c: Config, d: Config) {
    && |d| == |c|
    && (forall j :: 0 <= j < |c| ==> SameKind(c[j], d[j]))
    && (forall j :: 0 <= j < |c| && Untouched(j) ==> d[j] == c[j])
  }

  /** Replacing values by values of the same type keeps a `Config` well
      formed. */
  lemma OverridesTyped(env: map<string, string>, text: Option<string>, d: Config)
    requires Overrides(Loaded(env, text), d)
    ensures WellTyped(d)
  {
    LoadedWellTyped(env, text);
  }

  /** One option assignment. */
  lemma OverrideStep(c: Config, d: Config, j: nat, v: Value)
    requires Overrides(c, d) && j < |d| && !Untouched(j) && SameKind(d[j], v)
    ensures Overrides(c, d[j := v])
  {
  }

  /** The option assignments of `cmd_run`, in order, on the configuration
      `load_config` returned: a given option replaces its field, the flags
      only ever switch `use_worktree` off and `plan_mode` and `use_docker`
      on, and `max_workers` takes the `--workers` value as it is, even
      below 1, since the range checks are not repeated. */
  method RunOverrides(c: Config, a: RunArgs) returns (config: Config)
    requires |c| == |Fields|
    requires c[MaxWorkersAt].IntValue? && c[WorkspaceAt].StrValue? && c[DockerImageAt].StrValue?
    requires c[UseWorktreeAt].BoolValue? && c[PlanModeAt].BoolValue? && c[UseDockerAt].BoolValue?
    ensures Overrides(c, config)
    ensures config[WorkspaceAt] == if a.workspace != "" then StrValue(a.workspace) else c[WorkspaceAt]
    ensures config[MaxWorkersAt] == if a.workers.Some? then IntValue(a.workers.value) else c[MaxWorkersAt]
    ensures config[UseWorktreeAt] == if a.noWorktree then BoolValue(false) else c[UseWorktreeAt]
    ensures config[PlanModeAt] == if a.planMode then BoolValue(true) else c[PlanModeAt]
    ensures config[UseDockerAt] == if a.docker then BoolValue(true) else c[UseDockerAt]
    ensures config[DockerImageAt] == if a.dockerImage != "" then StrValue(a.dockerImage) else c[DockerImageAt]
    ensures config[PlanAutoApproveAt] == c[PlanAutoApproveAt]
  {
    config := c;
    if a.workspace != "" {
      OverrideStep(c, config, WorkspaceAt, StrValue(a.workspace));
      config := config[WorkspaceAt := StrValue(a.workspace)];
    }
    if a.workers.Some? {
      OverrideStep(c, config, MaxWorkersAt, IntValue(a.workers.value));
      config := config[MaxWorkersAt := IntValue(a.workers.value)];
    }
    if a.noWorktree {
      OverrideStep(c, config, UseWorktreeAt, BoolValue(false));
      config := config[UseWorktreeAt := BoolValue(false)];
    }
    if a.planMode {
      OverrideStep(c, config, PlanModeAt, BoolValue(true));
      config := config[PlanModeAt := BoolValue(true)];
    }
    if a.docker {
      OverrideStep(c, config, UseDockerAt, BoolValue(true));
      config := config[UseDockerAt := BoolValue(true)];
    }
    if a.dockerImage != "" {
      OverrideStep(c, config, DockerImageAt, StrValue(a.dockerImage));
      config := config[DockerImageAt := StrValue(a.dockerImage)];
    }
  }

  /** `cmd_run` up to the call of `run_loop`: the configuration it runs
      with, read from the workspace's `.env` text `text` and the
      environment `env`, then overridden by the options. Plan mode forces
      `plan_auto_approve` on, because there is nobody to approve a plan on
      the command line, and otherwise keeps its loaded value; `timeout` and
      `max_retries` stay in range, and so does `max_workers` unless
      `--workers` gives a value below 1. */
  method CmdRun(env: map<string, string>, text: Option<string>, a: RunArgs) returns (config: Config)
    ensures WellTyped(config)
    ensures Overrides(Loaded(env, text), config)
    ensures config[MaxWorkersAt] == if a.workers.Some? then IntValue(a.workers.value) else Loaded(env, text)[MaxWorkersAt]
    ensures config[WorkspaceAt] == if a.workspace != "" then StrValue(a.workspace) else Loaded(env, text)[WorkspaceAt]
    ensures config[UseWorktreeAt] == if a.noWorktree then BoolValue(false) else Loaded(env, text)[UseWorktreeAt]
    ensures config[PlanModeAt] == if a.planMode then BoolValue(true) else Loaded(env, text)[PlanModeAt]
    ensures config[UseDockerAt] == if a.docker then BoolValue(true) else Loaded(env, text)[UseDockerAt]
    ensures config[DockerImageAt] == if a.dockerImage != "" then StrValue(a.dockerImage) else Loaded(env, text)[DockerImageAt]
    ensures config[PlanAutoApproveAt] == if config[PlanModeAt].b then BoolValue(true) else Loaded(env, text)[PlanAutoApproveAt]
    ensures config[TimeoutAt].i > 0 && config[MaxRetriesAt].i >= 0
    ensures a.workers.None? ==> config[MaxWorkersAt].i >= 1
  {
    var loaded := LoadConfig(env, text);
    LoadedInRange(env, text);
    config := RunOverrides(loaded, a);
    if config[PlanModeAt].b && !config[PlanAutoApproveAt].b {
      OverrideStep(loaded, config, PlanAutoApproveAt, BoolValue(true));
      config := config[PlanAutoApproveAt := BoolValue(true)];
    }
    OverridesTyped(env, text, config);
  }

  // ---------------------------------------------------------------- cmd_add

  /** `vibe add description`: the new file, named after one more than the
      largest number of a pending file (1 when there is none) and the slug
      of the description as given, holds the description and a newline. */
  method CmdAdd(d: TaskDirs, description: string) returns (filename: string)
    modifies d
    ensures filename == TaskFileName(NextNumber(old(d.tasks)), Slug(description))
    ensures d.State() == old(d.State()).(tasks := old(d.tasks)[filename := description + "\n"])
  {
    var existing := Sorted(MdFiles(d.tasks));
    var nextNum: nat;
    if existing != [] {
      var maxNum := ScanMaxNumber(existing);
      nextNum := maxNum + 1;
    } else {
      nextNum := 1;
    }
    var slug := Slug(description);
    filename := TaskFileName(nextNum, slug);
    d.tasks := d.tasks[filename := description + "\n"];
  }

  /** The file `vibe add` writes is new: no task file is overwritten, the
      file is pending, and it carries a number larger than that of every
      pending file. */
  lemma CmdAddName(tasks: map<string, string>, slug: string)
    ensures var name := TaskFileName(NextNumber(tasks), slug);
      && name !in tasks && IsMdName(name)
      && FileNumber(name) == Some(NextNumber(tasks) as int)
      && (forall f :: f in MdFiles(tasks) && FileNumber(f).Some? ==> FileNumber(f).value < NextNumber(tasks))
  {
    NewNameFresh(tasks, slug);
    TaskFileNameNumber(NextNumber(tasks), slug);
    NextNumberBounds(tasks);
  }

  /** The first task of a directory without pending files is `001_...`. */
  lemma FirstTaskName(tasks: map<string, string>, slug: string)
    requires MdFiles(tasks) == {}
    ensures TaskFileName(NextNumber(tasks), slug) == "001_" + slug + ".md"
  {
    NextNumberBounds(tasks);
    FirstPad();
  }

  /** `f"{1:03d}" == "001"`. */
  lemma FirstPad()
    ensures ZeroPad3(1) == "001"
  {
    assert NatToString(1) == "1";
  }
}
