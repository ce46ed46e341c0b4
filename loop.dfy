/*
  The scheduler of `vibe` (`run_loop`, `_run_with_worktrees`, `_run_shared`):
  which topology runs the workers, and in what order the git actions around
  them happen. The git calls and the worker runs are not executed here: each
  is recorded as an event in the scheduler's trace, and the outcome of
  `create_worktree` for each worker id is a parameter. Workers that the
  source runs on a thread pool are recorded in submission order.
*/
module Loop {
  import opened Wrappers
  import opened Strings
  import opened Tasks

  /** The calls `run_loop` makes, in the order it makes them. */
  datatype Event =
    | CleanupStale                                          // cleanup_stale_worktrees(workspace)
    | Create(wid: string)                                   // create_worktree(workspace, wid)
    | Remove(path: string)                                  // remove_worktree(workspace, path)
    | Merge(path: string, message: string)                  // commit_and_merge(workspace, path, message)
    | RunWorker(wid: string, dir: Option<string>, withStore: bool)  // worker_loop(wid, ..., dir, approval_store)

  /** The two configuration fields the scheduler reads. */
  datatype Settings = Settings(maxWorkers: int, useWorktree: bool)

  /** `create_worktree(workspace, f"w{i}")` for worker `i`: the new
      worktree's path, or `None` when it raises `RuntimeError`. */
  type Creator = nat -> Option<string>

  /** Whether `worker_loop` of worker `i` ends by raising (a failed write in
      `fail`, for one). The pool lets every worker finish; `f.result()` then
      re-raises, and `run_loop` ends there. */
  type Raiser = nat -> bool

  /** Some worker among `w0 .. w(n-1)` raises. */
  predicate AnyRaised(raises: Raiser, n: nat) {
    exists i :: 0 <= i < n && raises(i)
  }

  /** One more worker seen. */
  lemma AnyRaisedStep(raises: Raiser, i: nat)
    ensures AnyRaised(raises, i + 1) == (AnyRaised(raises, i) || raises(i))
  {
    if AnyRaised(raises, i + 1) && !raises(i) {
      var j :| 0 <= j < i + 1 && raises(j);
    }
  }

  // ------------------------------------------------------------ worker ids

  /** `f"w{i}"`. */
  function Wid(i: nat): string {
    "w" + NatToString(i)
  }

  /** Different indices give different worker ids. */
  lemma WidInjective(i: nat, j: nat)
    requires Wid(i) == Wid(j)
    ensures i == j
  {
    assert Wid(i)[1..] == NatToString(i) && Wid(j)[1..] == NatToString(j);
    DigitsValueOfNat(i);
    DigitsValueOfNat(j);
  }

  /** `f"vibe: {wid} 任务完成"`. */
  function MergeMessage(wid: string): string {
    "vibe: " + wid + " 任务完成"
  }

  /** `use_wt`: several workers, worktrees wanted, and a git workspace. */
  predicate UseWorktrees(s: Settings, isGit: bool) {
    s.maxWorkers > 1 && s.useWorktree && isGit
  }

  // ------------------------------------------------------ the traces, as values

  /** The workers of `_run_shared`, submitted in index order, none with a
      worktree. */
  function SharedRuns(n: nat, withStore: bool): (r: seq<Event>)
    ensures |r| == n
    ensures forall i :: 0 <= i < n ==> r[i] == RunWorker(Wid(i), None, withStore)
  {
    if n == 0 then [] else SharedRuns(n - 1, withStore) + [RunWorker(Wid(n - 1), None, withStore)]
  }

  /** The first index in `[i, n)` whose worktree cannot be created, or `n`. */
  function FirstFailure(create: Creator, i: nat, n: nat): (k: nat)
    requires i <= n
    ensures i <= k <= n
    ensures forall j :: i <= j < k ==> create(j).Some?
    ensures k < n ==> create(k).None?
    decreases n - i
  {
    if i == n || create(i).None? then i else FirstFailure(create, i + 1, n)
  }

  /** A failure at `i`, with none before it, is the first failure. */
  lemma FailureAt(create: Creator, i: nat, n: nat)
    requires i < n && i <= FirstFailure(create, 0, n) && create(i).None?
    ensures FirstFailure(create, 0, n) == i
  {
  }

  /** A success at `i`, with none failed before it, moves the first failure past `i`. */
  lemma PastSuccess(create: Creator, i: nat, n: nat)
    requires i < n && i <= FirstFailure(create, 0, n) && create(i).Some?
    ensures i + 1 <= FirstFailure(create, 0, n)
  {
  }

  /** The creation attempts for the workers `0 .. k - 1`. */
  function Attempts(k: nat): (r: seq<Event>)
    ensures |r| == k
  {
    if k == 0 then [] else Attempts(k - 1) + [Create(Wid(k - 1))]
  }

  /** The `worktrees` dict after the first `k` creations, in insertion order. */
  function Worktrees(create: Creator, k: nat): (r: seq<(string, string)>)
    requires forall j :: 0 <= j < k ==> create(j).Some?
    ensures |r| == k
  {
    if k == 0 then [] else Worktrees(create, k - 1) + [(Wid(k - 1), create(k - 1).value)]
  }

  /** The cleanup after a failed creation: each created worktree removed. */
  function Removals(wts: seq<(string, string)>): (r: seq<Event>)
    ensures |r| == |wts|
    ensures forall j :: 0 <= j < |wts| ==> r[j] == Remove(wts[j].1)
  {
    if wts == [] then [] else Removals(wts[..|wts| - 1]) + [Remove(wts[|wts| - 1].1)]
  }

  /** One worker per worktree, each in its own directory. */
  function WorktreeRuns(wts: seq<(string, string)>, withStore: bool): (r: seq<Event>)
    ensures |r| == |wts|
    ensures forall j :: 0 <= j < |wts| ==> r[j] == RunWorker(wts[j].0, Some(wts[j].1), withStore)
  {
    if wts == [] then []
    else WorktreeRuns(wts[..|wts| - 1], withStore) + [RunWorker(wts[|wts| - 1].0, Some(wts[|wts| - 1].1), withStore)]
  }

  /** After the workers: each worktree merged, then removed. */
  function MergeBack(wts: seq<(string, string)>): (r: seq<Event>)
    ensures |r| == 2 * |wts|
  {
    if wts == [] then []
    else
      var p := wts[..|wts| - 1];
      var w := wts[|wts| - 1];
      MergeBack(p) + [Merge(w.1, MergeMessage(w.0)), Remove(w.1)]
  }

  /** The `j`-th attempt is for worker `j`. */
  lemma {:induction false} AttemptsAt(k: nat, j: nat)
    requires j < k
    ensures |Attempts(k)| == k && Attempts(k)[j] == Create(Wid(j))
  {
    if j < k - 1 {
      AttemptsAt(k - 1, j);
    }
  }

  /** The `j`-th created worktree belongs to worker `j`, at the path its
      creation returned. */
  lemma {:induction false} WorktreesAt(create: Creator, k: nat, j: nat)
    requires forall i :: 0 <= i < k ==> create(i).Some?
    requires j < k
    ensures |Worktrees(create, k)| == k && Worktrees(create, k)[j] == (Wid(j), create(j).value)
  {
    if j < k - 1 {
      WorktreesAt(create, k - 1, j);
    }
  }

  /** Worktree `j` is merged at position `2 * j` and removed right after. */
  lemma {:induction false} MergeBackAt(wts: seq<(string, string)>, j: nat)
    requires j < |wts|
    ensures |MergeBack(wts)| == 2 * |wts|
    ensures MergeBack(wts)[2 * j] == Merge(wts[j].1, MergeMessage(wts[j].0))
    ensures MergeBack(wts)[2 * j + 1] == Remove(wts[j].1)
  {
    var p := wts[..|wts| - 1];
    if j < |wts| - 1 {
      MergeBackAt(p, j);
      assert p[j] == wts[j];
    }
  }

  /** `_run_with_worktrees` for `n` workers. A worker that raises makes
      `f.result()` raise, so the merge-back loop never starts and every
      worktree stays behind. */
  function WorktreeTrace(n: nat, create: Creator, raises: Raiser, withStore: bool): seq<Event> {
    var k := FirstFailure(create, 0, n);
    var wts := Worktrees(create, k);
    if k < n then Attempts(k + 1) + Removals(wts) + SharedRuns(n, false)
    else if AnyRaised(raises, n) then Attempts(n) + WorktreeRuns(wts, withStore)
    else Attempts(n) + WorktreeRuns(wts, withStore) + MergeBack(wts)
  }

  /** `run_loop`; `tasks` is the task directory, whose `*.md` files decide
      whether any worker starts. */
  function LoopTrace(s: Settings, tasks: map<string, string>, isGit: bool, withStore: bool, create: Creator,
                     raises: Raiser): seq<Event>
    requires s.maxWorkers >= 1
  {
    if MdFiles(tasks) == {} then []
    else if s.maxWorkers == 1 then [RunWorker(Wid(0), None, withStore)]
    else if UseWorktrees(s, isGit) then [CleanupStale] + WorktreeTrace(s.maxWorkers, create, raises, withStore)
    else SharedRuns(s.maxWorkers, withStore)
  }

  /** The trace of `_run_with_worktrees` when the creation at `k` fails. */
  lemma WorktreeTraceFailed(n: nat, create: Creator, raises: Raiser, withStore: bool)
    requires FirstFailure(create, 0, n) < n
    ensures var k := FirstFailure(create, 0, n);
      WorktreeTrace(n, create, raises, withStore) == Attempts(k + 1) + Removals(Worktrees(create, k)) + SharedRuns(n, false)
  {
  }

  /** The trace of `_run_with_worktrees` when every creation succeeds and
      no worker raises. */
  lemma WorktreeTraceCreated(n: nat, create: Creator, raises: Raiser, withStore: bool)
    requires FirstFailure(create, 0, n) == n && !AnyRaised(raises, n)
    ensures WorktreeTrace(n, create, raises, withStore)
      == Attempts(n) + WorktreeRuns(Worktrees(create, n), withStore) + MergeBack(Worktrees(create, n))
  {
  }

  /** The trace of `_run_with_worktrees` when every creation succeeds and
      some worker raises. */
  lemma WorktreeTraceRaised(n: nat, create: Creator, raises: Raiser, withStore: bool)
    requires FirstFailure(create, 0, n) == n && AnyRaised(raises, n)
    ensures WorktreeTrace(n, create, raises, withStore)
      == Attempts(n) + WorktreeRuns(Worktrees(create, n), withStore)
  {
  }


  // ------------------------------------------------------ properties of the traces

  /** `f"w{0}"` is `"w0"`. */
  lemma FirstWid()
    ensures Wid(0) == "w0"
  {
    assert NatToString(0) == "0";
  }

  /** An empty queue starts no worker and makes no git call; one worker
      runs inline as "w0"; without worktrees the workers share the
      workspace and keep the approval store. */
  lemma LoopModes(s: Settings, tasks: map<string, string>, isGit: bool, withStore: bool, create: Creator,
                  raises: Raiser)
    requires s.maxWorkers >= 1
    ensures var t := LoopTrace(s, tasks, isGit, withStore, create, raises);
      && (t == [] <==> MdFiles(tasks) == {})
      && (MdFiles(tasks) != {} && s.maxWorkers == 1 ==> t == [RunWorker("w0", None, withStore)])
      && (MdFiles(tasks) != {} && s.maxWorkers > 1 && !UseWorktrees(s, isGit) ==>
            t == SharedRuns(s.maxWorkers, withStore))
  {
    FirstWid();
    if MdFiles(tasks) != {} && s.maxWorkers > 1 && !UseWorktrees(s, isGit) {
      assert |SharedRuns(s.maxWorkers, withStore)| == s.maxWorkers;
    }
  }

  /** `cleanup_stale_worktrees` is called exactly when there is work and
      worktree mode is on. */
  lemma {:induction false} CleanupIff(s: Settings, tasks: map<string, string>, isGit: bool, withStore: bool,
                                      create: Creator, raises: Raiser)
    requires s.maxWorkers >= 1
    ensures CleanupStale in LoopTrace(s, tasks, isGit, withStore, create, raises)
      <==> MdFiles(tasks) != {} && UseWorktrees(s, isGit)
  {
    var n := s.maxWorkers;
    if MdFiles(tasks) != {} && n > 1 && !UseWorktrees(s, isGit) {
      assert forall i :: 0 <= i < n ==> !SharedRuns(n, withStore)[i].CleanupStale?;
    }
  }

  /** Shared mode starts `n` workers, with the ids `w0 .. w(n-1)`, all
      different. */
  lemma {:induction false} SharedIds(n: nat, withStore: bool)
    ensures |SharedRuns(n, withStore)| == n
    ensures forall i :: 0 <= i < n ==> SharedRuns(n, withStore)[i].wid == Wid(i)
    ensures forall i, j :: 0 <= i < n && 0 <= j < n && i != j ==>
      SharedRuns(n, withStore)[i].wid != SharedRuns(n, withStore)[j].wid
  {
    forall i, j | 0 <= i < n && 0 <= j < n && i != j
      ensures SharedRuns(n, withStore)[i].wid != SharedRuns(n, withStore)[j].wid
    {
      if Wid(i) == Wid(j) {
        WidInjective(i, j);
      }
    }
  }

  /** When creating the worktree of worker `k` fails: the attempts for
      `w0 .. wk`, then the removal of every worktree created before, in
      creation order, then `n` shared workers without the approval store,
      and no merge. */
  lemma {:induction false} FallbackTrace(n: nat, create: Creator, raises: Raiser, withStore: bool)
    requires FirstFailure(create, 0, n) < n
    ensures var k := FirstFailure(create, 0, n);
      var t := WorktreeTrace(n, create, raises, withStore);
      && |t| == 2 * k + 1 + n
      && (forall j :: 0 <= j <= k ==> t[j] == Create(Wid(j)))
      && (forall j :: 0 <= j < k ==> t[k + 1..][j] == Remove(create(j).value))
      && (forall i :: 0 <= i < n ==> t[2 * k + 1..][i] == RunWorker(Wid(i), None, false))
      && (forall i :: 0 <= i < |t| ==> !t[i].Merge?)
  {
    var k := FirstFailure(create, 0, n);
    var a := Attempts(k + 1);
    var wts := Worktrees(create, k);
    var rm := Removals(wts);
    var sh := SharedRuns(n, false);
    WorktreeTraceFailed(n, create, raises, withStore);
    AttemptsAll(k + 1);
    RemovalsOfCreated(create, k);
    FallbackShape(WorktreeTrace(n, create, raises, withStore), a, rm, sh, k, n, create);
  }

  lemma FallbackShape(t: seq<Event>, a: seq<Event>, rm: seq<Event>, sh: seq<Event>, k: nat, n: nat, create: Creator)
    requires t == a + rm + sh
    requires |a| == k + 1 && |rm| == k && |sh| == n
    requires forall j :: 0 <= j <= k ==> a[j] == Create(Wid(j))
    requires forall j :: 0 <= j < k ==> create(j).Some? && rm[j] == Remove(create(j).value)
    requires forall i :: 0 <= i < n ==> sh[i] == RunWorker(Wid(i), None, false)
    ensures |t| == 2 * k + 1 + n
      && (forall j :: 0 <= j <= k ==> t[j] == Create(Wid(j)))
      && (forall j :: 0 <= j < k ==> t[k + 1..][j] == Remove(create(j).value))
      && (forall i :: 0 <= i < n ==> t[2 * k + 1..][i] == RunWorker(Wid(i), None, false))
      && (forall i :: 0 <= i < |t| ==> !t[i].Merge?)
  {
    assert t[k + 1..] == rm + sh;
    assert t[2 * k + 1..] == sh;
    forall i | 0 <= i < |t| ensures !t[i].Merge? {
      if i <= k {
        assert t[i] == a[i];
      } else if i < 2 * k + 1 {
        assert t[i] == rm[i - (k + 1)];
      } else {
        assert t[i] == sh[i - (2 * k + 1)];
      }
    }
  }

  /** When every worktree is created and no worker raises: the attempts for
      `w0 .. w(n-1)`, then one worker per worktree, in its own directory,
      then for each worktree in creation order one merge followed by one
      removal. */
  lemma {:induction false} MergeBackTrace(n: nat, create: Creator, raises: Raiser, withStore: bool)
    requires FirstFailure(create, 0, n) == n && !AnyRaised(raises, n)
    ensures var t := WorktreeTrace(n, create, raises, withStore);
      && |t| == 4 * n
      && (forall j :: 0 <= j < n ==> t[j] == Create(Wid(j)))
      && (forall j :: 0 <= j < n ==> t[n..][j] == RunWorker(Wid(j), Some(create(j).value), withStore))
      && (forall j :: 0 <= j < n ==>
            t[2 * n..][2 * j] == Merge(create(j).value, MergeMessage(Wid(j)))
            && t[2 * n..][2 * j + 1] == Remove(create(j).value))
  {
    var a := Attempts(n);
    var wts := Worktrees(create, n);
    var ru := WorktreeRuns(wts, withStore);
    var mb := MergeBack(wts);
    var t := WorktreeTrace(n, create, raises, withStore);
    WorktreeTraceCreated(n, create, raises, withStore);
    assert t == a + ru + mb;
    assert t[n..] == ru + mb;
    assert t[2 * n..] == mb;
    forall j | 0 <= j < n
      ensures t[j] == Create(Wid(j))
      ensures t[n..][j] == RunWorker(Wid(j), Some(create(j).value), withStore)
      ensures t[2 * n..][2 * j] == Merge(create(j).value, MergeMessage(Wid(j)))
      ensures t[2 * n..][2 * j + 1] == Remove(create(j).value)
    {
      AttemptsAt(n, j);
      WorktreesAt(create, n, j);
      MergeBackAt(wts, j);
    }
  }

  /** When every worktree is created but some worker raises: the attempts
      and one worker per worktree, and then nothing: no worktree is merged
      and none is removed. */
  lemma {:induction false} RaisedTrace(n: nat, create: Creator, raises: Raiser, withStore: bool)
    requires FirstFailure(create, 0, n) == n && AnyRaised(raises, n)
    ensures var t := WorktreeTrace(n, create, raises, withStore);
      && |t| == 2 * n
      && (forall j :: 0 <= j < n ==> t[j] == Create(Wid(j)))
      && (forall j :: 0 <= j < n ==> t[n..][j] == RunWorker(Wid(j), Some(create(j).value), withStore))
      && (forall i :: 0 <= i < |t| ==> !t[i].Merge? && !t[i].Remove?)
  {
    var a := Attempts(n);
    var wts := Worktrees(create, n);
    var ru := WorktreeRuns(wts, withStore);
    var t := WorktreeTrace(n, create, raises, withStore);
    WorktreeTraceRaised(n, create, raises, withStore);
    assert t == a + ru;
    assert t[n..] == ru;
    forall j | 0 <= j < n
      ensures t[j] == Create(Wid(j))
      ensures t[n..][j] == RunWorker(Wid(j), Some(create(j).value), withStore)
    {
      AttemptsAt(n, j);
      WorktreesAt(create, n, j);
    }
    forall i | 0 <= i < |t| ensures !t[i].Merge? && !t[i].Remove? {
      if i < n {
        AttemptsAt(n, i);
        assert t[i] == a[i];
      } else {
        assert t[i] == ru[i - n];
      }
    }
  }

  /** Element `j` of part `p` (0, 1 or 2) of `a + b + c`. */
  lemma PartAt<T>(a: seq<T>, b: seq<T>, c: seq<T>, j: nat, p: nat)
    requires p == 0 ==> j < |a|
    requires p == 1 ==> j < |b|
    requires p == 2 ==> j < |c|
    requires p <= 2
    ensures p == 0 ==> (a + b + c)[j] == a[j]
    ensures p == 1 ==> (a + b + c)[|a| + j] == b[j]
    ensures p == 2 ==> (a + b + c)[|a| + |b| + j] == c[j]
  {
  }

  /** Where the parts of `a + b + c` sit. */
  lemma Concat3At<T>(a: seq<T>, b: seq<T>, c: seq<T>)
    ensures |a + b + c| == |a| + |b| + |c|
    ensures forall i :: 0 <= i < |a| ==> (a + b + c)[i] == a[i]
    ensures forall j :: 0 <= j < |b| ==> (a + b + c)[|a| + j] == b[j]
    ensures forall j :: 0 <= j < |c| ==> (a + b + c)[|a| + |b| + j] == c[j]
  {
  }

  /** Attempt `j` is for worker `j`, for every `j`. */
  lemma AttemptsAll(k: nat)
    ensures forall j :: 0 <= j < k ==> Attempts(k)[j] == Create(Wid(j))
  {
    forall j | 0 <= j < k ensures Attempts(k)[j] == Create(Wid(j)) {
      AttemptsAt(k, j);
    }
  }

  /** The cleanup removes the created paths, in creation order. */
  lemma RemovalsOfCreated(create: Creator, k: nat)
    requires forall i :: 0 <= i < k ==> create(i).Some?
    ensures forall j :: 0 <= j < k ==> Removals(Worktrees(create, k))[j] == Remove(create(j).value)
  {
    forall j | 0 <= j < k ensures Removals(Worktrees(create, k))[j] == Remove(create(j).value) {
      WorktreesAt(create, k, j);
    }
  }

  /** Every attempt is a creation. */
  lemma AttemptsOnlyCreate(k: nat)
    ensures forall i :: 0 <= i < |Attempts(k)| ==> Attempts(k)[i].Create?
  {
    forall i | 0 <= i < |Attempts(k)| ensures Attempts(k)[i].Create? {
      AttemptsAt(k, i);
    }
  }

  lemma Concat4<T>(o: seq<T>, a: seq<T>, b: seq<T>, c: seq<T>)
    ensures o + a + b + c == o + (a + b + c)
  {
  }

  lemma ConcatAssoc<T>(a: seq<T>, b: seq<T>, c: seq<T>)
    ensures a + b + c == a + (b + c)
  {
  }

  // ------------------------------------------------------------ the scheduler

  /** The scheduler: its trace is every git call and worker run so far. */
  class Scheduler {
    var trace: seq<Event>

    constructor ()
      ensures trace == []
    {
      trace := [];
    }

    /** `run_loop(config, approval_store)`. `load_config` clamps
        `max_workers` to at least 1, and the thread pool refuses fewer.
        `raised` tells whether `run_loop` ends by re-raising a worker's
        exception. */
    method RunLoop(s: Settings, tasks: map<string, string>, isGit: bool, withStore: bool, create: Creator,
                   raises: Raiser) returns (raised: bool)
      requires s.maxWorkers >= 1
      modifies this
      ensures trace == old(trace) + LoopTrace(s, tasks, isGit, withStore, create, raises)
      ensures raised <==> MdFiles(tasks) != {} && AnyRaised(raises, s.maxWorkers)
    {
      var pending := MdFiles(tasks);
      if pending == {} {
        return false;
      }
      var useWt := s.maxWorkers > 1 && s.useWorktree && isGit;
      if useWt {
        trace := trace + [CleanupStale];
      }
      if s.maxWorkers == 1 {
        trace := trace + [RunWorker(Wid(0), None, withStore)];
        raised := raises(0);
        AnyRaisedStep(raises, 0);
      } else if useWt {
        raised := RunWithWorktrees(s.maxWorkers, create, raises, withStore);
        ConcatAssoc(old(trace), [CleanupStale], WorktreeTrace(s.maxWorkers, create, raises, withStore));
      } else {
        raised := RunShared(s.maxWorkers, raises, withStore);
      }
    }

    /** `_run_with_worktrees`: create one worktree per worker; on the first
        failure remove the ones created and run shared, without the store;
        otherwise run a worker in each, then, unless one of them raised,
        merge and remove each. */
    method RunWithWorktrees(n: nat, create: Creator, raises: Raiser, withStore: bool) returns (raised: bool)
      modifies this
      ensures trace == old(trace) + WorktreeTrace(n, create, raises, withStore)
      ensures raised == AnyRaised(raises, n)
    {
      var worktrees, created := CreateAll(n, create);
      ghost var attempts := trace;
      if !created {
        CleanUp(worktrees);
        ghost var removed := trace;
        raised := RunShared(n, raises, false);
        ghost var k := FirstFailure(create, 0, n);
        ghost var a := Attempts(k + 1);
        ghost var rm := Removals(worktrees);
        ghost var sh := SharedRuns(n, false);
        assert attempts == old(trace) + a;
        assert removed == attempts + rm;
        assert trace == removed + sh;
        WorktreeTraceFailed(n, create, raises, withStore);
        assert WorktreeTrace(n, create, raises, withStore) == a + rm + sh;
        Concat4(old(trace), a, rm, sh);
        return;
      }
      raised := StartAll(worktrees, raises, withStore);
      ghost var started := trace;
      ghost var a := Attempts(n);
      ghost var ru := WorktreeRuns(worktrees, withStore);
      assert attempts == old(trace) + a;
      assert started == attempts + ru;
      if raised {
        WorktreeTraceRaised(n, create, raises, withStore);
        return;
      }
      MergeAll(worktrees);
      ghost var mb := MergeBack(worktrees);
      assert trace == started + mb;
      WorktreeTraceCreated(n, create, raises, withStore);
      assert WorktreeTrace(n, create, raises, withStore) == a + ru + mb;
      Concat4(old(trace), a, ru, mb);
    }

    /** The creation loop of `_run_with_worktrees`, up to the first failure;
        `created` tells whether every worker got its worktree. */
    method CreateAll(n: nat, create: Creator) returns (worktrees: seq<(string, string)>, created: bool)
      modifies this
      ensures var k := FirstFailure(create, 0, n);
        && created == (k == n)
        && worktrees == Worktrees(create, k)
        && trace == old(trace) + Attempts(if created then n else k + 1)
    {
      worktrees := [];
      var i := 0;
      while i < n
        invariant i <= FirstFailure(create, 0, n)
        invariant worktrees == Worktrees(create, i)
        invariant trace == old(trace) + Attempts(i)
      {
        var wid := Wid(i);
        trace := trace + [Create(wid)];
        var made := create(i);
        if made.None? {
          FailureAt(create, i, n);
          return worktrees, false;
        }
        PastSuccess(create, i, n);
        assert Attempts(i + 1) == Attempts(i) + [Create(wid)];
        assert Worktrees(create, i + 1) == Worktrees(create, i) + [(wid, made.value)];
        worktrees := worktrees + [(wid, made.value)];
        i := i + 1;
      }
      created := true;
    }

    /** The cleanup loop after a failed creation. */
    method CleanUp(wts: seq<(string, string)>)
      modifies this
      ensures trace == old(trace) + Removals(wts)
    {
      var j := 0;
      while j < |wts|
        invariant j <= |wts|
        invariant trace == old(trace) + Removals(wts[..j])
      {
        assert wts[..j + 1][..j] == wts[..j];
        trace := trace + [Remove(wts[j].1)];
        j := j + 1;
      }
      assert wts[..|wts|] == wts;
    }

    /** The submissions to the pool, one worker per worktree; `raised`
        tells whether `f.result()` re-raises for one of them. Worktree `j`
        belongs to worker `j`. */
    method StartAll(wts: seq<(string, string)>, raises: Raiser, withStore: bool) returns (raised: bool)
      modifies this
      ensures trace == old(trace) + WorktreeRuns(wts, withStore)
      ensures raised == AnyRaised(raises, |wts|)
    {
      raised := false;
      var j := 0;
      while j < |wts|
        invariant j <= |wts|
        invariant trace == old(trace) + WorktreeRuns(wts[..j], withStore)
        invariant raised == AnyRaised(raises, j)
      {
        assert wts[..j + 1][..j] == wts[..j];
        trace := trace + [RunWorker(wts[j].0, Some(wts[j].1), withStore)];
        AnyRaisedStep(raises, j);
        raised := raised || raises(j);
        j := j + 1;
      }
      assert wts[..|wts|] == wts;
    }

    /** The merge-back loop: merge, then remove, each worktree in turn. */
    method MergeAll(wts: seq<(string, string)>)
      modifies this
      ensures trace == old(trace) + MergeBack(wts)
    {
      var j := 0;
      while j < |wts|
        invariant j <= |wts|
        invariant trace == old(trace) + MergeBack(wts[..j])
      {
        assert wts[..j + 1][..j] == wts[..j];
        assert MergeBack(wts[..j + 1]) == MergeBack(wts[..j]) + [Merge(wts[j].1, MergeMessage(wts[j].0)), Remove(wts[j].1)];
        trace := trace + [Merge(wts[j].1, MergeMessage(wts[j].0)), Remove(wts[j].1)];
        j := j + 1;
      }
      assert wts[..|wts|] == wts;
    }

    /** `_run_shared`: one worker per index, in the same directory;
        `raised` tells whether `f.result()` re-raises for one of them. */
    method RunShared(n: nat, raises: Raiser, withStore: bool) returns (raised: bool)
      modifies this
      ensures trace == old(trace) + SharedRuns(n, withStore)
      ensures raised == AnyRaised(raises, n)
    {
      raised := false;
      var i := 0;
      while i < n
        invariant i <= n
        invariant trace == old(trace) + SharedRuns(i, withStore)
        invariant raised == AnyRaised(raises, i)
      {
        trace := trace + [RunWorker(Wid(i), None, withStore)];
        AnyRaisedStep(raises, i);
        raised := raised || raises(i);
        i := i + 1;
      }
    }
  }
}
