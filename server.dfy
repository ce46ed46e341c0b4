/**
 * The task logic of the dashboard (`server.py`): how `GET /api/tasks`
 * (`_scan_tasks`) turns file names into task entries, how
 * `POST /api/tasks` (`add_task`) names and writes a new task, and which file
 * `DELETE /api/tasks/{name}` (`delete_task`) removes. The directories are
 * the `Tasks.TaskDirs` state; HTTP, JSON and the lock are not modelled.
 */
module Server {
  import opened Wrappers
  import opened Strings
  import opened Tasks
  import opened Numbering

  // ------------------------------------------------------------ _scan_tasks

  /** One entry of the task list: its `name`, `status` (`"pending"`,
      `"running"`, `"done"` or `"failed"`), `worker` (running entries only)
      and `file`. */
  datatype Entry = Entry(name: string, status: string, worker: Option<string>, file: string)

  /** The entry of a pending file. */
  function PendingEntry(f: string): Entry {
    Entry(Stem(f), "pending", None, f)
  }

  /** The entry of a running file: the worker is the text between the first
      and the second `.running.` (or the end), the name the text before the
      first with every `.md` removed. */
  function RunningEntry(f: string): Entry {
    var worker := match AfterFirst(f, RunningTag) case None => "?" case Some(rest) => BeforeFirst(rest, RunningTag);
    Entry(ReplaceAll(BeforeFirst(f, RunningTag), ".md", ""), "running", Some(worker), f)
  }

  /** The entry of a file in `done/` or `failed/`: its stem without the
      timestamp prefix. */
  function ArchivedEntry(f: string, status: string): Entry {
    Entry(StripTimestampPrefix(Stem(f)), status, None, f)
  }

  /** The pending entries for the sorted `*.md` names of `tasks/`: those
      without `.running.` in them. */
  function PendingEntries(names: seq<string>): seq<Entry> {
    if names == [] then []
    else
      var last := names[|names| - 1];
      PendingEntries(names[..|names| - 1]) + (if Contains(last, RunningTag) then [] else [PendingEntry(last)])
  }

  function RunningEntries(names: seq<string>): seq<Entry> {
    if names == [] then []
    else RunningEntries(names[..|names| - 1]) + [RunningEntry(names[|names| - 1])]
  }

  function ArchivedEntries(names: seq<string>, status: string): seq<Entry> {
    if names == [] then []
    else ArchivedEntries(names[..|names| - 1], status) + [ArchivedEntry(names[|names| - 1], status)]
  }

  /** The entries for an archive directory, none when it does not exist. */
  function ArchiveListing(isDir: bool, files: map<string, string>, status: string): seq<Entry> {
    if isDir then ArchivedEntries(Sorted(MdFiles(files)), status) else []
  }

  /** `_scan_tasks()`: pending, then running, then done, then failed
      entries, each group in name order. */
  function Listing(d: Dirs): seq<Entry> {
    PendingEntries(Sorted(MdFiles(d.tasks)))
    + RunningEntries(Sorted(RunningFiles(d.tasks)))
    + ArchiveListing(d.doneIsDir, d.done, "done")
    + ArchiveListing(d.failedIsDir, d.failed, "failed")
  }

  /** The pending entries are exactly the listed names without `.running.`,
      each named by its stem. */
  lemma {:induction false} PendingEntriesExact(names: seq<string>, f: string)
    ensures (exists e :: e in PendingEntries(names) && e.file == f) <==> f in names && !Contains(f, RunningTag)
    ensures forall e :: e in PendingEntries(names) ==> e == PendingEntry(e.file)
  {
    if names != [] {
      var p := names[..|names| - 1];
      var last := names[|names| - 1];
      var tail := if Contains(last, RunningTag) then [] else [PendingEntry(last)];
      assert names == p + [last];
      assert PendingEntries(names) == PendingEntries(p) + tail;
      PendingEntriesExact(p, f);
      if f in names && !Contains(f, RunningTag) {
        if f == last {
          assert PendingEntry(last) in PendingEntries(names);
        } else {
          assert f in p;
          var e :| e in PendingEntries(p) && e.file == f;
          assert e in PendingEntries(names);
        }
      }
    }
  }

  /** A file claimed by worker `wid` (`Tasks.RunningName`) is listed under
      its task name and the worker, when the name holds `.md` only as its
      suffix and neither part holds `.running.`. */
  lemma RunningEntryOfClaim(f: string, wid: string)
    requires IsMdName(f) && IndexOf(f, ".md") == Some(|f| - 3)
    requires !Contains(f, RunningTag) && !Contains(wid, RunningTag)
    ensures RunningEntry(RunningName(f, wid)) == Entry(f[..|f| - 3], "running", Some(wid), RunningName(f, wid))
  {
    var s := RunningName(f, wid);
    TagAfterName(f, wid);
    BeforeFirstOfJoin(f, RunningTag, wid);
    AfterFirstOfJoin(f, RunningTag, wid);
    BeforeFirstOfAbsent(wid, RunningTag);
    var stem := f[..|f| - 3];
    assert f == stem + ".md";
    forall j | 0 <= j < |stem| ensures !OccursAt(stem + ".md", ".md", j) {
      assert !OccursAt(f, ".md", j);
    }
    RemoveTrailing(stem, ".md");
  }

  /** `.running.` first occurs right after a pending name that does not
      hold it: the name ends in `d`, which `.running.` does not contain. */
  lemma TagAfterName(f: string, wid: string)
    requires IsMdName(f) && !Contains(f, RunningTag)
    ensures forall j :: 0 <= j < |f| ==> !OccursAt(f + RunningTag + wid, RunningTag, j)
  {
    var s := f + RunningTag + wid;
    forall j | 0 <= j < |f| ensures !OccursAt(s, RunningTag, j) {
      if j + |RunningTag| <= |f| {
        if OccursAt(s, RunningTag, j) {
          assert s[j..j + |RunningTag|] == f[j..j + |RunningTag|];
          ContainsAt(f, RunningTag, j);
        }
      } else {
        TagAcrossEnd(f, wid, j);
      }
    }
  }

  /** `.running.` cannot start in the last eight characters of a name that
      ends in `d`. */
  lemma TagAcrossEnd(f: string, wid: string, j: nat)
    requires IsMdName(f) && j < |f| < j + |RunningTag|
    ensures !OccursAt(f + RunningTag + wid, RunningTag, j)
  {
    var s := f + RunningTag + wid;
    var k := |f| - 1 - j;
    assert f[|f| - 3..][2] == 'd';
    assert s[|f| - 1] == 'd';
    assert RunningTag[k] != 'd';
  }

  /** The text before the first `sep` of a text without `sep` is the text. */
  lemma BeforeFirstOfAbsent(s: string, sep: string)
    requires !Contains(s, sep)
    ensures BeforeFirst(s, sep) == s
  {
  }

  /** An archived file is listed under the name it was archived for. */
  lemma ArchivedEntryOfArchive(ts: string, name: string, status: string)
    requires IsTimestamp(ts)
    ensures ArchivedEntry(ArchiveName(ts, name), status).name == name
  {
    ArchivedStem(ts, name);
  }

  /** One more pending name. */
  lemma PendingStep(tasks: seq<Entry>, names: seq<string>, i: nat)
    requires i < |names|
    ensures tasks + PendingEntries(names[..i + 1])
      == tasks + PendingEntries(names[..i]) + (if Contains(names[i], RunningTag) then [] else [PendingEntry(names[i])])
  {
    assert names[..i + 1][..i] == names[..i];
  }

  /** One more running name. */
  lemma RunningStep(tasks: seq<Entry>, names: seq<string>, i: nat)
    requires i < |names|
    ensures tasks + RunningEntries(names[..i + 1]) == tasks + RunningEntries(names[..i]) + [RunningEntry(names[i])]
  {
    assert names[..i + 1][..i] == names[..i];
  }

  /** One more archived name. */
  lemma ArchivedStep(tasks: seq<Entry>, names: seq<string>, status: string, i: nat)
    requires i < |names|
    ensures tasks + ArchivedEntries(names[..i + 1], status)
      == tasks + ArchivedEntries(names[..i], status) + [ArchivedEntry(names[i], status)]
  {
    assert names[..i + 1][..i] == names[..i];
  }

  /** The pending loop: appends the entries of the names without
      `.running.`. */
  method ScanPending(tasks: seq<Entry>, names: seq<string>) returns (r: seq<Entry>)
    ensures r == tasks + PendingEntries(names)
  {
    r := tasks;
    var i := 0;
    while i < |names|
      invariant i <= |names|
      invariant r == tasks + PendingEntries(names[..i])
    {
      PendingStep(tasks, names, i);
      var f := names[i];
      if !Contains(f, RunningTag) {
        r := r + [PendingEntry(f)];
      }
      i := i + 1;
    }
    assert names[..|names|] == names;
  }

  /** The loop over the running files. */
  method ScanRunning(tasks: seq<Entry>, names: seq<string>) returns (r: seq<Entry>)
    ensures r == tasks + RunningEntries(names)
  {
    r := tasks;
    var i := 0;
    while i < |names|
      invariant i <= |names|
      invariant r == tasks + RunningEntries(names[..i])
    {
      RunningStep(tasks, names, i);
      var entry := RunningFileEntry(names[i]);
      r := r + [entry];
      i := i + 1;
    }
    assert names[..|names|] == names;
  }

  /** The body of the running loop: the worker after the first
      `.running.`, `?` when there is none, and the name before it. */
  method RunningFileEntry(f: string) returns (e: Entry)
    ensures e == RunningEntry(f)
  {
    var parts := AfterFirst(f, RunningTag);
    var worker := if parts.Some? then BeforeFirst(parts.value, RunningTag) else "?";
    var baseName := ReplaceAll(BeforeFirst(f, RunningTag), ".md", "");
    e := Entry(baseName, "running", Some(worker), f);
  }

  /** The loop over the files of `done/` or `failed/`. */
  method ScanArchived(tasks: seq<Entry>, names: seq<string>, status: string) returns (r: seq<Entry>)
    ensures r == tasks + ArchivedEntries(names, status)
  {
    r := tasks;
    var i := 0;
    while i < |names|
      invariant i <= |names|
      invariant r == tasks + ArchivedEntries(names[..i], status)
    {
      ArchivedStep(tasks, names, status, i);
      r := r + [ArchivedEntry(names[i], status)];
      i := i + 1;
    }
    assert names[..|names|] == names;
  }

  /** `_scan_tasks()`. */
  method ScanTasks(d: TaskDirs) returns (tasks: seq<Entry>)
    ensures tasks == Listing(d.State())
  {
    var pending := Sorted(MdFiles(d.tasks));
    var running := Sorted(RunningFiles(d.tasks));
    tasks := ScanPending([], pending);
    assert tasks == PendingEntries(pending);
    tasks := ScanRunning(tasks, running);
    ghost var front := tasks;
    if d.doneIsDir {
      tasks := ScanArchived(tasks, Sorted(MdFiles(d.done)), "done");
    }
    assert tasks == front + ArchiveListing(d.doneIsDir, d.done, "done");
    ghost var middle := tasks;
    if d.failedIsDir {
      tasks := ScanArchived(tasks, Sorted(MdFiles(d.failed)), "failed");
    }
    assert tasks == middle + ArchiveListing(d.failedIsDir, d.failed, "failed");
  }

  // --------------------------------------------------------------- add_task

  /** The reply of `add_task`: 201 with the file name and its number, or
      400 for an empty description. */
  datatype AddReply = Created(filename: string, number: nat) | EmptyDescription

  function AddStatus(r: AddReply): int {
    if r.Created? then 201 else 400
  }

  /** What `add_task` answers for a description, in a task directory
      holding `tasks`. */
  function Added(tasks: map<string, string>, description: string): AddReply {
    var text := Strip(description);
    if text == [] then EmptyDescription
    else Created(TaskFileName(NextNumber(tasks), Slug(text)), NextNumber(tasks))
  }

  /** A description that is all white space is refused; otherwise the new
      file is a pending file that did not exist, carrying the number it is
      reported under, which is one more than every pending file's number. */
  lemma AddedReply(tasks: map<string, string>, description: string)
    ensures Added(tasks, description) == EmptyDescription <==> forall i :: 0 <= i < |description| ==> IsSpace(description[i])
    ensures var r := Added(tasks, description);
      r.Created? ==> && r.filename !in tasks && IsMdName(r.filename)
                     && FileNumber(r.filename) == Some(r.number as int)
                     && forall f :: f in MdFiles(tasks) && FileNumber(f).Some? ==> FileNumber(f).value < r.number
  {
    var text := Strip(description);
    if text != [] {
      NewNameFresh(tasks, Slug(text));
      TaskFileNameNumber(NextNumber(tasks), Slug(text));
      NextNumberBounds(tasks);
    }
  }

  /** `POST /api/tasks` with `{"description": description}`. */
  method AddTask(d: TaskDirs, description: string) returns (reply: AddReply)
    modifies d
    ensures reply == Added(old(d.tasks), description)
    ensures d.State() == if reply.Created? then old(d.State()).(tasks := old(d.tasks)[reply.filename := Strip(description) + "\n"]) else old(d.State())
  {
    var text := Strip(description);
    if text == [] {
      return EmptyDescription;
    }
    var existing := Sorted(MdFiles(d.tasks));
    var maxNum := ScanMaxNumber(existing);
    var nextNum := maxNum + 1;
    var slug := Slug(text);
    var filename := TaskFileName(nextNum, slug);
    d.tasks := d.tasks[filename := text + "\n"];
    reply := Created(filename, nextNum);
  }

  // ------------------------------------------------------------ delete_task

  /** The reply of `delete_task`: the deleted file, or 404. */
  datatype DeleteReply = Deleted(file: string) | NotFound

  function DeleteStatus(r: DeleteReply): int {
    if r.Deleted? then 200 else 404
  }

  /** The file `delete_task` removes, given the unsorted listings of
      `tasks/` and `failed/`: the first match in `tasks/`, otherwise the
      first match in `failed/`, by stem or by stem without the timestamp
      prefix. */
  function DeleteTarget(pending: seq<string>, failed: seq<string>, name: string): Option<(Dir, string)> {
    var p := Filter(pending, name);
    if p != [] then Some((TasksDir, p[0]))
    else
      var f := Filter(failed, name);
      if f != [] then Some((FailedDir, f[0])) else None
  }

  /** The directories after `delete_task`. */
  function AfterDelete(d: Dirs, target: Option<(Dir, string)>): Dirs {
    match target
    case None => d
    case Some((TasksDir, f)) => d.(tasks := d.tasks - {f})
    case Some((FailedDir, f)) => d.(failed := d.failed - {f})
  }

  /** The listing `glob("*.md")` gives of `failed/`: nothing when the
      directory does not exist. */
  predicate FailedListing(d: Dirs, listing: seq<string>) {
    if d.failedIsDir then Enumerates(listing, MdFiles(d.failed)) else listing == []
  }

  /** Nothing is deleted exactly when no pending file and no failed file
      matches the name; a deleted file matches it, and it is a pending file
      whenever some pending file matches. */
  lemma DeleteTargetSpec(d: Dirs, pending: seq<string>, failed: seq<string>, name: string)
    requires Enumerates(pending, MdFiles(d.tasks)) && FailedListing(d, failed)
    ensures var t := DeleteTarget(pending, failed, name);
      && (t.None? <==> (forall f :: f in MdFiles(d.tasks) ==> !MatchesName(f, name))
                       && (d.failedIsDir ==> forall f :: f in MdFiles(d.failed) ==> !MatchesName(f, name)))
      && (t.Some? ==> MatchesName(t.value.1, name))
      && (t.Some? && t.value.0 == TasksDir ==> t.value.1 in MdFiles(d.tasks))
      && (t.Some? && t.value.0 == FailedDir ==>
            t.value.1 in MdFiles(d.failed) && d.failedIsDir && forall f :: f in MdFiles(d.tasks) ==> !MatchesName(f, name))
  {
    var p := Filter(pending, name);
    var q := Filter(failed, name);
    if p != [] {
      assert p[0] in pending;
    } else if q != [] {
      assert q[0] in failed;
    }
  }

  /** `DELETE /api/tasks/{name}`; `pending` and `failed` are the unsorted
      listings `glob("*.md")` gives of `tasks/` and `failed/`. */
  method DeleteTask(d: TaskDirs, name: string, pending: seq<string>, failed: seq<string>) returns (reply: DeleteReply)
    requires Enumerates(pending, MdFiles(d.tasks)) && FailedListing(d.State(), failed)
    modifies d
    ensures var t := DeleteTarget(pending, failed, name);
      && reply == (if t.Some? then Deleted(t.value.1) else NotFound)
      && d.State() == AfterDelete(old(d.State()), t)
  {
    var matches := Filter(pending, name);
    if matches != [] {
      d.tasks := d.tasks - {matches[0]};
      return Deleted(matches[0]);
    }
    matches := Filter(failed, name);
    if matches != [] {
      d.failed := d.failed - {matches[0]};
      return Deleted(matches[0]);
    }
    reply := NotFound;
  }
}
