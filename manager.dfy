/**
 * The agent-process side of `vibe/manager.py`: decoding the `stream-json`
 * output of the agent CLI, wrapping a command for Docker, classifying how a
 * run ended, and the two-phase plan mode (generate a plan, then execute it).
 *
 * The subprocess itself is a parameter: `run` maps an invocation (the actual
 * command and its timeout) to how the process ended. JSON decoding is a
 * parameter too: `decode` maps a stripped line to the event it holds.
 */
module Manager {
  import opened Wrappers
  import opened Strings

  const DefaultTimeout: int := 600

  /** A tool call as the parser keeps it: its `name` (`""` when absent) and
      its `input` object (empty when absent). */
  datatype ToolCall = ToolCall(name: string, input: map<string, string>)

  /** One entry of an assistant message's `content` list. */
  datatype Block =
    | TextBlock(text: string)
    | ToolUseBlock(call: ToolCall)
    | OtherBlock

  /** What one stripped, non-blank output line decodes to. */
  datatype Event =
    | NotJson                                // `json.loads` raised
    | Assistant(blocks: Option<seq<Block>>)  // None: no `message`, or not an object
    | ToolUse(call: ToolCall)                // top-level `"type": "tool_use"`
    | ResultEvent(payload: Option<string>)   // None: `result` is not a string
    | OtherEvent

  /** `TaskResult`, without the duration (a float of wall-clock time). */
  datatype TaskResult = TaskResult(
    success: bool,
    output: string,
    error: string,
    filesChanged: seq<string>,
    toolCalls: seq<ToolCall>,
    returnCode: Option<int>)

  function Failure(output: string, error: string, code: Option<int>): TaskResult {
    TaskResult(false, output, error, [], [], code)
  }

  // =================================================== stream-json parsing

  function BlockTexts(bs: seq<Block>): (r: seq<string>)
    ensures |r| <= |bs|
    decreases |bs|
  {
    if bs == [] then []
    else BlockTexts(bs[..|bs| - 1]) + (match bs[|bs| - 1] case TextBlock(t) => [t] case _ => [])
  }

  function BlockCalls(bs: seq<Block>): (r: seq<ToolCall>)
    ensures |r| <= |bs|
    decreases |bs|
  {
    if bs == [] then []
    else BlockCalls(bs[..|bs| - 1]) + (match bs[|bs| - 1] case ToolUseBlock(c) => [c] case _ => [])
  }

  /** The output parts one stripped line contributes. */
  function LineParts(line: string, ev: Event): seq<string> {
    if line == [] then []
    else match ev
      case NotJson => [line]
      case Assistant(Some(bs)) => BlockTexts(bs)
      case ResultEvent(Some(s)) => [s]
      case _ => []
  }

  /** The tool calls one stripped line contributes. */
  function LineCalls(line: string, ev: Event): seq<ToolCall> {
    if line == [] then []
    else match ev
      case ToolUse(c) => [c]
      case Assistant(Some(bs)) => BlockCalls(bs)
      case _ => []
  }

  /** What one raw output line contributes to the output parts. */
  function LineOutput(line: string, decode: string -> Event): seq<string> {
    LineParts(Strip(line), decode(Strip(line)))
  }

  /** What one raw output line contributes to the tool calls. */
  function LineToolCalls(line: string, decode: string -> Event): seq<ToolCall> {
    LineCalls(Strip(line), decode(Strip(line)))
  }

  /** The contributions of the lines, in line order. */
  function Collect<T>(lines: seq<string>, f: string -> seq<T>): seq<T>
    decreases |lines|
  {
    if lines == [] then [] else Collect(lines[..|lines| - 1], f) + f(lines[|lines| - 1])
  }

  /** The output parts of the lines: `_parse_stream_json`'s `output_parts`. */
  function OutputParts(lines: seq<string>, decode: string -> Event): seq<string> {
    Collect(lines, (l: string) => LineOutput(l, decode))
  }

  /** The tool calls of the lines: `_parse_stream_json`'s `tool_calls`. */
  function ToolCalls(lines: seq<string>, decode: string -> Event): seq<ToolCall> {
    Collect(lines, (l: string) => LineToolCalls(l, decode))
  }

  predicate IsEditTool(name: string) {
    name == "Write" || name == "Edit" || name == "write" || name == "edit"
  }

  /** The call writes or edits the file `f`. */
  predicate EditsFile(c: ToolCall, f: string) {
    IsEditTool(c.name) && "file_path" in c.input && c.input["file_path"] == f
  }

  /** The files the calls write or edit, each once, in first-seen order. */
  function ChangedFiles(calls: seq<ToolCall>): (r: seq<string>)
    decreases |calls|
  {
    if calls == [] then []
    else
      var prev := ChangedFiles(calls[..|calls| - 1]);
      var c := calls[|calls| - 1];
      if IsEditTool(c.name) && "file_path" in c.input && c.input["file_path"] !in prev
      then prev + [c.input["file_path"]]
      else prev
  }

  /** `_parse_stream_json(lines)`, as a function. */
  function Parse(lines: seq<string>, decode: string -> Event): (r: TaskResult)
    ensures r.success && r.error == [] && r.returnCode == None
  {
    var calls := ToolCalls(lines, decode);
    TaskResult(true, Join(OutputParts(lines, decode), "\n"), "", ChangedFiles(calls), calls, None)
  }

  /** The output parts and tool calls after one more line. */
  method ConsumeLine(line: string, decode: string -> Event, parts: seq<string>, calls: seq<ToolCall>)
    returns (parts': seq<string>, calls': seq<ToolCall>)
    ensures parts' == parts + LineOutput(line, decode)
    ensures calls' == calls + LineToolCalls(line, decode)
  {
    parts', calls' := parts, calls;
    var l := Strip(line);
    if l != [] {
      var event := decode(l);
      match event {
        case NotJson =>
          parts' := parts' + [l];
        case Assistant(Some(bs)) =>
          parts' := AppendTexts(parts', bs);
          calls' := AppendCalls(calls', bs);
        case ToolUse(c) =>
          calls' := calls' + [c];
        case ResultEvent(Some(s)) =>
          parts' := parts' + [s];
        case _ =>
      }
    }
  }

  method AppendTexts(parts: seq<string>, bs: seq<Block>) returns (parts': seq<string>)
    ensures parts' == parts + BlockTexts(bs)
  {
    parts' := parts;
    var j := 0;
    while j < |bs|
      invariant 0 <= j <= |bs|
      invariant parts' == parts + BlockTexts(bs[..j])
    {
      assert bs[..j + 1][..j] == bs[..j];
      if bs[j].TextBlock? {
        parts' := parts' + [bs[j].text];
      }
      j := j + 1;
    }
    assert bs[..|bs|] == bs;
  }

  method AppendCalls(calls: seq<ToolCall>, bs: seq<Block>) returns (calls': seq<ToolCall>)
    ensures calls' == calls + BlockCalls(bs)
  {
    calls' := calls;
    var j := 0;
    while j < |bs|
      invariant 0 <= j <= |bs|
      invariant calls' == calls + BlockCalls(bs[..j])
    {
      assert bs[..j + 1][..j] == bs[..j];
      if bs[j].ToolUseBlock? {
        calls' := calls' + [bs[j].call];
      }
      j := j + 1;
    }
    assert bs[..|bs|] == bs;
  }

  /** The changed files of the calls, collected in one pass. */
  method CollectChangedFiles(calls: seq<ToolCall>) returns (files: seq<string>)
    ensures files == ChangedFiles(calls)
  {
    files := [];
    var k := 0;
    while k < |calls|
      invariant 0 <= k <= |calls|
      invariant files == ChangedFiles(calls[..k])
    {
      assert calls[..k + 1][..k] == calls[..k];
      var tc := calls[k];
      if IsEditTool(tc.name) && "file_path" in tc.input {
        var fpath := tc.input["file_path"];
        if fpath !in files {
          files := files + [fpath];
        }
      }
      k := k + 1;
    }
    assert calls[..|calls|] == calls;
  }

  /** `_parse_stream_json(lines)`. */
  method ParseStreamJson(lines: seq<string>, decode: string -> Event) returns (r: TaskResult)
    ensures r == Parse(lines, decode)
  {
    var outputParts: seq<string> := [];
    var toolCalls: seq<ToolCall> := [];
    var i := 0;
    while i < |lines|
      invariant 0 <= i <= |lines|
      invariant outputParts == OutputParts(lines[..i], decode)
      invariant toolCalls == ToolCalls(lines[..i], decode)
    {
      assert lines[..i + 1] == lines[..i] + [lines[i]];
      OutputPartsSnoc(lines[..i], lines[i], decode);
      ToolCallsSnoc(lines[..i], lines[i], decode);
      outputParts, toolCalls := ConsumeLine(lines[i], decode, outputParts, toolCalls);
      i := i + 1;
    }
    assert lines[..|lines|] == lines;
    var filesChanged := CollectChangedFiles(toolCalls);
    r := TaskResult(true, Join(outputParts, "\n"), "", filesChanged, toolCalls, None);
  }

  lemma CollectSnoc<T>(p: seq<string>, x: string, f: string -> seq<T>)
    ensures Collect(p + [x], f) == Collect(p, f) + f(x)
  {
    assert (p + [x])[..|p|] == p;
  }

  lemma {:induction false} CollectConcat<T>(a: seq<string>, b: seq<string>, f: string -> seq<T>)
    ensures Collect(a + b, f) == Collect(a, f) + Collect(b, f)
    decreases |b|
  {
    if b == [] {
      assert a + b == a;
    } else {
      var b' := b[..|b| - 1];
      var last := b[|b| - 1];
      assert b == b' + [last];
      assert a + b == (a + b') + [last];
      CollectConcat(a, b', f);
      CollectSnoc(a + b', last, f);
      CollectSnoc(b', last, f);
    }
  }

  lemma OutputPartsSnoc(p: seq<string>, x: string, decode: string -> Event)
    ensures OutputParts(p + [x], decode) == OutputParts(p, decode) + LineOutput(x, decode)
  {
    CollectSnoc(p, x, (l: string) => LineOutput(l, decode));
  }

  lemma ToolCallsSnoc(p: seq<string>, x: string, decode: string -> Event)
    ensures ToolCalls(p + [x], decode) == ToolCalls(p, decode) + LineToolCalls(x, decode)
  {
    CollectSnoc(p, x, (l: string) => LineToolCalls(l, decode));
  }

  /** Output parts follow the lines: the parts of two runs of lines are the
      parts of the first followed by those of the second. */
  lemma OutputPartsConcat(a: seq<string>, b: seq<string>, decode: string -> Event)
    ensures OutputParts(a + b, decode) == OutputParts(a, decode) + OutputParts(b, decode)
  {
    CollectConcat(a, b, (l: string) => LineOutput(l, decode));
  }

  lemma ToolCallsConcat(a: seq<string>, b: seq<string>, decode: string -> Event)
    ensures ToolCalls(a + b, decode) == ToolCalls(a, decode) + ToolCalls(b, decode)
  {
    CollectConcat(a, b, (l: string) => LineToolCalls(l, decode));
  }

  lemma OneLine(l: string, decode: string -> Event)
    ensures OutputParts([l], decode) == LineOutput(l, decode)
    ensures ToolCalls([l], decode) == LineToolCalls(l, decode)
  {
    assert [] + [l] == [l];
    OutputPartsSnoc([], l, decode);
    ToolCallsSnoc([], l, decode);
  }

  lemma CollectInsert<T>(a: seq<string>, l: string, b: seq<string>, f: string -> seq<T>)
    ensures Collect(a + [l] + b, f) == Collect(a, f) + f(l) + Collect(b, f)
  {
    CollectConcat(a + [l], b, f);
    CollectSnoc(a, l, f);
  }

  /** A line inside the output contributes its own parts in place. */
  lemma InsertLineParts(a: seq<string>, l: string, b: seq<string>, decode: string -> Event)
    ensures OutputParts(a + [l] + b, decode) == OutputParts(a, decode) + LineOutput(l, decode) + OutputParts(b, decode)
  {
    CollectInsert(a, l, b, (l: string) => LineOutput(l, decode));
  }

  /** A line inside the output contributes its own tool calls in place. */
  lemma InsertLineCalls(a: seq<string>, l: string, b: seq<string>, decode: string -> Event)
    ensures ToolCalls(a + [l] + b, decode) == ToolCalls(a, decode) + LineToolCalls(l, decode) + ToolCalls(b, decode)
  {
    CollectInsert(a, l, b, (l: string) => LineToolCalls(l, decode));
  }

  /** A blank line contributes no output part, wherever it stands. */
  lemma BlankLineSkipped(a: seq<string>, l: string, b: seq<string>, decode: string -> Event)
    requires Strip(l) == []
    ensures OutputParts(a + [l] + b, decode) == OutputParts(a + b, decode)
  {
    BlankLineEmpty(l, decode);
    SilentLineParts(a, l, b, decode);
  }

  /** A blank line contributes no tool call, wherever it stands. */
  lemma BlankLineNoCalls(a: seq<string>, l: string, b: seq<string>, decode: string -> Event)
    requires Strip(l) == []
    ensures ToolCalls(a + [l] + b, decode) == ToolCalls(a + b, decode)
  {
    BlankLineEmpty(l, decode);
    SilentLineCalls(a, l, b, decode);
  }

  lemma CollectSilent<T>(a: seq<string>, l: string, b: seq<string>, f: string -> seq<T>)
    requires f(l) == []
    ensures Collect(a + [l] + b, f) == Collect(a + b, f)
  {
    CollectConcat(a + [l], b, f);
    CollectSnoc(a, l, f);
    CollectConcat(a, b, f);
  }

  lemma SilentLineParts(a: seq<string>, l: string, b: seq<string>, decode: string -> Event)
    requires LineOutput(l, decode) == []
    ensures OutputParts(a + [l] + b, decode) == OutputParts(a + b, decode)
  {
    CollectSilent(a, l, b, (l: string) => LineOutput(l, decode));
  }

  lemma SilentLineCalls(a: seq<string>, l: string, b: seq<string>, decode: string -> Event)
    requires LineToolCalls(l, decode) == []
    ensures ToolCalls(a + [l] + b, decode) == ToolCalls(a + b, decode)
  {
    CollectSilent(a, l, b, (l: string) => LineToolCalls(l, decode));
  }

  lemma BlankLineEmpty(l: string, decode: string -> Event)
    requires Strip(l) == []
    ensures LineOutput(l, decode) == [] && LineToolCalls(l, decode) == []
  {
  }

  lemma NonJsonLine(l: string, decode: string -> Event)
    requires Strip(l) != [] && decode(Strip(l)) == NotJson
    ensures LineOutput(l, decode) == [Strip(l)] && LineToolCalls(l, decode) == []
  {
  }

  /** A line that is not JSON is kept, stripped, as one output part. */
  lemma NonJsonKept(a: seq<string>, l: string, b: seq<string>, decode: string -> Event)
    requires Strip(l) != [] && decode(Strip(l)) == NotJson
    ensures OutputParts(a + [l] + b, decode) == OutputParts(a, decode) + [Strip(l)] + OutputParts(b, decode)
  {
    NonJsonLine(l, decode);
    InsertLineParts(a, l, b, decode);
  }

  /** A line that is not JSON contributes no tool call. */
  lemma NonJsonNoCalls(a: seq<string>, l: string, b: seq<string>, decode: string -> Event)
    requires Strip(l) != [] && decode(Strip(l)) == NotJson
    ensures ToolCalls(a + [l] + b, decode) == ToolCalls(a + b, decode)
  {
    NonJsonLine(l, decode);
    SilentLineCalls(a, l, b, decode);
  }

  /** An assistant message contributes its text blocks to the output and its
      `tool_use` blocks to the calls, in block order. */
  lemma AssistantLine(l: string, bs: seq<Block>, decode: string -> Event)
    requires Strip(l) != [] && decode(Strip(l)) == Assistant(Some(bs))
    ensures OutputParts([l], decode) == BlockTexts(bs)
    ensures ToolCalls([l], decode) == BlockCalls(bs)
  {
    OneLine(l, decode);
  }

  /** The text blocks, in order, are exactly the blocks' texts. */
  lemma {:induction false} BlockTextsMembers(bs: seq<Block>, t: string)
    ensures t in BlockTexts(bs) <==> exists i :: 0 <= i < |bs| && bs[i] == TextBlock(t)
    decreases |bs|
  {
    if bs != [] {
      var p := bs[..|bs| - 1];
      BlockTextsMembers(p, t);
      if exists i :: 0 <= i < |bs| && bs[i] == TextBlock(t) {
        var i :| 0 <= i < |bs| && bs[i] == TextBlock(t);
        if i < |p| {
          assert p[i] == TextBlock(t);
        }
      }
      forall i | 0 <= i < |p| && p[i] == TextBlock(t)
        ensures exists i :: 0 <= i < |bs| && bs[i] == TextBlock(t)
      {
        assert bs[i] == p[i];
      }
    }
  }

  /** The changed files carry no file twice. */
  lemma {:induction false} ChangedFilesDistinct(calls: seq<ToolCall>)
    ensures NoDuplicates(ChangedFiles(calls))
    decreases |calls|
  {
    if calls != [] {
      var p := calls[..|calls| - 1];
      ChangedFilesDistinct(p);
      var prev := ChangedFiles(p);
      var r := ChangedFiles(calls);
      var c := calls[|calls| - 1];
      if IsEditTool(c.name) && "file_path" in c.input && c.input["file_path"] !in prev {
        NoDuplicatesSnoc(prev, c.input["file_path"]);
      }
    }
  }

  /** A file is among the changed files iff some call writes or edits it. */
  lemma {:induction false} ChangedFilesMembers(calls: seq<ToolCall>, f: string)
    ensures f in ChangedFiles(calls) <==> exists i :: 0 <= i < |calls| && EditsFile(calls[i], f)
    decreases |calls|
  {
    if calls != [] {
      var p := calls[..|calls| - 1];
      ChangedFilesMembers(p, f);
      if exists i :: 0 <= i < |calls| && EditsFile(calls[i], f) {
        var i :| 0 <= i < |calls| && EditsFile(calls[i], f);
        if i < |p| {
          assert EditsFile(p[i], f);
        }
      }
      forall i | 0 <= i < |p| && EditsFile(p[i], f)
        ensures exists i :: 0 <= i < |calls| && EditsFile(calls[i], f)
      {
        assert calls[i] == p[i];
      }
    }
  }

  /** The changed files of every prefix of the calls are a prefix of the
      changed files: a file keeps the place where it was first seen. */
  lemma {:induction false} ChangedFilesGrow(calls: seq<ToolCall>, k: nat)
    requires k <= |calls|
    ensures var r := ChangedFiles(calls); var q := ChangedFiles(calls[..k]);
      |q| <= |r| && r[..|q|] == q
    decreases |calls|
  {
    assert calls[..|calls|] == calls;
    if k < |calls| {
      var p := calls[..|calls| - 1];
      assert p[..k] == calls[..k];
      ChangedFilesGrow(p, k);
    }
  }

  /** A call that is not a write or an edit (a `Read`, say) changes nothing. */
  lemma OtherCallsIgnored(calls: seq<ToolCall>, c: ToolCall)
    requires !IsEditTool(c.name)
    ensures ChangedFiles(calls + [c]) == ChangedFiles(calls)
  {
    assert (calls + [c])[..|calls|] == calls;
  }

  // ======================================================== docker command

  /** What the host contributes to a Docker command: `os.getuid()`,
      `os.getgid()`, `Path.home()` and whether `~/.claude.json` is a file. */
  datatype Host = Host(uid: nat, gid: nat, home: string, claudeJsonIsFile: bool)

  /** `home / name` for a file name. */
  function JoinPath(dir: string, name: string): string {
    if EndsWith(dir, "/") then dir + name else dir + "/" + name
  }

  function DockerPrefix(cwd: string, home: string): (r: seq<string>)
    ensures |r| == 12
  {
    ["docker", "run", "--rm", "-i",
     "-v", cwd + ":/workspace",
     "-v", JoinPath(home, ".claude") + ":/home/user/.claude:ro",
     "-w", "/workspace",
     "-e", "ANTHROPIC_API_KEY"]
  }

  function UserOption(h: Host): seq<string> {
    if h.uid != 0 then ["--user", NatToString(h.uid) + ":" + NatToString(h.gid)] else []
  }

  function JsonMount(h: Host): seq<string> {
    if h.claudeJsonIsFile then ["-v", JoinPath(h.home, ".claude.json") + ":/home/user/.claude.json:ro"] else []
  }

  /** `shlex.split(extra)` when `extra` is not empty; `split` is the tokenizer. */
  function ExtraArgs(extra: string, split: string -> seq<string>): seq<string> {
    if extra != [] then split(extra) else []
  }

  /** `_build_docker_cmd(claude_cmd, cwd, image, extra)`, as a function. */
  function DockerCmd(claudeCmd: seq<string>, cwd: string, image: string, extra: string, h: Host,
                     split: string -> seq<string>): (r: seq<string>)
    ensures |r| == 13 + |UserOption(h)| + |JsonMount(h)| + |ExtraArgs(extra, split)| + |claudeCmd|
    ensures r[..12] == DockerPrefix(cwd, h.home)
    ensures r[|r| - |claudeCmd| - 1] == image && r[|r| - |claudeCmd|..] == claudeCmd
  {
    var r := DockerPrefix(cwd, h.home) + UserOption(h) + JsonMount(h) + ExtraArgs(extra, split) + [image] + claudeCmd;
    assert r[..12] == DockerPrefix(cwd, h.home);
    r
  }

  /** `_build_docker_cmd`. */
  method BuildDockerCmd(claudeCmd: seq<string>, cwd: string, image: string, extra: string, h: Host,
                        split: string -> seq<string>) returns (cmd: seq<string>)
    ensures cmd == DockerCmd(claudeCmd, cwd, image, extra, h, split)
  {
    cmd := ["docker", "run", "--rm", "-i",
            "-v", cwd + ":/workspace",
            "-v", JoinPath(h.home, ".claude") + ":/home/user/.claude:ro",
            "-w", "/workspace",
            "-e", "ANTHROPIC_API_KEY"];
    if h.uid != 0 {
      cmd := cmd + ["--user", NatToString(h.uid) + ":" + NatToString(h.gid)];
    }
    if h.claudeJsonIsFile {
      cmd := cmd + ["-v", JoinPath(h.home, ".claude.json") + ":/home/user/.claude.json:ro"];
    }
    if extra != [] {
      cmd := cmd + split(extra);
    }
    cmd := cmd + [image];
    cmd := cmd + claudeCmd;
  }

  /** `--user uid:gid` follows the fixed prefix iff the user is not root;
      otherwise no `--user` appears unless the caller's own arguments or the
      image bring one. */
  lemma DockerUser(claudeCmd: seq<string>, cwd: string, image: string, extra: string, h: Host,
                   split: string -> seq<string>)
    ensures var r := DockerCmd(claudeCmd, cwd, image, extra, h, split);
      h.uid != 0 ==> r[12..14] == ["--user", NatToString(h.uid) + ":" + NatToString(h.gid)]
    ensures var r := DockerCmd(claudeCmd, cwd, image, extra, h, split);
      h.uid == 0 && "--user" !in ExtraArgs(extra, split) && "--user" !in claudeCmd && image != "--user"
      ==> "--user" !in r
  {
    var r := DockerCmd(claudeCmd, cwd, image, extra, h, split);
    var u := DockerPrefix(cwd, h.home) + UserOption(h) + JsonMount(h);
    assert r == u + ExtraArgs(extra, split) + [image] + claudeCmd;
    if h.uid == 0 && "--user" !in ExtraArgs(extra, split) && "--user" !in claudeCmd && image != "--user" {
      assert "--user" !in u;
    }
  }

  /** The `.claude.json` mount follows the user option iff the file exists. */
  lemma DockerJsonMount(claudeCmd: seq<string>, cwd: string, image: string, extra: string, h: Host,
                        split: string -> seq<string>)
    ensures var r := DockerCmd(claudeCmd, cwd, image, extra, h, split); var k := 12 + |UserOption(h)|;
      h.claudeJsonIsFile ==> r[k..k + 2] == ["-v", JoinPath(h.home, ".claude.json") + ":/home/user/.claude.json:ro"]
    ensures var r := DockerCmd(claudeCmd, cwd, image, extra, h, split); var k := 12 + |UserOption(h)|;
      !h.claudeJsonIsFile ==> r[k..|r| - |claudeCmd| - 1] == ExtraArgs(extra, split)
  {
    ConcatParts(DockerPrefix(cwd, h.home) + UserOption(h), JsonMount(h), ExtraArgs(extra, split), image, claudeCmd);
  }

  /** Where the parts of `a + j + e + [x] + c` sit. */
  lemma ConcatParts<T>(a: seq<T>, j: seq<T>, e: seq<T>, x: T, c: seq<T>)
    ensures var r := a + j + e + [x] + c;
      r[|a|..|a| + |j|] == j && (j == [] ==> r[|a|..|r| - |c| - 1] == e)
  {
    var r := a + j + e + [x] + c;
    assert r[|a|..|a| + |j|] == (a + j)[|a|..];
    if j == [] {
      assert a + j == a;
      assert r[|a|..|r| - |c| - 1] == (a + e)[|a|..];
    }
  }

  /** Empty extra arguments add no token: no empty element appears unless
      the command or the image is one. */
  lemma DockerNoEmptyArgument(claudeCmd: seq<string>, cwd: string, image: string, h: Host,
                              split: string -> seq<string>)
    requires "" !in claudeCmd && image != ""
    ensures "" !in DockerCmd(claudeCmd, cwd, image, "", h, split)
  {
    var r := DockerCmd(claudeCmd, cwd, image, "", h, split);
    assert r == DockerPrefix(cwd, h.home) + UserOption(h) + JsonMount(h) + [image] + claudeCmd;
    assert "" !in DockerPrefix(cwd, h.home) by {
      assert |cwd + ":/workspace"| > 0;
      assert |JoinPath(h.home, ".claude") + ":/home/user/.claude:ro"| > 0;
    }
    assert "" !in UserOption(h) by {
      assert |NatToString(h.uid) + ":" + NatToString(h.gid)| > 0;
    }
    assert "" !in JsonMount(h) by {
      assert |JoinPath(h.home, ".claude.json") + ":/home/user/.claude.json:ro"| > 0;
    }
  }

  // ===================================================== running the agent

  /** How the agent process ended. */
  datatype Outcome =
    | NotFound                                          // the binary is missing
    | StartFailed(reason: string)                       // any other start error
    | Interrupted(stdout: seq<string>, pollCode: Option<int>) // shutdown seen while waiting
    | TimedOut(stdout: seq<string>)                     // the deadline passed first
    | Exited(code: int, stdout: seq<string>, stderr: seq<string>)

  /** One start of the process: the command actually run and its timeout. */
  datatype Invocation = Invocation(cmd: seq<string>, timeout: int)

  /** Everything about a run that is fixed by the caller. */
  datatype Settings = Settings(
    cwd: string,
    useDocker: bool,
    image: string,
    extraArgs: string,
    host: Host,
    split: string -> seq<string>,
    decode: string -> Event)

  function ActualCmd(cmd: seq<string>, s: Settings): seq<string> {
    if s.useDocker then DockerCmd(cmd, s.cwd, s.image, s.extraArgs, s.host, s.split) else cmd
  }

  function TimeoutText(timeout: int): string {
    "执行超时（" + IntToString(timeout) + " 秒）"
  }

  function ExitText(code: int, stderr: seq<string>): string {
    "退出码 " + IntToString(code) + ": " + Join(stderr, "\n")
  }

  /** `_run_claude`'s result for a process that ended as `o`. */
  function Classify(o: Outcome, useDocker: bool, timeout: int, decode: string -> Event): (r: TaskResult)
    ensures r.success <==> o.Exited? && o.code == 0
    ensures o.Exited? ==> r.returnCode == Some(o.code)
    ensures o.TimedOut? ==> r.returnCode == None && r.error == TimeoutText(timeout)
  {
    match o
    case NotFound => Failure("", (if useDocker then "docker" else "claude") + " 命令未找到", None)
    case StartFailed(e) => Failure("", "启动失败: " + e, None)
    case Interrupted(out, code) => Failure(Join(out, "\n"), "中断: 收到关闭信号", code)
    case TimedOut(out) => Failure(Join(out, "\n"), TimeoutText(timeout), None)
    case Exited(code, out, err) =>
      if code != 0 then Failure(Join(out, "\n"), ExitText(code, err), Some(code))
      else Parse(out, decode).(returnCode := Some(0))
  }

  /** A run's result and the processes it started, in order. */
  datatype Run = Run(result: TaskResult, calls: seq<Invocation>)

  function RunClaude(cmd: seq<string>, timeout: int, s: Settings, run: Invocation -> Outcome): (r: Run)
    ensures |r.calls| == 1 && r.calls[0] == Invocation(ActualCmd(cmd, s), timeout)
  {
    var inv := Invocation(ActualCmd(cmd, s), timeout);
    Run(Classify(run(inv), s.useDocker, timeout, s.decode), [inv])
  }

  function TaskCmd(prompt: string): seq<string> {
    ["claude", "-p", prompt, "--dangerously-skip-permissions", "--output-format", "stream-json", "--verbose"]
  }

  /** `run_task(prompt, cwd, timeout)`. */
  function RunTask(prompt: string, timeout: int, s: Settings, run: Invocation -> Outcome): Run {
    RunClaude(TaskCmd(prompt), timeout, s, run)
  }

  // ============================================================ plan mode

  function PlanPrompt(prompt: string): string {
    "请为以下任务生成详细的执行计划，列出所有需要修改的文件和具体步骤。" + "不要实际执行任何修改，只输出计划。\n\n" + prompt
  }

  /** The planning command runs without `--dangerously-skip-permissions`. */
  function PlanCmd(prompt: string): (r: seq<string>)
    ensures "--dangerously-skip-permissions" !in r
  {
    var p := PlanPrompt(prompt);
    assert p[0] == '请';
    ["claude", "-p", p, "--output-format", "stream-json", "--verbose"]
  }

  /** `min(timeout // 3, 300)`; Python's floor division agrees with Dafny's
      for the positive divisor. */
  function PlanTimeout(timeout: int): (r: int)
    ensures r <= 300 && 3 * r <= timeout
    ensures r == 300 || timeout < 3 * r + 3
  {
    if timeout / 3 < 300 then timeout / 3 else 300
  }

  /** `max(timeout - elapsed, 60)`, with `elapsed` the whole seconds spent. */
  function RemainingTimeout(timeout: int, elapsed: int): (r: int)
    ensures r >= 60 && r >= timeout - elapsed
    ensures r == 60 || r == timeout - elapsed
  {
    if timeout - elapsed < 60 then 60 else timeout - elapsed
  }

  function PlanTimeoutText(planTimeout: int): string {
    "计划生成超时（" + IntToString(planTimeout) + " 秒）"
  }

  /** A failed plan run is relabelled: a timeout (any error mentioning
      "超时") as a planning timeout, an exit error as a planning failure. */
  function RelabelPlanError(r: TaskResult, planTimeout: int): (r': TaskResult)
    ensures r'.success == r.success && r'.output == r.output
    ensures r.success ==> r' == r
  {
    if !r.success && Contains(r.error, "超时") then r.(error := PlanTimeoutText(planTimeout))
    else if !r.success && Contains(r.error, "退出码") then r.(error := "计划生成失败（" + r.error + "）")
    else r
  }

  /** `generate_plan(prompt, cwd, timeout)`. */
  function GeneratePlan(prompt: string, timeout: int, s: Settings, run: Invocation -> Outcome): (r: Run)
    ensures |r.calls| == 1 && r.calls[0] == Invocation(ActualCmd(PlanCmd(prompt), s), PlanTimeout(timeout))
  {
    var pt := PlanTimeout(timeout);
    var res := RunClaude(PlanCmd(prompt), pt, s, run);
    Run(RelabelPlanError(res.result, pt), res.calls)
  }

  function ExecPrompt(plan: string): string {
    "请严格按照以下计划执行，不要偏离计划内容：\n\n"
    + "=== 执行计划 ===\n" + plan + "\n=== 计划结束 ===\n\n"
    + "现在开始执行上述计划。"
  }

  /** The executed output, framed by the plan it followed. */
  function Frame(plan: string, output: string): (r: string)
    ensures StartsWith(r, "[计划]\n" + plan)
    ensures output == [] ==> r == "[计划]\n" + plan
    ensures output != [] ==> EndsWith(r, "\n\n[执行结果]\n" + output)
  {
    if output != [] then
      var r := "[计划]\n" + plan + ("\n\n[执行结果]\n" + output);
      assert r[..|"[计划]\n" + plan|] == "[计划]\n" + plan;
      r
    else "[计划]\n" + plan
  }

  /** `execute_plan(plan, cwd, timeout)`. */
  function ExecutePlan(plan: string, timeout: int, s: Settings, run: Invocation -> Outcome): (r: Run)
    ensures |r.calls| == 1 && r.calls[0] == Invocation(ActualCmd(TaskCmd(ExecPrompt(plan)), s), timeout)
  {
    var e := RunTask(ExecPrompt(plan), timeout, s, run);
    Run(e.result.(output := Frame(plan, e.result.output)), e.calls)
  }

  /** `run_plan(prompt, cwd, timeout)`; `elapsed` is the whole seconds the
      planning phase took. */
  function RunPlan(prompt: string, timeout: int, elapsed: int, s: Settings, run: Invocation -> Outcome): Run {
    var p := GeneratePlan(prompt, timeout, s, run);
    if !p.result.success then p
    else
      var e := ExecutePlan(p.result.output, RemainingTimeout(timeout, elapsed), s, run);
      Run(e.result, p.calls + e.calls)
  }

  /** A failed plan is returned as it is and nothing is executed. */
  lemma RunPlanStopsOnFailure(prompt: string, timeout: int, elapsed: int, s: Settings, run: Invocation -> Outcome)
    requires !GeneratePlan(prompt, timeout, s, run).result.success
    ensures RunPlan(prompt, timeout, elapsed, s, run) == GeneratePlan(prompt, timeout, s, run)
    ensures |RunPlan(prompt, timeout, elapsed, s, run).calls| == 1
  {
  }

  /** A successful plan is executed once, with at least 60 seconds, and the
      result is framed by the plan. */
  lemma RunPlanExecutes(prompt: string, timeout: int, elapsed: int, s: Settings, run: Invocation -> Outcome)
    requires GeneratePlan(prompt, timeout, s, run).result.success
    ensures var p := GeneratePlan(prompt, timeout, s, run).result;
      var r := RunPlan(prompt, timeout, elapsed, s, run);
      && |r.calls| == 2
      && r.calls[0].timeout == PlanTimeout(timeout)
      && r.calls[1].cmd == ActualCmd(TaskCmd(ExecPrompt(p.output)), s)
      && r.calls[1].timeout == RemainingTimeout(timeout, elapsed) >= 60
      && StartsWith(r.result.output, "[计划]\n" + p.output)
  {
  }

  /** A planning run that hits its deadline reports a planning timeout with
      the planning phase's own limit. */
  lemma PlanTimeoutRelabelled(prompt: string, timeout: int, s: Settings, run: Invocation -> Outcome, out: seq<string>)
    requires run(Invocation(ActualCmd(PlanCmd(prompt), s), PlanTimeout(timeout))) == TimedOut(out)
    ensures GeneratePlan(prompt, timeout, s, run).result.error == PlanTimeoutText(PlanTimeout(timeout))
  {
    var t := TimeoutText(PlanTimeout(timeout));
    assert t[2..4] == "超时";
    ContainsAt(t, "超时", 2);
  }

  /** A planning run that exits non-zero, with no "超" in its error stream,
      reports a planning failure around the exit error. */
  lemma PlanExitRelabelled(prompt: string, timeout: int, s: Settings, run: Invocation -> Outcome,
                           code: int, out: seq<string>, err: seq<string>)
    requires code != 0
    requires run(Invocation(ActualCmd(PlanCmd(prompt), s), PlanTimeout(timeout))) == Exited(code, out, err)
    requires '超' !in Join(err, "\n")
    ensures GeneratePlan(prompt, timeout, s, run).result.error == "计划生成失败（" + ExitText(code, err) + "）"
  {
    var e := ExitText(code, err);
    assert e[..3] == "退出码";
    ContainsAt(e, "退出码", 0);
    IntToStringChars(code);
    assert '超' !in e;
    MissingHeadNotContained(e, "超时");
  }

  /** An exit error whose error stream says "超时" is reported as a planning
      timeout, although the process did not time out. */
  lemma PlanExitMentioningTimeout(prompt: string, timeout: int, s: Settings, run: Invocation -> Outcome,
                                  code: int, out: seq<string>)
    requires code != 0
    requires run(Invocation(ActualCmd(PlanCmd(prompt), s), PlanTimeout(timeout))) == Exited(code, out, ["超时"])
    ensures GeneratePlan(prompt, timeout, s, run).result.error == PlanTimeoutText(PlanTimeout(timeout))
  {
    var e := ExitText(code, ["超时"]);
    var k := |"退出码 " + IntToString(code) + ": "|;
    assert e == "退出码 " + IntToString(code) + ": " + "超时";
    assert e[k..k + 2] == "超时";
    ContainsAt(e, "超时", k);
  }

  /** The printed number holds only digits and a sign. */
  lemma IntToStringChars(i: int)
    ensures forall c :: c in IntToString(i) ==> c == '-' || IsDigit(c)
  {
  }

  /** A text lacking the first character of a pattern does not hold it. */
  lemma MissingHeadNotContained(s: string, sub: string)
    requires sub != [] && sub[0] !in s
    ensures !Contains(s, sub)
  {
  }
}
