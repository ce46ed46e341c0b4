/**
 * The configuration of `vibe` (`config.py`): the `.env` line parser, the
 * coercion of a text to a field's type, and `load_config`, which starts
 * from the defaults, lets `.env` entries and then environment variables
 * override them, and finally resets three out-of-range fields. The `.env`
 * file's text (or its absence) and the process environment are parameters.
 */
module Config {
  import opened Wrappers
  import opened Strings

  // ------------------------------------------------------------ the fields

  /** The three field types of the `Config` dataclass. */
  datatype Kind = IntKind | BoolKind | StrKind

  datatype Value = IntValue(i: int) | BoolValue(b: bool) | StrValue(s: string)

  predicate HasKind(v: Value, k: Kind) {
    match k
    case IntKind => v.IntValue?
    case BoolKind => v.BoolValue?
    case StrKind => v.StrValue?
  }

  /** One dataclass field: its name, its type and its default. */
  datatype Field = Field(name: string, kind: Kind, default: Value)

  /** `fields(Config)`, in declaration order. */
  const Fields: seq<Field> := [
    Field("task_dir", StrKind, StrValue("tasks")),
    Field("done_dir", StrKind, StrValue("tasks/done")),
    Field("fail_dir", StrKind, StrValue("tasks/failed")),
    Field("timeout", IntKind, IntValue(600)),
    Field("max_retries", IntKind, IntValue(2)),
    Field("max_workers", IntKind, IntValue(1)),
    Field("workspace", StrKind, StrValue(".")),
    Field("log_level", StrKind, StrValue("INFO")),
    Field("log_file", StrKind, StrValue("")),
    Field("use_worktree", BoolKind, BoolValue(true)),
    Field("plan_mode", BoolKind, BoolValue(false)),
    Field("plan_auto_approve", BoolKind, BoolValue(true)),
    Field("use_docker", BoolKind, BoolValue(false)),
    Field("docker_image", StrKind, StrValue("auto-claude-code")),
    Field("docker_extra_args", StrKind, StrValue("")),
    Field("poll_interval", IntKind, IntValue(30)),
    Field("verbose", BoolKind, BoolValue(false))
  ]

  /** Positions of the fields that the range checks and the command line
      touch. */
  const TimeoutAt := 3
  const MaxRetriesAt := 4
  const MaxWorkersAt := 5
  const WorkspaceAt := 6
  const UseWorktreeAt := 9
  const PlanModeAt := 10
  const PlanAutoApproveAt := 11
  const UseDockerAt := 12
  const DockerImageAt := 13

  /** A `Config` instance: the value of each field, in declaration order;
      `setattr(config, f.name, v)` replaces the value at `f`'s position
      (dataclass field names are unique). */
  type Config = seq<Value>

  /** One value per field of `fs`, of the field's type. */
  predicate Typed(c: Config, fs: seq<Field>) {
    |c| == |fs| && forall i :: 0 <= i < |fs| ==> HasKind(c[i], fs[i].kind)
  }

  /** A well-formed `Config`. */
  predicate WellTyped(c: Config) {
    Typed(c, Fields)
  }

  /** Every default has its field's type. */
  predicate DefaultsTyped(fs: seq<Field>) {
    forall i :: 0 <= i < |fs| ==> HasKind(fs[i].default, fs[i].kind)
  }

  /** Every field of `fs` at its default. */
  function DefaultsOf(fs: seq<Field>): (c: Config)
    ensures |c| == |fs| && forall i :: 0 <= i < |fs| ==> c[i] == fs[i].default
  {
    seq(|fs|, i requires 0 <= i < |fs| => fs[i].default)
  }

  /** `Config()`. */
  function Defaults(): (c: Config)
    ensures WellTyped(c)
    ensures forall i :: 0 <= i < |Fields| ==> c[i] == Fields[i].default
  {
    DefaultsOf(Fields)
  }

  // ------------------------------------------------------------------ .env

  /** `value[1:-1]` when the value is wrapped in a matching pair of `"` or `'`. */
  function Unquote(v: string): (r: string)
    ensures |v| >= 2 && v[0] == v[|v| - 1] && (v[0] == '"' || v[0] == '\'') ==> v == [v[0]] + r + [v[0]]
    ensures !(|v| >= 2 && v[0] == v[|v| - 1] && (v[0] == '"' || v[0] == '\'')) ==> r == v
  {
    if |v| >= 2 && v[0] == v[|v| - 1] && (v[0] == '"' || v[0] == '\'') then v[1..|v| - 1] else v
  }

  /** One line of a `.env` file: its key and its value, or `None` for a
      blank line, a comment, or a line without `=`. */
  function ParseLine(line: string): (r: Option<(string, string)>)
    ensures r.Some? ==> Strip(line) != [] && Strip(line)[0] != '#' && Contains(Strip(line), "=")
  {
    var l := Strip(line);
    if l == [] || l[0] == '#' then None
    else
      match AfterFirst(l, "=")
      case None => None
      case Some(rest) => Some((Strip(BeforeFirst(l, "=")), Unquote(Strip(rest))))
  }

  /** What one `.env` line contributes: a key and a value, or nothing. */
  type Entry = Option<(string, string)>

  /** Adds one entry to the entries collected so far. */
  function Add(m: map<string, string>, e: Entry): map<string, string> {
    match e
    case None => m
    case Some(kv) => m[kv.0 := kv.1]
  }

  /** The entries in order: a later one for the same key replaces an
      earlier one. */
  function Collect(es: seq<Entry>): map<string, string> {
    if es == [] then map[] else Add(Collect(es[..|es| - 1]), es[|es| - 1])
  }

  /** What each line of a `.env` file contributes. */
  function Entries(lines: seq<string>): (es: seq<Entry>)
    ensures |es| == |lines|
  {
    seq(|lines|, i requires 0 <= i < |lines| => ParseLine(lines[i]))
  }

  /** The entries of the lines of a `.env` file. */
  function DotenvLines(lines: seq<string>): map<string, string> {
    Collect(Entries(lines))
  }

  /** `_parse_dotenv(path)` for the file's text, `None` when it is not a file. */
  function Dotenv(text: Option<string>): map<string, string> {
    if text.None? then map[] else DotenvLines(SplitLines(text.value))
  }

  /** Collecting one more entry. */
  lemma CollectStep(es: seq<Entry>, i: nat)
    requires i < |es|
    ensures Collect(es[..i + 1]) == Add(Collect(es[..i]), es[i])
  {
    assert es[..i + 1][..i] == es[..i];
  }

  /** `_parse_dotenv`: the loop over the file's lines. */
  method ParseDotenv(text: Option<string>) returns (result: map<string, string>)
    ensures result == Dotenv(text)
  {
    result := map[];
    if text.None? {
      return;
    }
    var lines := SplitLines(text.value);
    ghost var es := Entries(lines);
    var i := 0;
    while i < |lines|
      invariant i <= |lines|
      invariant result == Collect(es[..i])
    {
      var entry := ParseLine(lines[i]);
      assert entry == es[i];
      CollectStep(es, i);
      if entry.Some? {
        result := result[entry.value.0 := entry.value.1];
      }
      i := i + 1;
    }
    assert es[..|lines|] == es;
  }

  /** Entry `j` is for `key`. */
  predicate Defines(e: Entry, key: string) {
    e.Some? && e.value.0 == key
  }

  /** A key has an entry exactly when some line defines it. */
  lemma {:induction false} CollectKeys(es: seq<Entry>, key: string)
    ensures key in Collect(es) <==> exists j :: 0 <= j < |es| && Defines(es[j], key)
  {
    if es != [] {
      var p := es[..|es| - 1];
      var e := es[|es| - 1];
      assert es == p + [e];
      CollectKeys(p, key);
      if key in Collect(es) && !Defines(e, key) {
        var j :| 0 <= j < |p| && Defines(p[j], key);
        assert es[j] == p[j];
      }
      if (exists j :: 0 <= j < |es| && Defines(es[j], key)) && !Defines(e, key) {
        var j :| 0 <= j < |es| && Defines(es[j], key);
        assert j < |p| && p[j] == es[j];
      }
    }
  }

  /** The entry for a key is the value of the last line that defines it. */
  lemma {:induction false} CollectLastWins(es: seq<Entry>, key: string, j: nat)
    requires j < |es| && Defines(es[j], key)
    requires forall i :: j < i < |es| ==> !Defines(es[i], key)
    ensures key in Collect(es) && Collect(es)[key] == es[j].value.1
  {
    var p := es[..|es| - 1];
    var e := es[|es| - 1];
    assert es == p + [e];
    if j < |es| - 1 {
      assert p[j] == es[j];
      assert forall i :: j < i < |p| ==> p[i] == es[i];
      CollectLastWins(p, key, j);
    }
  }

  /** A line `key=value` whose key holds no `=` reads back as the key and
      the unquoted value, when neither side has white space at its ends. */
  lemma JoinedLine(key: string, value: string)
    requires key != [] && !IsSpace(key[0]) && !IsSpace(key[|key| - 1]) && key[0] != '#'
    requires !Contains(key, "=")
    requires value == [] || (!IsSpace(value[0]) && !IsSpace(value[|value| - 1]))
    ensures ParseLine(key + "=" + value) == Some((key, Unquote(value)))
  {
    var l := key + "=" + value;
    assert l[0] == key[0];
    assert !IsSpace(l[|l| - 1]) by {
      if value == [] {
        assert l[|l| - 1] == '=';
      } else {
        assert l[|l| - 1] == value[|value| - 1];
      }
    }
    StripNoop(l);
    NoSepBefore(key, value);
    BeforeFirstOfJoin(key, "=", value);
    AfterFirstOfJoin(key, "=", value);
    StripNoop(key);
    if value != [] {
      StripNoop(value);
    }
  }

  /** A line without `=` in its key, written as `key=value`, reads back as
      that entry, when neither side has white space at its ends and the
      value is not quoted. */
  lemma KeyValueLine(key: string, value: string)
    requires key != [] && !IsSpace(key[0]) && !IsSpace(key[|key| - 1]) && key[0] != '#'
    requires !Contains(key, "=")
    requires value == [] || (!IsSpace(value[0]) && !IsSpace(value[|value| - 1]))
    requires !(|value| >= 2 && value[0] == value[|value| - 1] && (value[0] == '"' || value[0] == '\''))
    ensures ParseLine(key + "=" + value) == Some((key, value))
  {
    JoinedLine(key, value);
  }

  /** A quoted value keeps its inner text, white space included. */
  lemma QuotedLine(key: string, inner: string, q: char)
    requires key != [] && !IsSpace(key[0]) && !IsSpace(key[|key| - 1]) && key[0] != '#'
    requires !Contains(key, "=")
    requires q == '"' || q == '\''
    ensures ParseLine(key + "=" + ([q] + inner + [q])) == Some((key, inner))
  {
    var value := [q] + inner + [q];
    JoinedLine(key, value);
    assert value[1..|value| - 1] == inner;
  }

  /** `=` cannot start inside a key that holds none. */
  lemma NoSepBefore(key: string, value: string)
    requires !Contains(key, "=")
    ensures forall j :: 0 <= j < |key| ==> !OccursAt(key + "=" + value, "=", j)
  {
    forall j | 0 <= j < |key| ensures !OccursAt(key + "=" + value, "=", j) {
      var s := key + "=" + value;
      assert s[j..j + 1] == key[j..j + 1];
      assert !OccursAt(key, "=", j);
    }
  }

  // -------------------------------------------------------------- coercion

  const Truthy: set<string> := {"1", "true", "yes"}

  /** `_coerce(value, type)`: `None` only where `int()` raises. */
  function Coerce(value: string, kind: Kind): (r: Option<Value>)
    ensures r.Some? ==> HasKind(r.value, kind)
    ensures r.None? <==> kind == IntKind && ParseInt(value).None?
  {
    match kind
    case IntKind => (match ParseInt(value) case None => None case Some(n) => Some(IntValue(n)))
    case BoolKind => Some(BoolValue(Lower(value) in Truthy))
    case StrKind => Some(StrValue(value))
  }

  /** `_coerce(str(i), int) == i`. */
  lemma CoerceIntRoundTrip(i: int)
    ensures Coerce(IntToString(i), IntKind) == Some(IntValue(i))
  {
    if i < 0 {
      var d := NatToString(-i);
      var s := "-" + d;
      assert s[1..] == d;
      DigitsNumeral(d);
      DigitsValueOfNat(-i);
      assert !IsSpace(s[|s| - 1]) by { assert s[|s| - 1] == d[|d| - 1]; }
      StripNoop(s);
    } else {
      ParseNatToString(i);
    }
  }

  /** Bool coercion ignores ASCII case: `"TRUE"`, `"Yes"` are true. */
  lemma CoerceBoolIgnoresCase(v: string)
    ensures Coerce(v, BoolKind) == Coerce(Lower(v), BoolKind)
  {
    assert Lower(Lower(v)) == Lower(v);
  }

  /** The spellings the tests use. */
  lemma CoerceBoolSpellings()
    ensures Coerce("1", BoolKind) == Some(BoolValue(true))
    ensures Coerce("true", BoolKind) == Some(BoolValue(true))
    ensures Coerce("yes", BoolKind) == Some(BoolValue(true))
    ensures Coerce("0", BoolKind) == Some(BoolValue(false))
    ensures Coerce("false", BoolKind) == Some(BoolValue(false))
    ensures Coerce("no", BoolKind) == Some(BoolValue(false))
  {
    assert Lower("1") == "1" && Lower("true") == "true" && Lower("yes") == "yes";
    assert Lower("0") == "0" && Lower("false") == "false" && Lower("no") == "no";
  }

  // ----------------------------------------------------------- load_config

  /** `_ENV_PREFIX + f.name.upper()`. */
  function EnvKey(name: string): string {
    "VIBE_" + Upper(name)
  }

  /** The text the loop considers for a key: the environment variable when
      it is set, otherwise the `.env` entry. */
  function Raw(env: map<string, string>, dotenv: map<string, string>, key: string): (r: Option<string>)
    ensures key in env ==> r == Some(env[key])
    ensures key !in env && key in dotenv ==> r == Some(dotenv[key])
    ensures key !in env && key !in dotenv ==> r == None
  {
    if key in env then Some(env[key]) else if key in dotenv then Some(dotenv[key]) else None
  }

  /** One iteration of the field loop, for field `f` at position `k` and
      the text `raw` found for it: `setattr` when the text coerces. */
  function Layer(c: Config, k: nat, f: Field, raw: Option<string>): (r: Config)
    requires k < |c|
    ensures |r| == |c|
  {
    match raw
    case None => c
    case Some(text) =>
      match Coerce(text, f.kind)
      case None => c
      case Some(v) => c[k := v]
  }

  /** The configuration after the loop has visited the first `k` fields of
      `fs`. */
  function LayerAll(fs: seq<Field>, k: nat, env: map<string, string>, dotenv: map<string, string>): (r: Config)
    requires k <= |fs|
    ensures |r| == |fs|
  {
    if k == 0 then DefaultsOf(fs)
    else Layer(LayerAll(fs, k - 1, env, dotenv), k - 1, fs[k - 1], Raw(env, dotenv, EnvKey(fs[k - 1].name)))
  }

  /** The loop visits one more field. */
  lemma LayerAllStep(fs: seq<Field>, k: nat, env: map<string, string>, dotenv: map<string, string>)
    requires k < |fs|
    ensures LayerAll(fs, k + 1, env, dotenv) == Layer(LayerAll(fs, k, env, dotenv), k, fs[k], Raw(env, dotenv, EnvKey(fs[k].name)))
  {
  }

  /** What field `f` ends up as after the loop, stated on its own: the
      coerced environment variable when it is set, otherwise the coerced
      `.env` entry, and the default when the text chosen does not coerce. */
  function Chosen(f: Field, env: map<string, string>, dotenv: map<string, string>): (v: Value)
    ensures HasKind(f.default, f.kind) ==> HasKind(v, f.kind)
  {
    var key := EnvKey(f.name);
    var raw := if key in env then Some(env[key]) else if key in dotenv then Some(dotenv[key]) else None;
    if raw.Some? && Coerce(raw.value, f.kind).Some? then Coerce(raw.value, f.kind).value else f.default
  }

  /** The priority of the sources for one field. An environment variable
      that does not coerce masks a `.env` entry that would: the field keeps
      its default. */
  lemma ChosenPriority(f: Field, env: map<string, string>, dotenv: map<string, string>)
    ensures var key := EnvKey(f.name);
      && (key in env && Coerce(env[key], f.kind).Some? ==> Chosen(f, env, dotenv) == Coerce(env[key], f.kind).value)
      && (key in env && Coerce(env[key], f.kind).None? ==> Chosen(f, env, dotenv) == f.default)
      && (key !in env && key in dotenv && Coerce(dotenv[key], f.kind).Some? ==> Chosen(f, env, dotenv) == Coerce(dotenv[key], f.kind).value)
      && (key !in env && key in dotenv && Coerce(dotenv[key], f.kind).None? ==> Chosen(f, env, dotenv) == f.default)
      && (key !in env && key !in dotenv ==> Chosen(f, env, dotenv) == f.default)
  {
  }

  /** One iteration sets the field it visits to what is chosen for it,
      when that field still holds its default. */
  lemma LayerChosen(c: Config, k: nat, f: Field, env: map<string, string>, dotenv: map<string, string>)
    requires k < |c| && c[k] == f.default
    ensures Layer(c, k, f, Raw(env, dotenv, EnvKey(f.name))) == c[k := Chosen(f, env, dotenv)]
  {
  }

  /** After the loop has visited the first `k` fields, those hold what was
      chosen for them and the rest hold their defaults. */
  lemma {:induction false} LayerAllAt(fs: seq<Field>, k: nat, env: map<string, string>, dotenv: map<string, string>, j: nat)
    requires k <= |fs| && j < |fs|
    ensures LayerAll(fs, k, env, dotenv)[j] == if j < k then Chosen(fs[j], env, dotenv) else fs[j].default
  {
    if k > 0 {
      var c := LayerAll(fs, k - 1, env, dotenv);
      LayerAllAt(fs, k - 1, env, dotenv, j);
      LayerAllAt(fs, k - 1, env, dotenv, k - 1);
      LayerChosen(c, k - 1, fs[k - 1], env, dotenv);
    }
  }

  /** The loop keeps every field typed. */
  lemma LayerAllTyped(fs: seq<Field>, env: map<string, string>, dotenv: map<string, string>)
    requires DefaultsTyped(fs)
    ensures Typed(LayerAll(fs, |fs|, env, dotenv), fs)
  {
    forall j | 0 <= j < |fs|
      ensures HasKind(LayerAll(fs, |fs|, env, dotenv)[j], fs[j].kind)
    {
      LayerAllAt(fs, |fs|, env, dotenv, j);
    }
  }

  /** The range checks at the end of `load_config`: afterwards `timeout` is
      positive, `max_retries` is not negative and `max_workers` is positive;
      a field already in range keeps its value, one out of range gets 600, 2
      and 1, and every other field is left alone. */
  function Clamp(c: Config): (r: Config)
    requires |c| == |Fields|
    requires c[TimeoutAt].IntValue? && c[MaxRetriesAt].IntValue? && c[MaxWorkersAt].IntValue?
    ensures |r| == |c|
    ensures r[TimeoutAt] == if c[TimeoutAt].i <= 0 then IntValue(600) else c[TimeoutAt]
    ensures r[MaxRetriesAt] == if c[MaxRetriesAt].i < 0 then IntValue(2) else c[MaxRetriesAt]
    ensures r[MaxWorkersAt] == if c[MaxWorkersAt].i < 1 then IntValue(1) else c[MaxWorkersAt]
    ensures r[TimeoutAt].i > 0 && r[MaxRetriesAt].i >= 0 && r[MaxWorkersAt].i >= 1
    ensures forall j :: 0 <= j < |c| && j != TimeoutAt && j != MaxRetriesAt && j != MaxWorkersAt ==> r[j] == c[j]
  {
    var c1 := if c[TimeoutAt].i <= 0 then c[TimeoutAt := IntValue(600)] else c;
    var c2 := if c1[MaxRetriesAt].i < 0 then c1[MaxRetriesAt := IntValue(2)] else c1;
    if c2[MaxWorkersAt].i < 1 then c2[MaxWorkersAt := IntValue(1)] else c2
  }

  /** The defaults of `Config` have their fields' types. */
  lemma FieldsTyped()
    ensures DefaultsTyped(Fields)
  {
  }

  /** The fields the loop leaves, before the range checks. */
  function Merged(env: map<string, string>, text: Option<string>): Config {
    LayerAll(Fields, |Fields|, env, Dotenv(text))
  }

  /** The loop leaves integers in the range-checked fields. */
  lemma MergedInts(env: map<string, string>, text: Option<string>)
    ensures var m := Merged(env, text);
      m[TimeoutAt].IntValue? && m[MaxRetriesAt].IntValue? && m[MaxWorkersAt].IntValue?
  {
    var m := Merged(env, text);
    FieldsTyped();
    LayerAllTyped(Fields, env, Dotenv(text));
    assert HasKind(m[TimeoutAt], Fields[TimeoutAt].kind);
    assert HasKind(m[MaxRetriesAt], Fields[MaxRetriesAt].kind);
    assert HasKind(m[MaxWorkersAt], Fields[MaxWorkersAt].kind);
  }

  /** `load_config`: the defaults, then `.env`, then the environment, then
      the range checks. */
  function Loaded(env: map<string, string>, text: Option<string>): (c: Config)
    ensures |c| == |Fields|
  {
    MergedInts(env, text);
    Clamp(Merged(env, text))
  }

  /** `load_config` returns a well-formed `Config`. */
  lemma LoadedWellTyped(env: map<string, string>, text: Option<string>)
    ensures WellTyped(Loaded(env, text))
  {
    FieldsTyped();
    LayerAllTyped(Fields, env, Dotenv(text));
  }

  /** After `load_config`, `timeout` is positive, `max_retries` is not
      negative and `max_workers` is positive, and the fields the command
      line sets have their types. */
  lemma LoadedInRange(env: map<string, string>, text: Option<string>)
    ensures var c := Loaded(env, text);
      && c[TimeoutAt].IntValue? && c[TimeoutAt].i > 0
      && c[MaxRetriesAt].IntValue? && c[MaxRetriesAt].i >= 0
      && c[MaxWorkersAt].IntValue? && c[MaxWorkersAt].i >= 1
      && c[WorkspaceAt].StrValue? && c[DockerImageAt].StrValue?
      && c[UseWorktreeAt].BoolValue? && c[PlanModeAt].BoolValue?
      && c[PlanAutoApproveAt].BoolValue? && c[UseDockerAt].BoolValue?
  {
    var c := Loaded(env, text);
    LoadedWellTyped(env, text);
    assert HasKind(c[WorkspaceAt], Fields[WorkspaceAt].kind);
    assert HasKind(c[DockerImageAt], Fields[DockerImageAt].kind);
    assert HasKind(c[UseWorktreeAt], Fields[UseWorktreeAt].kind);
    assert HasKind(c[PlanModeAt], Fields[PlanModeAt].kind);
    assert HasKind(c[PlanAutoApproveAt], Fields[PlanAutoApproveAt].kind);
    assert HasKind(c[UseDockerAt], Fields[UseDockerAt].kind);
  }

  /** Every field that is not range-checked holds what was chosen for it. */
  lemma LoadedField(env: map<string, string>, text: Option<string>, j: nat)
    requires j < |Fields| && j != TimeoutAt && j != MaxRetriesAt && j != MaxWorkersAt
    ensures Loaded(env, text)[j] == Chosen(Fields[j], env, Dotenv(text))
  {
    LayerAllAt(Fields, |Fields|, env, Dotenv(text), j);
  }

  /** A range-checked field holds what was chosen for it when that is in
      range, and its reset value otherwise. */
  lemma LoadedRanges(env: map<string, string>, text: Option<string>)
    ensures var d := Dotenv(text); var c := Loaded(env, text);
      var t := Chosen(Fields[TimeoutAt], env, d);
      var r := Chosen(Fields[MaxRetriesAt], env, d);
      var w := Chosen(Fields[MaxWorkersAt], env, d);
      && c[TimeoutAt] == (if t.i <= 0 then IntValue(600) else t)
      && c[MaxRetriesAt] == (if r.i < 0 then IntValue(2) else r)
      && c[MaxWorkersAt] == (if w.i < 1 then IntValue(1) else w)
  {
    var d := Dotenv(text);
    LayerAllAt(Fields, |Fields|, env, d, TimeoutAt);
    LayerAllAt(Fields, |Fields|, env, d, MaxRetriesAt);
    LayerAllAt(Fields, |Fields|, env, d, MaxWorkersAt);
  }

  /** With no `VIBE_` variable and no `.env` file, `load_config` returns
      `Config()`. */
  lemma LoadedDefaults(env: map<string, string>)
    requires forall j :: 0 <= j < |Fields| ==> EnvKey(Fields[j].name) !in env
    ensures Loaded(env, None) == Defaults()
  {
    forall j | 0 <= j < |Fields|
      ensures Loaded(env, None)[j] == Defaults()[j]
    {
      LayerAllAt(Fields, |Fields|, env, map[], j);
    }
  }

  /** The field loop of `load_config` over the fields `fs`, with the
      entries `dotenv` read from `.env`. */
  method MergeFields(fs: seq<Field>, env: map<string, string>, dotenv: map<string, string>) returns (config: Config)
    ensures config == LayerAll(fs, |fs|, env, dotenv)
  {
    config := DefaultsOf(fs);
    var k := 0;
    while k < |fs|
      invariant k <= |fs|
      invariant config == LayerAll(fs, k, env, dotenv)
    {
      ghost var before := config;
      var f := fs[k];
      var envKey := EnvKey(f.name);
      var raw: Option<string> := if envKey in dotenv then Some(dotenv[envKey]) else None;
      if envKey in env {
        raw := Some(env[envKey]);
      }
      assert raw == Raw(env, dotenv, envKey);
      if raw.Some? {
        var coerced := Coerce(raw.value, f.kind);
        if coerced.Some? {
          config := config[k := coerced.value];
        }
      }
      assert config == Layer(before, k, f, raw);
      LayerAllStep(fs, k, env, dotenv);
      k := k + 1;
    }
  }

  /** `load_config(workspace)`. */
  method LoadConfig(env: map<string, string>, text: Option<string>) returns (config: Config)
    ensures config == Loaded(env, text)
  {
    var dotenv := ParseDotenv(text);
    config := MergeFields(Fields, env, dotenv);
    ghost var merged := config;
    assert merged == Merged(env, text);
    MergedInts(env, text);
    if config[TimeoutAt].i <= 0 {
      config := config[TimeoutAt := IntValue(600)];
    }
    if config[MaxRetriesAt].i < 0 {
      config := config[MaxRetriesAt := IntValue(2)];
    }
    if config[MaxWorkersAt].i < 1 {
      config := config[MaxWorkersAt := IntValue(1)];
    }
    assert config == Clamp(merged);
  }
}
