/**
 * Naming a new task file, as `vibe add` (`cmd_add` in `__main__.py`) and
 * the dashboard's `POST /api/tasks` (`add_task` in `server.py`) both do
 * it: the next number is one more than the largest number found before the
 * first `_` of a pending file's stem, and the name is that number padded to
 * three digits, `_`, and a slug of the description.
 */
module Numbering {
  import opened Wrappers
  import opened Strings
  import opened Tasks

  /** `stem.split("_", 1)[0]`: the stem up to its first `_`. */
  function NumberPart(stem: string): string {
    BeforeFirst(stem, "_")
  }

  /** The number part is a prefix of the stem without `_`. */
  lemma NumberPartShape(stem: string)
    ensures StartsWith(stem, NumberPart(stem)) && !Contains(NumberPart(stem), "_")
  {
    BeforeFirstFree(stem, "_");
  }

  /** `int(f.stem.split("_", 1)[0])` for a file name; `None` where `int`
      raises `ValueError`. */
  function FileNumber(name: string): Option<int> {
    ParseInt(NumberPart(Stem(name)))
  }

  /** One step of the numbering loop: a parsed number larger than `m`
      replaces it. */
  function Raise(m: nat, x: Option<int>): nat {
    match x
    case None => m
    case Some(n) => if n > m then n else m
  }

  /** `max_num` after the numbering loop has visited `names`, reading the
      number of each name with `num`: it starts at 0, and each number that
      parsed raises it to that number. */
  function ScanOf(names: seq<string>, num: string -> Option<int>): nat {
    if names == [] then 0 else Raise(ScanOf(names[..|names| - 1], num), num(names[|names| - 1]))
  }

  /** `max_num` after the numbering loop of `cmd_add` and `add_task`. */
  function MaxNumber(names: seq<string>): nat {
    ScanOf(names, FileNumber)
  }

  /** Every number read is at most the result, and the result is 0 or one
      of the numbers; names whose prefix is not a number are ignored. */
  lemma {:induction false} ScanOfBounds(names: seq<string>, num: string -> Option<int>)
    ensures forall i :: 0 <= i < |names| && num(names[i]).Some? ==> num(names[i]).value <= ScanOf(names, num)
    ensures ScanOf(names, num) == 0 || exists i :: 0 <= i < |names| && num(names[i]) == Some(ScanOf(names, num) as int)
  {
    if names != [] {
      var p := names[..|names| - 1];
      ScanOfBounds(p, num);
      forall i | 0 <= i < |names| && num(names[i]).Some?
        ensures num(names[i]).value <= ScanOf(names, num)
      {
        if i < |p| {
          assert names[i] == p[i];
        }
      }
      if ScanOf(names, num) != 0 && ScanOf(names, num) == ScanOf(p, num) {
        var i :| 0 <= i < |p| && num(p[i]) == Some(ScanOf(p, num) as int);
        assert names[i] == p[i];
      }
    }
  }

  /** One more name seen. */
  lemma ScanOfStep(names: seq<string>, num: string -> Option<int>, i: nat, m: nat, x: Option<int>)
    requires i < |names| && m == ScanOf(names[..i], num) && x == num(names[i])
    ensures ScanOf(names[..i + 1], num) == Raise(m, x)
  {
    assert names[..i + 1][..i] == names[..i];
  }

  /** The numbering loop of `cmd_add` and `add_task` over the sorted
      pending files. */
  method ScanMaxNumber(names: seq<string>) returns (maxNum: nat)
    ensures maxNum == MaxNumber(names)
  {
    maxNum := 0;
    var i := 0;
    while i < |names|
      invariant i <= |names|
      invariant maxNum == ScanOf(names[..i], FileNumber)
    {
      ghost var before := maxNum;
      var parsed := ParseNumber(names[i]);
      match parsed {
        case None =>
        case Some(n) =>
          if n > maxNum {
            maxNum := n;
          }
      }
      assert maxNum == Raise(before, parsed);
      ScanOfStep(names, FileNumber, i, before, parsed);
      i := i + 1;
    }
    assert names[..|names|] == names;
  }

  /** The `try` of the numbering loop: `int(f.stem.split("_", 1)[0])`,
      `None` where it raises `ValueError`. */
  method ParseNumber(name: string) returns (r: Option<int>)
    ensures r == FileNumber(name)
  {
    r := ParseInt(NumberPart(Stem(name)));
  }

  /** The number the next task file gets in a task directory holding the
      files `tasks`. */
  function NextNumber(tasks: map<string, string>): nat {
    MaxNumber(Sorted(MdFiles(tasks))) + 1
  }

  /** The next number is one more than the largest number of a pending
      file, and 1 when there is none or none of them is numbered. */
  lemma NextNumberBounds(tasks: map<string, string>)
    ensures forall f :: f in MdFiles(tasks) && FileNumber(f).Some? ==> FileNumber(f).value < NextNumber(tasks)
    ensures NextNumber(tasks) == 1 || exists f :: f in MdFiles(tasks) && FileNumber(f) == Some(NextNumber(tasks) as int - 1)
    ensures MdFiles(tasks) == {} ==> NextNumber(tasks) == 1
  {
    var names := Sorted(MdFiles(tasks));
    ScanOfBounds(names, FileNumber);
    forall f | f in MdFiles(tasks) && FileNumber(f).Some?
      ensures FileNumber(f).value < NextNumber(tasks)
    {
      var i :| 0 <= i < |names| && names[i] == f;
    }
  }

  /** `description[:30].replace(" ", "_").replace("/", "_")`. */
  function Slug(description: string): string {
    var head := if |description| <= 30 then description else description[..30];
    ReplaceAll(ReplaceAll(head, " ", "_"), "/", "_")
  }

  /** The slug is the first 30 characters of the description with every
      space and every `/` turned into `_`. */
  lemma SlugShape(description: string)
    ensures |Slug(description)| == if |description| <= 30 then |description| else 30
    ensures forall i :: 0 <= i < |Slug(description)| ==>
      Slug(description)[i] == if description[i] == ' ' || description[i] == '/' then '_' else description[i]
  {
    var head := if |description| <= 30 then description else description[..30];
    var once := ReplaceAll(head, " ", "_");
    ReplaceCharLength(head, ' ', '_');
    ReplaceCharLength(once, '/', '_');
    forall i | 0 <= i < |Slug(description)|
      ensures Slug(description)[i] == if description[i] == ' ' || description[i] == '/' then '_' else description[i]
    {
      ReplaceCharAt(head, ' ', '_', i);
      ReplaceCharAt(once, '/', '_', i);
      assert head[i] == description[i];
    }
  }

  /** `f"{next_num:03d}_{slug}.md"`. */
  function TaskFileName(n: nat, slug: string): string {
    ZeroPad3(n) + "_" + slug + ".md"
  }

  /** A task file name is listed by `glob("*.md")` and carries its own
      number. */
  lemma TaskFileNameNumber(n: nat, slug: string)
    ensures IsMdName(TaskFileName(n, slug))
    ensures FileNumber(TaskFileName(n, slug)) == Some(n)
  {
    var digits := ZeroPad3(n);
    var base := digits + "_" + slug;
    StemOfMd(base);
    forall j | 0 <= j < |digits| ensures !OccursAt(base, "_", j) {
      assert base[j..j + 1] == [digits[j]];
    }
    BeforeFirstOfJoin(digits, "_", slug);
    ParseZeroPad3(n);
    var name := base + ".md";
    assert name[|name| - 3..] == ".md";
  }

  /** The new file never replaces a file of the task directory: its number
      is larger than that of every pending file, and it is a pending file
      name itself. */
  lemma NewNameFresh(tasks: map<string, string>, slug: string)
    ensures TaskFileName(NextNumber(tasks), slug) !in tasks
  {
    var name := TaskFileName(NextNumber(tasks), slug);
    TaskFileNameNumber(NextNumber(tasks), slug);
    NextNumberBounds(tasks);
  }
}
