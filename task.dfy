/**
 * The file-backed task queue of `vibe/task.py`.
 *
 * A task is a Markdown file in the tasks directory. Claiming renames it to
 * `<name>.md.running.<worker>`; completing moves it to `done/` under a
 * timestamped name; failing either puts it back as `<name>.md` with a
 * failure header and an increased `<!-- RETRY: n -->` marker, or, once the
 * retries are exhausted, moves it to `failed/` under a final-failure header.
 * The directories are modelled as maps from file name to file content.
 */
module Tasks {
  import opened Wrappers
  import opened Strings

  /** Files larger than this many bytes are not executed. */
  const MaxTaskFileSize: nat := 1024 * 1024

  // ==================================================== the retry marker

  /*
   * The marker pattern `<!--\s*RETRY:\s*(\d+)\s*-->` as a deterministic
   * automaton. Every state has at most one successor for a character and the
   * only accepting state has none, so the automaton finds exactly the match
   * the regular expression finds at a position.
   */
  datatype MarkerState =
    | Open(k: nat)          // k characters of "<!--" read
    | Pad1                  // white space before "RETRY:"
    | Word(k: nat)          // k characters of "RETRY:" read
    | Pad2                  // white space before the digits
    | Num(v: nat)           // digits read so far, value v
    | Pad3(v: nat)          // white space after the digits
    | Close(k: nat, v: nat) // k characters of "-->" read

  const Opener: string := "<!--"
  const Keyword: string := "RETRY:"
  const Closer: string := "-->"

  predicate Accepting(st: MarkerState) {
    st.Close? && st.k == 3
  }

  function Step(st: MarkerState, c: char): Option<MarkerState> {
    match st
    case Open(k) =>
      if k < 4 && c == Opener[k] then Some(if k == 3 then Pad1 else Open(k + 1)) else None
    case Pad1 =>
      if IsSpace(c) then Some(Pad1) else if c == 'R' then Some(Word(1)) else None
    case Word(k) =>
      if 1 <= k < 6 && c == Keyword[k] then Some(if k == 5 then Pad2 else Word(k + 1)) else None
    case Pad2 =>
      if IsSpace(c) then Some(Pad2) else if IsDigit(c) then Some(Num(DigitValue(c))) else None
    case Num(v) =>
      if IsDigit(c) then Some(Num(10 * v + DigitValue(c)))
      else if IsSpace(c) then Some(Pad3(v))
      else if c == '-' then Some(Close(1, v))
      else None
    case Pad3(v) =>
      if IsSpace(c) then Some(Pad3(v)) else if c == '-' then Some(Close(1, v)) else None
    case Close(k, v) =>
      if 1 <= k < 3 && c == Closer[k] then Some(Close(k + 1, v)) else None
  }

  /** Runs the automaton from `st` over a prefix of `t`; on a match, the number
      captured and the number of characters the match spans. */
  function Run(t: string, st: MarkerState): (r: Option<(nat, nat)>)
    ensures r.Some? ==> r.value.1 <= |t|
    ensures r.Some? && !Accepting(st) ==> r.value.1 >= 1
    decreases |t|
  {
    if Accepting(st) then Some((st.v, 0))
    else if t == [] then None
    else match Step(st, t[0])
      case None => None
      case Some(next) =>
        match Run(t[1..], next)
        case None => None
        case Some(res) => Some((res.0, res.1 + 1))
  }

  /** The match of the pattern that starts at the first character of `t`. */
  function MarkerAt(t: string): Option<(nat, nat)> {
    Run(t, Open(0))
  }

  /** The numbers of the non-overlapping matches, left to right, as
      `re.finditer` reports them. */
  function Markers(t: string): seq<nat>
    decreases |t|
  {
    if t == [] then []
    else match MarkerAt(t)
      case Some(m) => [m.0] + Markers(t[m.1..])
      case None => Markers(t[1..])
  }

  /** `re.sub(pattern, m, t)`. */
  function ReplaceMarkers(t: string, m: string): string
    decreases |t|
  {
    if t == [] then []
    else match MarkerAt(t)
      case Some(k) => m + ReplaceMarkers(t[k.1..], m)
      case None => [t[0]] + ReplaceMarkers(t[1..], m)
  }

  /** The marker line written for `n` retries. */
  function RetryMarker(n: nat): string {
    "<!-- RETRY: " + NatToString(n) + " -->"
  }

  /** `extract_retry_count`: the number in the first marker, 0 without one. */
  function ExtractRetryCount(content: string): nat {
    var ms := Markers(content);
    if ms == [] then 0 else ms[0]
  }

  /** `set_retry_count`: every marker rewritten to `n`, or a marker line put in
      front of a text that has none. */
  function SetRetryCount(content: string, n: nat): string {
    if Markers(content) != [] then ReplaceMarkers(content, RetryMarker(n))
    else RetryMarker(n) + "\n" + content
  }

  function Repeat(n: nat, k: nat): (r: seq<nat>)
    ensures |r| == k && forall i :: 0 <= i < k ==> r[i] == n
  {
    seq(k, _ => n)
  }

  // ---------------------------------------------- walking a known prefix

  datatype Progress = Dead | Done(v: nat, n: nat) | Live(st: MarkerState)

  /** The automaton's progress after reading exactly `w` from `st`. */
  function Walk(w: string, st: MarkerState): Progress
    decreases |w|
  {
    if Accepting(st) then Done(st.v, 0)
    else if w == [] then Live(st)
    else match Step(st, w[0])
      case None => Dead
      case Some(next) =>
        match Walk(w[1..], next)
        case Done(v, n) => Done(v, n + 1)
        case other => other
  }

  function Shift(r: Option<(nat, nat)>, d: nat): Option<(nat, nat)> {
    match r
    case None => None
    case Some(x) => Some((x.0, x.1 + d))
  }

  function Resume(p: Progress, y: string, d: nat): Option<(nat, nat)> {
    match p
    case Dead => None
    case Done(v, n) => Some((v, n))
    case Live(st) => Shift(Run(y, st), d)
  }

  lemma {:induction false} RunWalk(w: string, y: string, st: MarkerState)
    ensures Run(w + y, st) == Resume(Walk(w, st), y, |w|)
    decreases |w|
  {
    if Accepting(st) {
    } else if w == [] {
      assert w + y == y;
      match Run(y, st) { case None => case Some(x) => }
    } else {
      assert (w + y)[0] == w[0];
      assert (w + y)[1..] == w[1..] + y;
      match Step(st, w[0])
      case None =>
      case Some(next) =>
        RunWalk(w[1..], y, next);
        RunWalkStep(w, y, st, next);
    }
  }

  /** One step of `RunWalk`: the claim for `w` from the claim for its tail. */
  lemma RunWalkStep(w: string, y: string, st: MarkerState, next: MarkerState)
    requires !Accepting(st) && w != [] && Step(st, w[0]) == Some(next)
    requires (w + y)[1..] == w[1..] + y
    requires Run(w[1..] + y, next) == Resume(Walk(w[1..], next), y, |w| - 1)
    ensures Run(w + y, st) == Resume(Walk(w, st), y, |w|)
  {
    var r := Run(w[1..] + y, next);
    var p := Walk(w[1..], next);
    assert Run(w + y, st) == Shift(r, 1);
    assert Walk(w, st) == if p.Done? then Done(p.v, p.n + 1) else p;
    ResumeStep(p, y, |w| - 1);
  }

  /** Reading one more character in front shifts what is resumed by one. */
  lemma ResumeStep(p: Progress, y: string, d: nat)
    ensures Shift(Resume(p, y, d), 1) == Resume(if p.Done? then Done(p.v, p.n + 1) else p, y, d + 1)
  {
  }

  /** Progress over `a + b` from the progress over `a` (`d == |a|`). */
  function Chain(p: Progress, b: string, d: nat): Progress {
    match p
    case Dead => Dead
    case Done(v, n) => Done(v, n)
    case Live(st) =>
      match Walk(b, st)
      case Done(v, n) => Done(v, n + d)
      case other => other
  }

  lemma {:induction false} WalkConcat(a: string, b: string, st: MarkerState)
    ensures Walk(a + b, st) == Chain(Walk(a, st), b, |a|)
    decreases |a|
  {
    if Accepting(st) {
    } else if a == [] {
      assert a + b == b;
      match Walk(b, st) { case Dead => case Done(v, n) => case Live(s) => }
    } else {
      assert (a + b)[0] == a[0];
      assert (a + b)[1..] == a[1..] + b;
      match Step(st, a[0])
      case None =>
      case Some(next) =>
        WalkConcat(a[1..], b, next);
        match Walk(a[1..], next) {
          case Dead =>
          case Done(v, n) =>
          case Live(s) => match Walk(b, s) { case Dead => case Done(v, n) => case Live(s') => }
        }
    }
  }

  /** One character of progress. */
  lemma WalkOne(c: char, st: MarkerState)
    requires !Accepting(st)
    ensures Walk([c], st) == match Step(st, c)
      case None => Dead
      case Some(next) => if Accepting(next) then Done(next.v, 1) else Live(next)
  {
    assert [c][1..] == [];
  }

  lemma {:induction false} WalkOpener(k: nat)
    requires k <= 3
    ensures Walk(Opener[k..], Open(k)) == Live(Pad1)
    decreases 3 - k
  {
    WalkOne(Opener[k], Open(k));
    assert Opener[k..] == [Opener[k]] + Opener[k + 1..];
    if k < 3 {
      WalkOpener(k + 1);
    } else {
      assert Opener[k + 1..] == [];
    }
    WalkConcat([Opener[k]], Opener[k + 1..], Open(k));
  }

  lemma {:induction false} WalkKeyword(k: nat)
    requires 1 <= k <= 5
    ensures Walk(Keyword[k..], Word(k)) == Live(Pad2)
    decreases 5 - k
  {
    WalkOne(Keyword[k], Word(k));
    assert Keyword[k..] == [Keyword[k]] + Keyword[k + 1..];
    if k < 5 {
      WalkKeyword(k + 1);
    } else {
      assert Keyword[k + 1..] == [];
    }
    WalkConcat([Keyword[k]], Keyword[k + 1..], Word(k));
  }

  lemma {:induction false} WalkDigitsFrom(d: string)
    requires d != [] && AllDigits(d)
    ensures Walk(d, Pad2) == Live(Num(DigitsValue(d)))
    decreases |d|
  {
    var init := d[..|d| - 1];
    var c := d[|d| - 1];
    assert d == init + [c];
    WalkOne(c, Pad2);
    if init != [] {
      WalkDigitsFrom(init);
      WalkConcat(init, [c], Pad2);
      WalkOne(c, Num(DigitsValue(init)));
    }
  }

  /** The marker text up to its digits leads to the state that reads them. */
  lemma WalkMarkerHead()
    ensures Walk("<!-- RETRY: ", Open(0)) == Live(Pad2)
  {
    var h := "<!-- RETRY: ";
    assert h == Opener + (" " + ("R" + (Keyword[1..] + " ")));
    WalkOpener(0);
    assert Opener[0..] == Opener;
    WalkOne(' ', Pad1);
    WalkOne('R', Pad1);
    WalkKeyword(1);
    WalkOne(' ', Pad2);
    WalkConcat(Keyword[1..], " ", Word(1));
    WalkConcat("R", Keyword[1..] + " ", Pad1);
    WalkConcat(" ", "R" + (Keyword[1..] + " "), Pad1);
    WalkConcat(Opener, " " + ("R" + (Keyword[1..] + " ")), Open(0));
  }

  /** The marker text after its digits completes the match. */
  lemma WalkMarkerTail(v: nat)
    ensures Walk(" -->", Num(v)) == Done(v, 4)
  {
    var t := " -->";
    assert t == " " + ("-" + ("-" + ">"));
    WalkOne(' ', Num(v));
    WalkOne('-', Pad3(v));
    WalkOne('-', Close(1, v));
    WalkOne('>', Close(2, v));
    WalkConcat("-", ">", Close(1, v));
    WalkConcat("-", "-" + ">", Pad3(v));
    WalkConcat(" ", "-" + ("-" + ">"), Num(v));
  }

  /** The marker written for `n` is matched at its own start, with value `n`
      and its full length, whatever follows it. */
  lemma MarkerMatchesItself(n: nat, y: string)
    ensures MarkerAt(RetryMarker(n) + y) == Some((n, |RetryMarker(n)|))
  {
    MarkerWalk(n);
    RunWalk(RetryMarker(n), y, Open(0));
  }

  /** The automaton reads the whole marker written for `n` and accepts `n`. */
  lemma MarkerWalk(n: nat)
    ensures Walk(RetryMarker(n), Open(0)) == Done(n, |RetryMarker(n)|)
  {
    var head := "<!-- RETRY: ";
    var d := NatToString(n);
    var tail := " -->";
    WalkDigitsFrom(d);
    DigitsValueOfNat(n);
    WalkMarkerTail(n);
    WalkConcat(d, tail, Pad2);
    assert Walk(d + tail, Pad2) == Done(n, |d| + 4);
    WalkMarkerHead();
    WalkConcat(head, d + tail, Open(0));
    MarkerSplit(n);
  }

  lemma MarkerSplit(n: nat)
    ensures RetryMarker(n) == "<!-- RETRY: " + (NatToString(n) + " -->")
  {
  }

  // ------------------------------------------------- where '<' can be read

  /** Only the initial state accepts `'<'`, and no step returns to it. */
  lemma {:induction false} RunReadsNoLt(a: string, st: MarkerState)
    requires st != Open(0)
    requires Run(a, st).Some?
    ensures forall j :: 0 <= j < Run(a, st).value.1 ==> a[j] != '<'
    decreases |a|
  {
    if !Accepting(st) {
      var next := Step(st, a[0]).value;
      RunReadsNoLt(a[1..], next);
      forall j | 0 <= j < Run(a, st).value.1 ensures a[j] != '<' {
        if j > 0 { assert a[j] == a[1..][j - 1]; }
      }
    }
  }

  /** A match depends only on the characters it spans. */
  lemma {:induction false} RunPrefix(a: string, b: string, st: MarkerState)
    requires Run(a, st).Some?
    requires Run(a, st).value.1 <= |b| && a[..Run(a, st).value.1] == b[..Run(a, st).value.1]
    ensures Run(b, st) == Run(a, st)
    decreases |a|
  {
    if !Accepting(st) {
      var L := Run(a, st).value.1;
      assert a[0] == a[..L][0] == b[..L][0] == b[0];
      var next := Step(st, a[0]).value;
      assert a[1..][..L - 1] == a[..L][1..] == b[..L][1..] == b[1..][..L - 1];
      RunPrefix(a[1..], b[1..], next);
    }
  }

  /** No match starts at a character other than `'<'`. */
  lemma NoMatchWithoutLt(t: string)
    requires t != [] && t[0] != '<'
    ensures MarkerAt(t) == None
  {
    assert Opener[0] == '<';
    assert Step(Open(0), t[0]) == None;
  }

  /** A position without a match is passed over. */
  lemma PassOver(u: string, m: string)
    requires u != [] && MarkerAt(u) == None
    ensures Markers(u) == Markers(u[1..])
    ensures ReplaceMarkers(u, m) == [u[0]] + ReplaceMarkers(u[1..], m)
  {
  }

  /** A match is reported and jumped over. */
  lemma TakeMatch(u: string, m: string)
    requires u != [] && MarkerAt(u).Some?
    ensures Markers(u) == [MarkerAt(u).value.0] + Markers(u[MarkerAt(u).value.1..])
    ensures ReplaceMarkers(u, m) == m + ReplaceMarkers(u[MarkerAt(u).value.1..], m)
  {
  }

  /** Text without `'<'` holds no match. */
  lemma {:induction false} NoLtNoMarkers(w: string, x: string)
    requires '<' !in w
    ensures Markers(w + x) == Markers(x)
    decreases |w|
  {
    if w == [] {
      assert w + x == x;
    } else {
      NoMatchWithoutLt(w + x);
      assert (w + x)[1..] == w[1..] + x;
      assert w == [w[0]] + w[1..];
      NoLtNoMarkers(w[1..], x);
    }
  }

  /** Text without `'<'` is left alone by the rewriting. */
  lemma {:induction false} NoLtNoRewrite(w: string, x: string, m: string)
    requires '<' !in w
    ensures ReplaceMarkers(w + x, m) == w + ReplaceMarkers(x, m)
    decreases |w|
  {
    if w == [] {
      assert w + x == x;
    } else {
      NoMatchWithoutLt(w + x);
      assert (w + x)[1..] == w[1..] + x;
      assert w == [w[0]] + w[1..];
      NoLtNoRewrite(w[1..], x, m);
      var r := ReplaceMarkers(x, m);
      calc {
        ReplaceMarkers(w + x, m);
        [(w + x)[0]] + ReplaceMarkers((w + x)[1..], m);
        [w[0]] + (w[1..] + r);
        ([w[0]] + w[1..]) + r;
      }
    }
  }

  lemma NoLtInert(w: string, x: string, m: string)
    requires '<' !in w
    ensures Markers(w + x) == Markers(x)
    ensures ReplaceMarkers(w + x, m) == w + ReplaceMarkers(x, m)
  {
    NoLtNoMarkers(w, x);
    NoLtNoRewrite(w, x, m);
  }

  /** Index of the first `'<'` in `y`, or `|y|`. */
  function FirstLt(y: string): (k: nat)
    ensures k <= |y| && (k < |y| ==> y[k] == '<')
    ensures forall i :: 0 <= i < k ==> y[i] != '<'
  {
    if y == [] || y[0] == '<' then 0 else 1 + FirstLt(y[1..])
  }

  /** A rewritten text whose marker text starts with `'<'` has a `'<'` where the
      original had its first one and the same characters before it. */
  lemma ReplaceUpToLt(y: string, m: string)
    requires m != [] && m[0] == '<'
    ensures var k := FirstLt(y); var x := ReplaceMarkers(y, m);
      k <= |x| && x[..k] == y[..k] && (k < |y| ==> k < |x| && x[k] == '<') && (k == |y| ==> x == y)
  {
    var k := FirstLt(y);
    assert y == y[..k] + y[k..];
    NoLtInert(y[..k], y[k..], m);
    var rest := y[k..];
    if k < |y| {
      assert rest[0] == '<';
      match MarkerAt(rest) { case Some(_) => case None => }
    } else {
      assert rest == [];
    }
  }

  /** Rewriting behind a position that holds no match creates none there. */
  lemma NoNewMatch(t: string, m: string)
    requires t != [] && MarkerAt(t) == None
    requires m != [] && m[0] == '<'
    ensures MarkerAt([t[0]] + ReplaceMarkers(t[1..], m)) == None
  {
    var y := t[1..];
    var x := ReplaceMarkers(y, m);
    var a := [t[0]] + x;
    var k := FirstLt(y);
    ReplaceUpToLt(y, m);
    if MarkerAt(a).Some? {
      var L := MarkerAt(a).value.1;
      if k == |y| {
        assert false;
      }
      if L > 1 + k {
        var next := Step(Open(0), a[0]).value;
        RunReadsNoLt(a[1..], next);
        assert false;
      }
      assert t == [t[0]] + y;
      HeadPrefix(t[0], x, y, k, L);
      RunPrefix(a, t, Open(0));
      assert false;
    }
  }

  /** Texts that agree on their first `k` characters still agree, up to
      `k + 1`, with one character put in front of each. */
  lemma HeadPrefix(c: char, x: string, y: string, k: nat, L: nat)
    requires k <= |x| && k <= |y| && x[..k] == y[..k] && L <= 1 + k
    ensures ([c] + x)[..L] == ([c] + y)[..L]
  {
    assert ([c] + x)[..1 + k] == [c] + x[..k];
    assert ([c] + y)[..1 + k] == [c] + y[..k];
    assert ([c] + x)[..L] == ([c] + x)[..1 + k][..L];
    assert ([c] + y)[..L] == ([c] + y)[..1 + k][..L];
  }

  // --------------------------------------- the properties of the codec

  /** Rewriting every marker to the marker of `n` leaves as many markers as
      there were, each now reading `n`. */
  lemma {:induction false} MarkersOfReplace(t: string, n: nat)
    ensures Markers(ReplaceMarkers(t, RetryMarker(n))) == Repeat(n, |Markers(t)|)
    decreases |t|
  {
    var m := RetryMarker(n);
    if t != [] {
      match MarkerAt(t)
      case Some(k) =>
        var rest := ReplaceMarkers(t[k.1..], m);
        MarkerMatchesItself(n, rest);
        assert (m + rest)[|m|..] == rest;
        MarkersOfReplace(t[k.1..], n);
      case None =>
        var rest := ReplaceMarkers(t[1..], m);
        NoNewMatch(t, m);
        assert ([t[0]] + rest)[1..] == rest;
        MarkersOfReplace(t[1..], n);
    }
  }

  /** After `set_retry_count(content, n)` every marker reads `n`: one when the
      text had none, as many as it had otherwise. */
  lemma MarkersOfSet(content: string, n: nat)
    ensures Markers(SetRetryCount(content, n))
      == Repeat(n, if Markers(content) == [] then 1 else |Markers(content)|)
  {
    if Markers(content) != [] {
      MarkersOfReplace(content, n);
    } else {
      var m := RetryMarker(n);
      var rest := "\n" + content;
      assert SetRetryCount(content, n) == m + rest;
      MarkerMatchesItself(n, rest);
      assert (m + rest)[|m|..] == rest;
      NoLtInert("\n", content, m);
    }
  }

  /** The count written is the count read back: `extract(set(c, n)) == n`. */
  lemma ExtractOfSet(content: string, n: nat)
    ensures ExtractRetryCount(SetRetryCount(content, n)) == n
  {
    MarkersOfSet(content, n);
  }

  /** Setting the count twice is setting it once. */
  lemma SetOfSet(content: string, a: nat, b: nat)
    ensures Markers(SetRetryCount(SetRetryCount(content, a), b)) == Markers(SetRetryCount(content, b))
  {
    MarkersOfSet(content, a);
    MarkersOfSet(SetRetryCount(content, a), b);
    MarkersOfSet(content, b);
  }

  /** `re.search` semantics: the count read is the number of the leftmost match. */
  lemma {:induction false} ExtractIsLeftmost(content: string, i: nat)
    requires i <= |content| && MarkerAt(content[i..]).Some?
    requires forall j :: 0 <= j < i ==> MarkerAt(content[j..]).None?
    ensures ExtractRetryCount(content) == MarkerAt(content[i..]).value.0
    decreases i
  {
    if i == 0 {
      assert content[0..] == content;
      assert content != [] by { assert MarkerAt([]) == None; }
    } else {
      assert content[0..] == content;
      assert content[1..][i - 1..] == content[i..];
      forall j | 0 <= j < i - 1 ensures MarkerAt(content[1..][j..]).None? {
        assert content[1..][j..] == content[j + 1..];
      }
      ExtractIsLeftmost(content[1..], i - 1);
    }
  }

  /** A text with no match at any position has no marker, and the converse. */
  lemma {:induction false} NoMarkerAnywhere(content: string)
    ensures Markers(content) == [] <==> forall j :: 0 <= j <= |content| ==> MarkerAt(content[j..]).None?
    decreases |content|
  {
    if content != [] {
      assert content[0..] == content;
      NoMarkerAnywhere(content[1..]);
      forall j | 1 <= j <= |content| ensures content[j..] == content[1..][j - 1..] { }
      if MarkerAt(content).None? {
        assert (forall j :: 0 <= j <= |content| ==> MarkerAt(content[j..]).None?)
          <==> (forall j :: 0 <= j <= |content[1..]| ==> MarkerAt(content[1..][j..]).None?);
      }
    } else {
      assert MarkerAt(content[0..]) == None;
    }
  }

  // ===================================================== headers

  /** One comment line: `<!-- body -->` and a line break. */
  function Comment(body: string): string {
    "<!-- " + body + " -->\n"
  }

  /** The two comment lines put in front of a task that goes back to the queue. */
  function FailureHeader(iso: string, error: string): string {
    Comment("FAILED" + " at " + iso) + Comment("Error:" + " " + error)
  }

  /** The three comment lines put in front of a task whose retries are exhausted. */
  function FinalFailureHeader(iso: string, error: string, retries: int, maxRetries: int): string {
    Comment("FINAL FAILURE" + " at " + iso) + Comment("Error:" + " " + error)
    + Comment("Retries exhausted" + ": " + IntToString(retries) + "/" + IntToString(maxRetries))
  }

  predicate NoLt(s: string) {
    '<' !in s
  }

  /** A comment that opens with `"<!-- "` and a character that is neither white
      space nor `'R'` holds no match at its start. */
  lemma DeadOpener(rest: string)
    requires rest != [] && !IsSpace(rest[0]) && rest[0] != 'R'
    ensures MarkerAt("<!-- " + rest) == None
  {
    var c := rest[0];
    var w := "<!-- " + [c];
    assert w == Opener + (" " + [c]);
    WalkOpener(0);
    assert Opener[0..] == Opener;
    WalkOne(' ', Pad1);
    WalkOne(c, Pad1);
    WalkConcat(" ", [c], Pad1);
    WalkConcat(Opener, " " + [c], Open(0));
    assert "<!-- " + rest == w + rest[1..];
    RunWalk(w, rest[1..], Open(0));
  }

  /** A comment whose opener is dead and that holds no other `'<'` hides no
      marker and is left alone by the rewriting. */
  lemma SkipDeadComment(body: string, x: string, m: string)
    requires body != [] && !IsSpace(body[0]) && body[0] != 'R' && NoLt(body)
    ensures Markers(Comment(body) + x) == Markers(x)
    ensures ReplaceMarkers(Comment(body) + x, m) == Comment(body) + ReplaceMarkers(x, m)
  {
    var w := "!-- " + body + " -->\n";
    var t := w + x;
    assert "<!-- " == ['<'] + "!-- ";
    assert Comment(body) == ['<'] + w;
    var s := ['<'] + t;
    assert Comment(body) + x == s;
    assert s == "<!-- " + (body + " -->\n" + x);
    DeadOpener(body + " -->\n" + x);
    assert s[1..] == t;
    NoLtInert(w, x, m);
    calc {
      ReplaceMarkers(s, m);
      [s[0]] + ReplaceMarkers(t, m);
      ['<'] + (w + ReplaceMarkers(x, m));
      (['<'] + w) + ReplaceMarkers(x, m);
    }
  }

  /** The failure header of a requeued task hides no marker and is left alone
      by the rewriting, provided its timestamp and error text hold no `'<'`. */
  lemma HeaderInert(iso: string, error: string, x: string, m: string)
    requires NoLt(iso) && NoLt(error)
    ensures Markers(FailureHeader(iso, error) + x) == Markers(x)
    ensures ReplaceMarkers(FailureHeader(iso, error) + x, m) == FailureHeader(iso, error) + ReplaceMarkers(x, m)
  {
    var b1 := "FAILED" + " at " + iso;
    var b2 := "Error:" + " " + error;
    assert NoLt(b1) && NoLt(b2);
    assert FailureHeader(iso, error) + x == Comment(b1) + (Comment(b2) + x);
    SkipDeadComment(b1, Comment(b2) + x, m);
    SkipDeadComment(b2, x, m);
  }

  /** The content a failed task is requeued with. */
  function RequeuedContent(content: string, iso: string, error: string, retries: nat): string {
    FailureHeader(iso, error) + SetRetryCount(content, retries)
  }

  /** A requeued task is claimed again with the count it was requeued with. */
  lemma RequeuedCount(content: string, iso: string, error: string, retries: nat)
    requires NoLt(iso) && NoLt(error)
    ensures ExtractRetryCount(RequeuedContent(content, iso, error, retries)) == retries
  {
    HeaderInert(iso, error, SetRetryCount(content, retries), "");
    ExtractOfSet(content, retries);
  }

  /** An error text that itself holds a marker decides the count read back:
      the header comes first, so its marker is the leftmost. */
  lemma ErrorTextOverridesCount(content: string, iso: string, retries: nat)
    requires NoLt(iso)
    ensures ExtractRetryCount(RequeuedContent(content, iso, RetryMarker(0), retries)) == 0
  {
    ErrorMarkerFirst(iso, 0, SetRetryCount(content, retries));
  }

  lemma ErrorMarkerFirst(iso: string, n: nat, rest: string)
    requires NoLt(iso)
    ensures Markers(FailureHeader(iso, RetryMarker(n)) + rest) != []
    ensures Markers(FailureHeader(iso, RetryMarker(n)) + rest)[0] == n
  {
    var mk := RetryMarker(n);
    var tail := " -->\n" + rest;
    FirstCommentSkipped(iso, mk, rest);
    ErrorCommentOpened(mk, tail);
    ErrorCommentSplit(mk, rest);
    MarkerMatchesItself(n, tail);
    TakeMatch(mk + tail, "");
  }

  lemma ErrorCommentSplit(error: string, rest: string)
    ensures Comment("Error:" + " " + error) + rest == "<!-- Error: " + (error + (" -->\n" + rest))
  {
    assert "<!-- " + ("Error:" + " ") == "<!-- Error: ";
  }

  lemma FirstCommentSkipped(iso: string, error: string, rest: string)
    requires NoLt(iso)
    ensures Markers(FailureHeader(iso, error) + rest) == Markers(Comment("Error:" + " " + error) + rest)
  {
    var b1 := "FAILED" + " at " + iso;
    assert FailureHeader(iso, error) + rest == Comment(b1) + (Comment("Error:" + " " + error) + rest);
    SkipDeadComment(b1, Comment("Error:" + " " + error) + rest, "");
  }

  lemma ErrorCommentOpened(x: string, y: string)
    ensures Markers("<!-- Error: " + (x + y)) == Markers(x + y)
  {
    var w := "!-- Error: ";
    var t := w + (x + y);
    var u := ['<'] + t;
    assert "<!-- Error: " + (x + y) == u by {
      assert "<!-- Error: " == ['<'] + w;
    }
    assert MarkerAt(u) == None by {
      assert u == "<!-- " + ("Error: " + (x + y));
      DeadOpener("Error: " + (x + y));
    }
    PassOver(u, "");
    assert u[1..] == t;
    NoLtNoMarkers(w, x + y);
  }

  // ===================================================== archive names

  /** `%Y%m%d_%H%M%S_%f`: the timestamps put in front of archived names. */
  predicate IsTimestamp(ts: string) {
    |ts| == 22 && AllDigits(ts[..8]) && ts[8] == '_' && AllDigits(ts[9..15]) && ts[15] == '_'
    && AllDigits(ts[16..])
  }

  /** `re.sub(r"^\d{8}_\d{6}(_\d{6})?_", "", s)`. */
  function StripTimestampPrefix(s: string): (r: string)
    ensures EndsWith(s, r)
  {
    if |s| >= 16 && AllDigits(s[..8]) && s[8] == '_' && AllDigits(s[9..15]) && s[15] == '_' then
      if |s| >= 23 && AllDigits(s[16..22]) && s[22] == '_' then s[23..] else s[16..]
    else s
  }

  /** The name a finished or failed task is archived under. */
  function ArchiveName(ts: string, name: string): string {
    ts + "_" + name + ".md"
  }

  /** Stripping the prefix recovers the task name from an archived name. */
  lemma StripArchivePrefix(ts: string, rest: string)
    requires IsTimestamp(ts)
    ensures StripTimestampPrefix(ts + "_" + rest) == rest
  {
    var s := ts + "_" + rest;
    assert s[..8] == ts[..8] && s[9..15] == ts[9..15] && s[16..22] == ts[16..];
  }

  /** The archived file's stem, stripped of its timestamp, is the task name. */
  lemma ArchivedStem(ts: string, name: string)
    requires IsTimestamp(ts)
    ensures Stem(ArchiveName(ts, name)) == ts + "_" + name
    ensures StripTimestampPrefix(Stem(ArchiveName(ts, name))) == name
    ensures StripTimestampPrefix(ArchiveName(ts, name)) == name + ".md"
  {
    assert ArchiveName(ts, name) == (ts + "_" + name) + ".md";
    StemOfMd(ts + "_" + name);
    StripArchivePrefix(ts, name);
    assert ArchiveName(ts, name) == ts + "_" + (name + ".md");
    StripArchivePrefix(ts, name + ".md");
  }

  // ===================================================== failed content

  /** A line `retry_failed` drops: after stripping, it opens one of the
      scheduler's own comments. */
  predicate IsSchedulerComment(line: string) {
    OpensSchedulerComment(Strip(line))
  }

  predicate OpensSchedulerComment(t: string) {
    StartsWith(t, "<!-- RETRY:") || StartsWith(t, "<!-- FAILED") || StartsWith(t, "<!-- FINAL FAILURE")
    || StartsWith(t, "<!-- Error:") || StartsWith(t, "<!-- Retries exhausted")
  }

  function KeptLines(lines: seq<string>): (r: seq<string>)
    ensures forall i :: 0 <= i < |r| ==> r[i] in lines && !IsSchedulerComment(r[i])
    ensures forall l :: l in lines && !IsSchedulerComment(l) ==> l in r
  {
    if lines == [] then []
    else (if IsSchedulerComment(lines[0]) then [] else [lines[0]]) + KeptLines(lines[1..])
  }

  /** The text `retry_failed` puts back: the lines that are not scheduler
      comments, joined, stripped, with one final line break. */
  function CleanFailedContent(content: string): string {
    Strip(Join(KeptLines(SplitLines(content)), "\n")) + "\n"
  }

  /** A scheduler comment line in front of a text does not reach the cleaned text. */
  lemma CleanSkipsComment(line: string, rest: string)
    requires IsLine(line) && IsSchedulerComment(line)
    ensures CleanFailedContent(line + "\n" + rest) == CleanFailedContent(rest)
  {
    SplitLinesCons(line, rest);
    var ls := SplitLines(rest);
    assert ([line] + ls)[0] == line && ([line] + ls)[1..] == ls;
    assert KeptLines([line] + ls) == KeptLines(ls);
  }

  lemma LineConcat(a: string, b: string)
    requires IsLine(a) && IsLine(b)
    ensures IsLine(a + b)
  {
    forall i | 0 <= i < |a + b| ensures !IsLineBreak((a + b)[i]) {
      if i >= |a| { assert (a + b)[i] == b[i - |a|]; }
    }
  }

  /** A comment line `h + q + " -->"` strips to a text that still opens with `h`. */
  lemma CommentLine(h: string, q: string)
    requires h != [] && h[0] == '<' && !IsSpace(h[|h| - 1]) && IsLine(h) && IsLine(q)
    ensures IsLine(h + q + " -->") && StartsWith(Strip(h + q + " -->"), h)
  {
    assert h + q + " -->" == h + (q + " -->");
    StripKeepsPrefix(h, q + " -->");
    LineConcat(q, " -->");
    LineConcat(h, q + " -->");
  }

  lemma NumberIsLine(i: int)
    ensures IsLine(IntToString(i))
  {
    if i < 0 {
      assert IsLine(NatToString(-i));
      LineConcat("-", NatToString(-i));
    }
  }

  /** The comment line of a header, without its line break. */
  function CommentText(body: string): string {
    "<!-- " + body + " -->"
  }

  lemma CommentSplit(body: string, rest: string)
    ensures Comment(body) + rest == CommentText(body) + "\n" + rest
  {
  }

  /** The tags the scheduler opens its comments with. */
  predicate IsHeaderTag(tag: string) {
    tag == "RETRY:" || tag == "FAILED" || tag == "FINAL FAILURE" || tag == "Error:" || tag == "Retries exhausted"
  }

  /** What the header lines need of their tag: it ends in a visible character,
      holds no line break, and opens a scheduler comment. */
  predicate GoodTag(tag: string) {
    tag != [] && !IsSpace(tag[|tag| - 1]) && IsLine(tag) && OpensSchedulerComment("<!-- " + tag)
  }

  lemma HeaderTag(tag: string)
    requires IsHeaderTag(tag)
    ensures GoodTag(tag)
  {
    if tag == "RETRY:" {
      RetryTag();
    } else if tag == "FAILED" {
      FailedTag();
    } else if tag == "FINAL FAILURE" {
      FinalTag();
    } else if tag == "Error:" {
      ErrorTag();
    } else {
      ExhaustedTag();
    }
  }

  lemma RetryTag()
    ensures GoodTag("RETRY:")
  {
    OpensWith("<!-- " + "RETRY:", "<!-- RETRY:");
  }

  lemma FailedTag()
    ensures GoodTag("FAILED")
  {
    OpensWith("<!-- " + "FAILED", "<!-- FAILED");
  }

  lemma FinalTag()
    ensures GoodTag("FINAL FAILURE")
  {
    OpensWith("<!-- " + "FINAL FAILURE", "<!-- FINAL FAILURE");
  }

  lemma ErrorTag()
    ensures GoodTag("Error:")
  {
    OpensWith("<!-- " + "Error:", "<!-- Error:");
  }

  lemma ExhaustedTag()
    ensures GoodTag("Retries exhausted")
  {
    OpensWith("<!-- " + "Retries exhausted", "<!-- Retries exhausted");
  }

  lemma OpensWith(h: string, p: string)
    requires h == p
    ensures StartsWith(h, p)
  {
    assert h[..|p|] == h;
  }

  /** A text that starts with the opening of a scheduler comment opens one. */
  lemma OpensExtended(t: string, h: string)
    requires StartsWith(t, h) && OpensSchedulerComment(h)
    ensures OpensSchedulerComment(t)
  {
    if StartsWith(h, "<!-- RETRY:") {
      StartsWithTrans(t, h, "<!-- RETRY:");
    } else if StartsWith(h, "<!-- FAILED") {
      StartsWithTrans(t, h, "<!-- FAILED");
    } else if StartsWith(h, "<!-- FINAL FAILURE") {
      StartsWithTrans(t, h, "<!-- FINAL FAILURE");
    } else if StartsWith(h, "<!-- Error:") {
      StartsWithTrans(t, h, "<!-- Error:");
    } else {
      StartsWithTrans(t, h, "<!-- Retries exhausted");
    }
  }

  /** The comment line of a body that opens with a scheduler tag. */
  lemma TagLine(tag: string, q: string)
    requires tag != [] && !IsSpace(tag[|tag| - 1]) && IsLine(tag) && IsLine(q)
    ensures IsLine(CommentText(tag + q)) && StartsWith(Strip(CommentText(tag + q)), "<!-- " + tag)
  {
    var h := "<!-- " + tag;
    LineConcat("<!-- ", tag);
    assert CommentText(tag + q) == h + q + " -->";
    CommentLine(h, q);
  }

  /** Each header comment is a scheduler comment line. */
  lemma HeaderLine(tag: string, q: string, b: string)
    requires b == tag + q
    requires IsHeaderTag(tag) && IsLine(q)
    ensures IsLine(CommentText(b)) && IsSchedulerComment(CommentText(b))
  {
    HeaderTag(tag);
    TagLine(tag, q);
    OpensExtended(Strip(CommentText(b)), "<!-- " + tag);
  }

  /** A scheduler comment in front of a text does not reach the cleaned text. */
  lemma CleanSkipsHeaderComment(b: string, rest: string)
    requires IsLine(CommentText(b)) && IsSchedulerComment(CommentText(b))
    ensures CleanFailedContent(Comment(b) + rest) == CleanFailedContent(rest)
  {
    CommentSplit(b, rest);
    CleanSkipsComment(CommentText(b), rest);
  }

  lemma AtLine(tag: string, iso: string)
    requires tag == "FAILED" || tag == "FINAL FAILURE"
    requires IsLine(iso)
    ensures IsLine(CommentText(tag + " at " + iso)) && IsSchedulerComment(CommentText(tag + " at " + iso))
  {
    LineConcat(" at ", iso);
    HeaderLine(tag, " at " + iso, tag + " at " + iso);
  }

  lemma ErrorLine(error: string)
    requires IsLine(error)
    ensures IsLine(CommentText("Error:" + " " + error)) && IsSchedulerComment(CommentText("Error:" + " " + error))
  {
    LineConcat(" ", error);
    HeaderLine("Error:", " " + error, "Error:" + " " + error);
  }

  lemma ExhaustedLine(retries: int, maxRetries: int)
    ensures var b := "Retries exhausted" + ": " + IntToString(retries) + "/" + IntToString(maxRetries);
      IsLine(CommentText(b)) && IsSchedulerComment(CommentText(b))
  {
    var counts := IntToString(retries) + "/" + IntToString(maxRetries);
    NumberIsLine(retries);
    NumberIsLine(maxRetries);
    LineConcat(IntToString(retries), "/");
    LineConcat(IntToString(retries) + "/", IntToString(maxRetries));
    LineConcat(": ", counts);
    var b := "Retries exhausted" + ": " + IntToString(retries) + "/" + IntToString(maxRetries);
    HeaderLine("Retries exhausted", ": " + counts, b);
  }

  /** The failure header never reaches the cleaned text. */
  lemma CleanSkipsFailureHeader(iso: string, error: string, rest: string)
    requires IsLine(iso) && IsLine(error)
    ensures CleanFailedContent(FailureHeader(iso, error) + rest) == CleanFailedContent(rest)
  {
    var b1 := "FAILED" + " at " + iso;
    var b2 := "Error:" + " " + error;
    AtLine("FAILED", iso);
    ErrorLine(error);
    assert FailureHeader(iso, error) + rest == Comment(b1) + (Comment(b2) + rest);
    CleanSkipsHeaderComment(b1, Comment(b2) + rest);
    CleanSkipsHeaderComment(b2, rest);
  }

  lemma FinalHeaderSplit(b1: string, b2: string, b3: string, rest: string)
    ensures Comment(b1) + Comment(b2) + Comment(b3) + rest == Comment(b1) + (Comment(b2) + (Comment(b3) + rest))
  {
  }

  /** The final-failure header never reaches the cleaned text. */
  lemma CleanSkipsFinalHeader(iso: string, error: string, retries: int, maxRetries: int, rest: string)
    requires IsLine(iso) && IsLine(error)
    ensures CleanFailedContent(FinalFailureHeader(iso, error, retries, maxRetries) + rest)
      == CleanFailedContent(rest)
  {
    var b1 := "FINAL FAILURE" + " at " + iso;
    var b2 := "Error:" + " " + error;
    var b3 := "Retries exhausted" + ": " + IntToString(retries) + "/" + IntToString(maxRetries);
    AtLine("FINAL FAILURE", iso);
    ErrorLine(error);
    ExhaustedLine(retries, maxRetries);
    FinalHeaderSplit(b1, b2, b3, rest);
    CleanSkipsHeaderComment(b1, Comment(b2) + (Comment(b3) + rest));
    CleanSkipsHeaderComment(b2, Comment(b3) + rest);
    CleanSkipsHeaderComment(b3, rest);
  }

  lemma RetryMarkerText(n: nat)
    ensures RetryMarker(n) == CommentText("RETRY:" + (" " + NatToString(n)))
  {
    assert "<!-- RETRY: " == "<!-- " + "RETRY:" + " ";
  }

  /** The marker line never reaches the cleaned text. */
  lemma CleanSkipsMarker(n: nat, rest: string)
    ensures CleanFailedContent(RetryMarker(n) + "\n" + rest) == CleanFailedContent(rest)
  {
    var d := NatToString(n);
    NumberIsLine(n);
    LineConcat(" ", d);
    HeaderLine("RETRY:", " " + d, "RETRY:" + (" " + d));
    RetryMarkerText(n);
    CleanSkipsComment(CommentText("RETRY:" + (" " + d)), rest);
  }

  /** A task without markers comes back from a requeue, and from a terminal
      failure, with the text it had: the cleaning drops exactly the lines the
      scheduler added. */
  lemma CleanRequeued(content: string, iso: string, error: string, n: nat)
    requires IsLine(iso) && IsLine(error) && Markers(content) == []
    ensures CleanFailedContent(RequeuedContent(content, iso, error, n)) == CleanFailedContent(content)
  {
    assert MarkerAt(content[0..]) == None by {
      assert content[0..] == content;
      NoMarkerAnywhere(content);
    }
    assert SetRetryCount(content, n) == RetryMarker(n) + "\n" + content;
    CleanSkipsFailureHeader(iso, error, SetRetryCount(content, n));
    CleanSkipsMarker(n, content);
  }

  lemma CleanArchived(content: string, iso: string, error: string, retries: int, maxRetries: int)
    requires IsLine(iso) && IsLine(error)
    ensures CleanFailedContent(FinalFailureHeader(iso, error, retries, maxRetries) + content)
      == CleanFailedContent(content)
  {
    CleanSkipsFinalHeader(iso, error, retries, maxRetries, content);
  }

  /** An error text of two lines breaks the `Error:` comment in two: the
      second line, closed by ` -->`, opens no scheduler comment, so the
      cleaning of `retry_failed` keeps it in front of the task's own lines. */
  lemma ErrorTailKept(iso: string, e1: string, e2: string, rest: string)
    requires IsLine(iso) && IsLine(e1) && IsLine(e2) && !IsSchedulerComment(e2 + " -->")
    ensures KeptLines(SplitLines(FailureHeader(iso, e1 + "\n" + e2) + rest))
      == [e2 + " -->"] + KeptLines(SplitLines(rest))
    ensures CleanFailedContent(FailureHeader(iso, e1 + "\n" + e2) + rest)
      == Strip(Join([e2 + " -->"] + KeptLines(SplitLines(rest)), "\n")) + "\n"
  {
    var l1 := CommentText("FAILED" + " at " + iso);
    var l2 := "<!-- Error:" + " " + e1;
    var l3 := e2 + " -->";
    AtLine("FAILED", iso);
    ErrorHeadLine(e1);
    LineConcat(e2, " -->");
    ErrorTailSplit(iso, e1, e2, rest);
    SplitLinesCons(l1, l2 + "\n" + (l3 + "\n" + rest));
    SplitLinesCons(l2, l3 + "\n" + rest);
    SplitLinesCons(l3, rest);
    KeptThird(l1, l2, l3, SplitLines(rest));
  }

  /** Where the line breaks of a header with a two-line error fall. */
  lemma ErrorTailSplit(iso: string, e1: string, e2: string, rest: string)
    ensures FailureHeader(iso, e1 + "\n" + e2) + rest
      == CommentText("FAILED" + " at " + iso) + "\n" + (("<!-- Error:" + " " + e1) + "\n" + ((e2 + " -->") + "\n" + rest))
  {
  }

  /** The first line of a broken `Error:` comment is still a scheduler comment. */
  lemma ErrorHeadLine(e1: string)
    requires IsLine(e1)
    ensures IsLine("<!-- Error:" + " " + e1) && IsSchedulerComment("<!-- Error:" + " " + e1)
  {
    var l2 := "<!-- Error:" + " " + e1;
    LineConcat(" ", e1);
    LineConcat("<!-- Error:", " " + e1);
    assert l2 == "<!-- Error:" + (" " + e1);
    StripKeepsPrefix("<!-- Error:", " " + e1);
    OpensWith("<!-- Error:", "<!-- Error:");
    OpensExtended(Strip(l2), "<!-- Error:");
  }

  /** Two scheduler comment lines are dropped and the third line, which is
      none, is kept. */
  lemma KeptThird(l1: string, l2: string, l3: string, ls: seq<string>)
    requires IsSchedulerComment(l1) && IsSchedulerComment(l2) && !IsSchedulerComment(l3)
    ensures KeptLines([l1] + ([l2] + ([l3] + ls))) == [l3] + KeptLines(ls)
  {
    KeptCons(l1, [l2] + ([l3] + ls));
    KeptCons(l2, [l3] + ls);
    KeptCons(l3, ls);
  }

  /** One line in front: kept unless it is a scheduler comment. */
  lemma KeptCons(l: string, ls: seq<string>)
    ensures KeptLines([l] + ls) == (if IsSchedulerComment(l) then [] else [l]) + KeptLines(ls)
  {
    assert ([l] + ls)[0] == l && ([l] + ls)[1..] == ls;
  }

  // ===================================================== directory state

  /** `tasks/` with its `done/` and `failed/` subdirectories, each as a map
      from file name to content, and whether the two subdirectories exist. */
  datatype Dirs = Dirs(
    tasks: map<string, string>,
    done: map<string, string>,
    failed: map<string, string>,
    doneIsDir: bool,
    failedIsDir: bool)

  /** A claimed task: the running file, the name (stem of the claimed file),
      its content and the retry count read from the marker. */
  datatype Task = Task(path: string, name: string, content: string, retries: nat)

  /** Names `glob("*.md")` lists. */
  predicate IsMdName(f: string) {
    EndsWith(f, ".md")
  }

  function MdFiles(m: map<string, string>): (r: set<string>)
    ensures forall f :: f in r <==> f in m && IsMdName(f)
  {
    set f | f in m && IsMdName(f)
  }

  const RunningTag: string := ".running."

  /** The name a claimed file is renamed to. */
  function RunningName(f: string, wid: string): string {
    f + RunningTag + wid
  }

  /** Names `glob("*.md.running.*")` lists. */
  predicate IsRunningName(f: string) {
    Contains(f, ".md.running.")
  }

  function RunningFiles(m: map<string, string>): (r: set<string>)
    ensures forall f :: f in r <==> f in m && IsRunningName(f)
  {
    set f | f in m && IsRunningName(f)
  }

  /** The running name of a pending file is listed as running. */
  lemma RunningNameIsRunning(f: string, wid: string)
    requires IsMdName(f)
    ensures IsRunningName(RunningName(f, wid))
  {
    var s := RunningName(f, wid);
    var j := |f| - 3;
    assert s[j..j + 12] == ".md.running.";
    ContainsAt(s, ".md.running.", j);
  }

  // ------------------------------------------------------------- claim_next

  datatype Claimed = Claimed(tasks: map<string, string>, task: Option<Task>)

  /** `claim_next(wid)` on the tasks directory `t`. */
  function AfterClaim(t: map<string, string>, wid: string): Claimed {
    var pending := MdFiles(t);
    if pending == {} then Claimed(t, None)
    else
      var f := Least(pending);
      var rn := RunningName(f, wid);
      var t' := (t - {f})[rn := t[f]];
      if Utf8Size(t[f]) > MaxTaskFileSize then Claimed(t', None)
      else Claimed(t', Some(Task(rn, Stem(f), t[f], ExtractRetryCount(t[f]))))
  }

  /** With nothing pending, a claim yields nothing and changes nothing; a
      claimed task is the file stored under its path. */
  lemma ClaimFacts(t: map<string, string>, wid: string)
    ensures MdFiles(t) == {} ==> AfterClaim(t, wid) == Claimed(t, None)
    ensures var r := AfterClaim(t, wid);
      r.task.Some? ==> r.task.value.path in r.tasks && r.tasks[r.task.value.path] == r.task.value.content
  {
  }

  /** The smallest pending name is renamed to its running name, whatever its
      size; only a file of at most 1 MiB becomes a task, with the stem as its
      name and the marker's count as its retries. */
  lemma ClaimSmallest(t: map<string, string>, wid: string, f: string)
    requires f in t && IsMdName(f)
    requires forall g :: g in t && IsMdName(g) ==> LexLeq(f, g)
    ensures var r := AfterClaim(t, wid); var rn := RunningName(f, wid);
      && f !in r.tasks && rn in r.tasks && r.tasks[rn] == t[f]
      && (forall g :: g != f && g != rn ==> (g in r.tasks <==> g in t))
      && (forall g :: g != f && g != rn && g in t ==> r.tasks[g] == t[g])
      && (r.task.Some? <==> Utf8Size(t[f]) <= MaxTaskFileSize)
      && (r.task.Some? ==> r.task.value == Task(rn, Stem(f), t[f], ExtractRetryCount(t[f])))
  {
    assert IsLeast(f, MdFiles(t));
    LeastUnique(f, Least(MdFiles(t)), MdFiles(t));
  }

  // --------------------------------------------------------------- complete

  /** `complete(task)`: the running file is moved to `done/<ts>_<name>.md`;
      when the file or `done/` is missing the rename fails and nothing changes. */
  function AfterComplete(d: Dirs, task: Task, ts: string): (r: Dirs)
    ensures r.failed == d.failed && r.doneIsDir == d.doneIsDir && r.failedIsDir == d.failedIsDir
  {
    if task.path in d.tasks && d.doneIsDir then
      d.(tasks := d.tasks - {task.path}, done := d.done[ArchiveName(ts, task.name) := d.tasks[task.path]])
    else d
  }

  /** Completing moves the content unchanged and touches no other file; the
      archived name leads back to the task name. */
  lemma CompleteArchives(d: Dirs, task: Task, ts: string)
    requires task.path in d.tasks && d.doneIsDir && IsTimestamp(ts)
    ensures var r := AfterComplete(d, task, ts); var a := ArchiveName(ts, task.name);
      && task.path !in r.tasks
      && a in r.done && r.done[a] == d.tasks[task.path]
      && (forall g :: g != task.path ==> (g in r.tasks <==> g in d.tasks))
      && (forall g :: g in r.tasks ==> r.tasks[g] == d.tasks[g])
      && (forall g :: g != a ==> (g in r.done <==> g in d.done))
      && (forall g :: g != a && g in r.done ==> r.done[g] == d.done[g])
      && r.failed == d.failed
      && StripTimestampPrefix(Stem(a)) == task.name
  {
    ArchivedStem(ts, task.name);
  }

  // ------------------------------------------------------------------- fail

  datatype Failed = Failed(dirs: Dirs, raised: bool)

  /**
   * `fail(task, error)`. The atomic write either replaces its destination or
   * raises and leaves every directory as it was; the running file is removed
   * only after the write (a missing running file is ignored). `ts` and `iso`
   * are the two clock readings.
   */
  function AfterFail(d: Dirs, task: Task, error: string, ts: string, iso: string, maxRetries: int,
                     writeOk: bool): (r: Failed)
    ensures r.raised ==> r.dirs == d
    ensures r.dirs.done == d.done && r.dirs.doneIsDir == d.doneIsDir && r.dirs.failedIsDir == d.failedIsDir
    ensures !writeOk ==> r.raised
  {
    var n := task.retries + 1;
    if n < maxRetries then
      if writeOk then
        var c := RequeuedContent(task.content, iso, error, n);
        Failed(d.(tasks := d.tasks[task.name + ".md" := c] - {task.path}), false)
      else Failed(d, true)
    else if writeOk && d.failedIsDir then
      var c := FinalFailureHeader(iso, error, n, maxRetries) + task.content;
      Failed(d.(tasks := d.tasks - {task.path}, failed := d.failed[ArchiveName(ts, task.name) := c]), false)
    else Failed(d, true)
  }

  /** Below the limit the task goes back as `<name>.md` carrying the header
      and the increased count, which the next claim reads back. */
  lemma FailRequeues(d: Dirs, task: Task, error: string, ts: string, iso: string, maxRetries: int)
    requires task.retries + 1 < maxRetries
    requires task.path != task.name + ".md"
    ensures var r := AfterFail(d, task, error, ts, iso, maxRetries, true); var dest := task.name + ".md";
      && !r.raised && r.dirs.failed == d.failed
      && dest in r.dirs.tasks
      && r.dirs.tasks[dest] == FailureHeader(iso, error) + SetRetryCount(task.content, task.retries + 1)
      && task.path !in r.dirs.tasks
      && (forall g :: g != dest && g != task.path ==> (g in r.dirs.tasks <==> g in d.tasks))
      && (forall g :: g != dest && g in r.dirs.tasks ==> r.dirs.tasks[g] == d.tasks[g])
      && r.dirs.done == d.done
      && (NoLt(iso) && NoLt(error) ==> ExtractRetryCount(r.dirs.tasks[dest]) == task.retries + 1)
  {
    if NoLt(iso) && NoLt(error) {
      RequeuedCount(task.content, iso, error, task.retries + 1);
    }
  }

  /** At the limit the task goes to `failed/` under its timestamped name with
      the final header over the unchanged content; no pending file appears,
      and no other file changes. A later `retry_failed` gets the content
      back when the clock reading and the error are single lines. */
  lemma FailArchives(d: Dirs, task: Task, error: string, ts: string, iso: string, maxRetries: int)
    requires task.retries + 1 >= maxRetries && d.failedIsDir
    ensures var r := AfterFail(d, task, error, ts, iso, maxRetries, true); var a := ArchiveName(ts, task.name);
      && !r.raised
      && a in r.dirs.failed
      && r.dirs.failed[a] == FinalFailureHeader(iso, error, task.retries + 1, maxRetries) + task.content
      && (IsLine(iso) && IsLine(error) ==> CleanFailedContent(r.dirs.failed[a]) == CleanFailedContent(task.content))
      && task.path !in r.dirs.tasks
      && (forall g :: g != task.path ==> (g in r.dirs.tasks <==> g in d.tasks))
      && (forall g :: g in r.dirs.tasks ==> r.dirs.tasks[g] == d.tasks[g])
      && (forall g :: g != a ==> (g in r.dirs.failed <==> g in d.failed))
      && (forall g :: g != a && g in r.dirs.failed ==> r.dirs.failed[g] == d.failed[g])
      && r.dirs.done == d.done
  {
    AfterFailAtLimit(d, task, error, ts, iso, maxRetries);
    if IsLine(iso) && IsLine(error) {
      CleanArchived(task.content, iso, error, task.retries + 1, maxRetries);
    }
  }

  /** The state `fail` leaves at the limit. */
  lemma AfterFailAtLimit(d: Dirs, task: Task, error: string, ts: string, iso: string, maxRetries: int)
    requires task.retries + 1 >= maxRetries && d.failedIsDir
    ensures AfterFail(d, task, error, ts, iso, maxRetries, true)
      == Failed(d.(tasks := d.tasks - {task.path},
                   failed := d.failed[ArchiveName(ts, task.name) := FinalFailureHeader(iso, error, task.retries + 1, maxRetries) + task.content]),
                false)
  {
  }

  // ----------------------------------------------------------- retry_failed

  /** A failed file matches a name by its stem or by its stem without the
      timestamp prefix. */
  predicate MatchesName(f: string, name: string) {
    Stem(f) == name || StripTimestampPrefix(Stem(f)) == name
  }

  /** The listing's entries that match `name`, in listing order. */
  function Filter(listing: seq<string>, name: string): (r: seq<string>)
    ensures |r| <= |listing|
    ensures forall i :: 0 <= i < |r| ==> r[i] in listing && MatchesName(r[i], name)
    ensures forall f :: f in listing && MatchesName(f, name) ==> f in r
  {
    if listing == [] then []
    else (if MatchesName(listing[0], name) then [listing[0]] else []) + Filter(listing[1..], name)
  }

  /** `listing` is an enumeration of `s` without repetition (an unsorted glob). */
  predicate Enumerates(listing: seq<string>, s: set<string>) {
    && (forall i :: 0 <= i < |listing| ==> listing[i] in s)
    && (forall f :: f in s ==> f in listing)
    && (forall i, j :: 0 <= i < j < |listing| ==> listing[i] != listing[j])
  }

  lemma FilterDistinct(listing: seq<string>, name: string)
    requires forall i, j :: 0 <= i < j < |listing| ==> listing[i] != listing[j]
    ensures var r := Filter(listing, name); forall i, j :: 0 <= i < j < |r| ==> r[i] != r[j]
  {
    if listing != [] {
      FilterDistinct(listing[1..], name);
    }
  }

  /** The files `retry_failed` handles, in the order it handles them. */
  function Matches(failed: map<string, string>, name: Option<string>, listing: seq<string>): seq<string> {
    match name
    case None => Sorted(MdFiles(failed))
    case Some(n) => Filter(listing, n)
  }

  /** One failed file back to the queue: written, cleaned, under its name
      without the timestamp prefix (replacing a pending file of that name),
      and deleted from `failed/`. */
  function RequeueOne(d: Dirs, src: string): (r: Dirs)
    ensures r.done == d.done && r.doneIsDir == d.doneIsDir && r.failedIsDir == d.failedIsDir
  {
    if src in d.failed then
      d.(tasks := d.tasks[StripTimestampPrefix(src) := CleanFailedContent(d.failed[src])],
         failed := d.failed - {src})
    else d
  }

  function RequeueAll(d: Dirs, ms: seq<string>): (r: Dirs)
    ensures r.done == d.done && r.doneIsDir == d.doneIsDir && r.failedIsDir == d.failedIsDir
    decreases |ms|
  {
    if ms == [] then d else RequeueOne(RequeueAll(d, ms[..|ms| - 1]), ms[|ms| - 1])
  }

  function DestNames(ms: seq<string>): (r: seq<string>)
    ensures |r| == |ms| && forall i :: 0 <= i < |ms| ==> r[i] == StripTimestampPrefix(ms[i])
  {
    seq(|ms|, i requires 0 <= i < |ms| => StripTimestampPrefix(ms[i]))
  }

  datatype Retried = Retried(dirs: Dirs, names: seq<string>)

  /** `retry_failed(task_dir, fail_dir, name)`; `listing` is the unsorted
      `glob("*.md")` of `failed/`, used when a name is given. */
  function AfterRetryFailed(d: Dirs, name: Option<string>, listing: seq<string>): (r: Retried)
    ensures !d.failedIsDir ==> r == Retried(d, [])
  {
    if !d.failedIsDir then Retried(d, [])
    else
      var ms := Matches(d.failed, name, listing);
      Retried(RequeueAll(d, ms), DestNames(ms))
  }

  /** Exactly the handled files leave `failed/`; the others keep their content. */
  lemma {:induction false} RequeueAllFailed(d: Dirs, ms: seq<string>)
    ensures var r := RequeueAll(d, ms);
      && (forall g :: g in r.failed <==> g in d.failed && g !in ms)
      && (forall g :: g in r.failed ==> r.failed[g] == d.failed[g])
    decreases |ms|
  {
    if ms != [] {
      var p := ms[..|ms| - 1];
      RequeueAllFailed(d, p);
      assert forall g :: g in ms <==> g in p || g == ms[|ms| - 1];
    }
  }

  /** The pending directory gains exactly the destination names, and a
      pending file whose name is no destination is untouched. */
  lemma {:induction false} RequeueAllKeys(d: Dirs, ms: seq<string>)
    requires FailedList(d.failed, ms)
    ensures var r := RequeueAll(d, ms);
      && (forall g :: g in r.tasks <==> g in d.tasks || g in DestNames(ms))
      && (forall g :: g in d.tasks && g !in DestNames(ms) ==> r.tasks[g] == d.tasks[g])
    decreases |ms|
  {
    if ms != [] {
      var k := |ms| - 1;
      var p := ms[..k];
      var dest := StripTimestampPrefix(ms[k]);
      FailedListPrefix(d.failed, ms, k);
      RequeueAllKeys(d, p);
      RequeuedIn(d, ms);
      RequeueOneTasks(RequeueAll(d, p), ms[k]);
      DestNamesSnoc(ms);
    }
  }

  lemma RequeueOneTasks(q: Dirs, src: string)
    requires src in q.failed
    ensures var r := RequeueOne(q, src); var dest := StripTimestampPrefix(src);
      && (forall g :: g in r.tasks <==> g in q.tasks || g == dest)
      && (forall g :: g in q.tasks && g != dest ==> r.tasks[g] == q.tasks[g])
  {
  }

  lemma DestNamesSnoc(ms: seq<string>)
    requires ms != []
    ensures forall g :: g in DestNames(ms) <==> g in DestNames(ms[..|ms| - 1]) || g == StripTimestampPrefix(ms[|ms| - 1])
  {
    assert DestNames(ms) == DestNames(ms[..|ms| - 1]) + [StripTimestampPrefix(ms[|ms| - 1])];
  }

  /** The last handled file is still in `failed/` when its turn comes. */
  lemma RequeuedIn(d: Dirs, ms: seq<string>)
    requires ms != []
    requires FailedList(d.failed, ms)
    ensures var q := RequeueAll(d, ms[..|ms| - 1]); var src := ms[|ms| - 1];
      src in q.failed && q.failed[src] == d.failed[src]
  {
    RequeueAllFailed(d, ms[..|ms| - 1]);
  }

  /** Each destination holds the cleaned text of the last handled file that
      maps to it. */
  lemma {:induction false} RequeueAllContent(d: Dirs, ms: seq<string>, i: nat)
    requires FailedList(d.failed, ms)
    requires i < |ms|
    requires forall j :: i < j < |ms| ==> StripTimestampPrefix(ms[j]) != StripTimestampPrefix(ms[i])
    ensures StripTimestampPrefix(ms[i]) in RequeueAll(d, ms).tasks
    ensures RequeueAll(d, ms).tasks[StripTimestampPrefix(ms[i])] == CleanFailedContent(d.failed[ms[i]])
    decreases |ms|
  {
    var k := |ms| - 1;
    var p := ms[..k];
    var q := RequeueAll(d, p);
    assert RequeueAll(d, ms) == RequeueOne(q, ms[k]);
    RequeuedIn(d, ms);
    if i == k {
      RequeueOneWrites(q, ms[k]);
    } else {
      FailedListPrefix(d.failed, ms, k);
      assert p[i] == ms[i];
      assert forall j :: i < j < |p| ==> StripTimestampPrefix(p[j]) != StripTimestampPrefix(p[i]) by {
        assert forall j :: i < j < |p| ==> p[j] == ms[j];
      }
      RequeueAllContent(d, p, i);
      RequeueOneKeeps(q, ms[k], StripTimestampPrefix(ms[i]));
    }
  }

  /** The file handled writes its destination with its cleaned text. */
  lemma RequeueOneWrites(q: Dirs, src: string)
    requires src in q.failed
    ensures StripTimestampPrefix(src) in RequeueOne(q, src).tasks
    ensures RequeueOne(q, src).tasks[StripTimestampPrefix(src)] == CleanFailedContent(q.failed[src])
  {
  }

  /** A pending file other than the destination is left as it was. */
  lemma RequeueOneKeeps(q: Dirs, src: string, g: string)
    requires src in q.failed && g in q.tasks && g != StripTimestampPrefix(src)
    ensures g in RequeueOne(q, src).tasks && RequeueOne(q, src).tasks[g] == q.tasks[g]
  {
  }

  /** A file archived by a terminal failure matches its task name and comes
      back as `<name>.md`. */
  lemma ArchiveMatches(ts: string, name: string)
    requires IsTimestamp(ts)
    ensures MatchesName(ArchiveName(ts, name), name)
    ensures StripTimestampPrefix(ArchiveName(ts, name)) == name + ".md"
  {
    ArchivedStem(ts, name);
  }

  // ---------------------------------------------------------- recover_running

  /** The name a running file is restored to: the text before the first
      `".running."`. */
  function Restored(f: string): string {
    BeforeFirst(f, RunningTag)
  }

  /**
   * One running file. When the restored path exists it is kept and the
   * running file is deleted; the empty name is the tasks directory itself,
   * which always exists. Otherwise the running file is renamed back.
   */
  function RecoverOne(t: map<string, string>, rf: string): map<string, string> {
    if rf in t then
      var o := Restored(rf);
      if o == [] || o in t then t - {rf} else (t - {rf})[o := t[rf]]
    else t
  }

  function RecoverAll(t: map<string, string>, rs: seq<string>): map<string, string>
    decreases |rs|
  {
    if rs == [] then t else RecoverOne(RecoverAll(t, rs[..|rs| - 1]), rs[|rs| - 1])
  }

  datatype Recovered = Recovered(tasks: map<string, string>, count: nat)

  /** `recover_running(task_dir)`: every running file in name order, counting
      restores and discarded conflicts alike. */
  function AfterRecover(t: map<string, string>): (r: Recovered)
    ensures r.count == |RunningFiles(t)|
  {
    Recovered(RecoverAll(t, Sorted(RunningFiles(t))), |RunningFiles(t)|)
  }

  /** A restored name is never itself a running name. */
  lemma RestoredNotRunning(f: string)
    ensures !IsRunningName(Restored(f))
  {
    BeforeFirstFree(f, RunningTag);
    if IsRunningName(Restored(f)) {
      ContainsTail(Restored(f), ".md.running.", 3);
    }
  }

  /** After the handled prefix, exactly the other running files are left, and
      a file that is not running keeps its content. */
  lemma {:induction false} RecoverAllFrame(t: map<string, string>, rs: seq<string>)
    requires forall i :: 0 <= i < |rs| ==> IsRunningName(rs[i])
    ensures var r := RecoverAll(t, rs);
      && (forall g :: g in RunningFiles(r) <==> g in RunningFiles(t) && g !in rs)
      && (forall g :: g in t && !IsRunningName(g) ==> g in r && r[g] == t[g])
    decreases |rs|
  {
    if rs != [] {
      var p := rs[..|rs| - 1];
      var rf := rs[|rs| - 1];
      RecoverAllFrame(t, p);
      RestoredNotRunning(rf);
      assert forall g :: g in rs <==> g in p || g == rf;
    }
  }

  /** Recovery leaves no running file behind and keeps every other file as it was. */
  lemma RecoverClears(t: map<string, string>)
    ensures RunningFiles(AfterRecover(t).tasks) == {}
    ensures forall g :: g in t && !IsRunningName(g) ==> g in AfterRecover(t).tasks && AfterRecover(t).tasks[g] == t[g]
  {
    RecoverAllFrame(t, Sorted(RunningFiles(t)));
  }

  /** The separator of a running name cannot start inside a pending name
      without `".running."`: such a start would put the pending name's final
      `'d'` inside the separator, which has none. */
  lemma RunningSplit(f: string, wid: string)
    requires IsMdName(f) && !Contains(f, RunningTag)
    ensures Restored(RunningName(f, wid)) == f
  {
    var s := RunningName(f, wid);
    forall j | 0 <= j < |f| ensures !OccursAt(s, RunningTag, j) {
      if j + |RunningTag| <= |f| {
        if OccursAt(s, RunningTag, j) {
          assert f[j..j + |RunningTag|] == s[j..j + |RunningTag|];
          ContainsAt(f, RunningTag, j);
        }
      } else {
        var k := |f| - 1 - j;
        assert s[j + k] == 'd';
        assert s[j..j + |RunningTag|][k] == 'd';
        assert RunningTag[k] != 'd';
      }
    }
    BeforeFirstOfJoin(f, RunningTag, wid);
  }

  /** A crash right after a claim is undone by recovery: the claimed file is
      back under its name with its content, and nothing else changed. */
  lemma RecoverUndoesClaim(t: map<string, string>, wid: string)
    requires RunningFiles(t) == {} && MdFiles(t) != {}
    requires !Contains(Least(MdFiles(t)), RunningTag)
    ensures AfterRecover(AfterClaim(t, wid).tasks).tasks == t
  {
    var f := Least(MdFiles(t));
    var rn := RunningName(f, wid);
    var t' := AfterClaim(t, wid).tasks;
    assert t' == (t - {f})[rn := t[f]];
    RunningNameIsRunning(f, wid);
    assert rn !in t;
    forall g | g in t' && IsRunningName(g) ensures g == rn {
    }
    assert RunningFiles(t') == {rn};
    SortedSingleton(rn);
    RunningSplit(f, wid);
    assert f != [];
    assert RecoverAll(t', [rn]) == RecoverOne(t', rn) by {
      assert [rn][..0] == [];
    }
    assert RecoverOne(t', rn) == (t' - {rn})[f := t[f]];
    assert (t' - {rn})[f := t[f]] == t;
  }

  // ================================================================ classes

  /** The directory written by `_atomic_write`. */
  datatype Dir = TasksDir | FailedDir

  function WriteTo(d: Dirs, dir: Dir, name: string, content: string): (r: Dirs)
    ensures dir == TasksDir ==> r.failed == d.failed && name in r.tasks && r.tasks[name] == content
    ensures dir == FailedDir ==> r.tasks == d.tasks && name in r.failed && r.failed[name] == content
  {
    match dir
    case TasksDir => d.(tasks := d.tasks[name := content])
    case FailedDir => d.(failed := d.failed[name := content])
  }

  /** The task directories on disk. */
  class TaskDirs {
    var tasks: map<string, string>
    var done: map<string, string>
    var failed: map<string, string>
    var doneIsDir: bool
    var failedIsDir: bool

    function State(): Dirs
      reads this
    {
      Dirs(tasks, done, failed, doneIsDir, failedIsDir)
    }

    constructor (d: Dirs)
      ensures State() == d
    {
      tasks, done, failed := d.tasks, d.done, d.failed;
      doneIsDir, failedIsDir := d.doneIsDir, d.failedIsDir;
    }

    /** `_atomic_write`: the file appears with its whole content, or the
        write raises (also when the directory is missing) and nothing is left
        behind. */
    method AtomicWrite(dir: Dir, name: string, content: string, ok: bool) returns (raised: bool)
      modifies this
      ensures raised <==> !ok || (dir == FailedDir && !old(failedIsDir))
      ensures State() == if raised then old(State()) else WriteTo(old(State()), dir, name, content)
    {
      if !ok || (dir == FailedDir && !failedIsDir) {
        return true;
      }
      match dir {
        case TasksDir => tasks := tasks[name := content];
        case FailedDir => failed := failed[name := content];
      }
      raised := false;
    }

    /** `TaskQueue.retry_failed(task_dir, fail_dir, name)`; `listing` is the
        unsorted listing of `failed/` used when a name is given. */
    method RetryFailed(name: Option<string>, listing: seq<string>) returns (retried: seq<string>)
      requires failedIsDir && name.Some? ==> Enumerates(listing, MdFiles(failed))
      modifies this
      ensures Retried(State(), retried) == AfterRetryFailed(old(State()), name, listing)
    {
      if !failedIsDir {
        return [];
      }
      var matches := Matches(failed, name, listing);
      MatchesFromFailed(failed, name, listing);
      ghost var d0 := State();
      retried := [];
      var i := 0;
      while i < |matches|
        invariant 0 <= i <= |matches|
        invariant State() == RequeueAll(d0, matches[..i])
        invariant retried == DestNames(matches[..i])
      {
        var src := matches[i];
        RequeueStep(d0, matches, i);
        DestNamesStep(matches, i);
        var dest := RequeueFile(src);
        retried := retried + [dest];
        i := i + 1;
      }
      assert matches[..|matches|] == matches;
    }

    /** One turn of the loop of `retry_failed`. */
    method RequeueFile(src: string) returns (dest: string)
      requires src in failed
      modifies this
      ensures State() == RequeueOne(old(State()), src) && dest == StripTimestampPrefix(src)
    {
      var content := failed[src];
      dest := StripTimestampPrefix(src);
      tasks := tasks[dest := CleanFailedContent(content)];
      failed := failed - {src};
    }

    /** `TaskQueue.recover_running(task_dir)`. */
    method RecoverRunning() returns (count: nat)
      modifies this
      ensures Recovered(tasks, count) == AfterRecover(old(tasks))
      ensures State() == old(State()).(tasks := tasks)
    {
      var rs := Sorted(RunningFiles(tasks));
      SortedRunning(tasks);
      var r := RecoverFiles(tasks, rs);
      tasks := r.tasks;
      count := r.count;
    }
  }

  /** `rs` lists running files of `t`, none of them twice. */
  predicate RunningList(t: map<string, string>, rs: seq<string>) {
    forall k :: 0 <= k < |rs| ==> rs[k] in t && IsRunningName(rs[k]) && rs[k] !in rs[..k]
  }

  /** The sorted running files are such a list. */
  lemma SortedRunning(t: map<string, string>)
    ensures RunningList(t, Sorted(RunningFiles(t)))
  {
    var rs := Sorted(RunningFiles(t));
    forall k | 0 <= k < |rs| ensures rs[k] in t && IsRunningName(rs[k]) && rs[k] !in rs[..k] {
      SortedFirstAt(RunningFiles(t), k);
    }
  }

  /** The loop of `recover_running` over the running files `rs`, in order:
      each back under its original name, or dropped when that name is taken. */
  method RecoverFiles(t: map<string, string>, rs: seq<string>) returns (r: Recovered)
    requires RunningList(t, rs)
    ensures r == Recovered(RecoverAll(t, rs), |rs|)
  {
    var cur := t;
    var count := 0;
    var i := 0;
    while i < |rs|
      invariant 0 <= i <= |rs| && count == i
      invariant cur == RecoverAll(t, rs[..i])
    {
      var rf := rs[i];
      RecoverStep(t, rs, i);
      var original := BeforeFirst(rf, RunningTag);
      if original == [] || original in cur {
        cur := cur - {rf};
      } else {
        cur := (cur - {rf})[original := cur[rf]];
      }
      count := count + 1;
      i := i + 1;
    }
    assert rs[..|rs|] == rs;
    r := Recovered(cur, count);
  }

  /** The loop of `retry_failed` follows `RequeueAll` one file at a time. */
  lemma RequeueStep(d: Dirs, ms: seq<string>, i: nat)
    requires FailedList(d.failed, ms) && i < |ms|
    ensures ms[i] in RequeueAll(d, ms[..i]).failed
    ensures RequeueAll(d, ms[..i]).failed[ms[i]] == d.failed[ms[i]]
    ensures RequeueAll(d, ms[..i + 1]) == RequeueOne(RequeueAll(d, ms[..i]), ms[i])
  {
    assert ms[..i + 1][..i] == ms[..i];
    RequeuedIn(d, ms[..i + 1]);
  }

  lemma DestNamesStep(ms: seq<string>, i: nat)
    requires i < |ms|
    ensures DestNames(ms[..i + 1]) == DestNames(ms[..i]) + [StripTimestampPrefix(ms[i])]
  {
  }

  /** The loop of `recover_running` follows `RecoverAll` one file at a time. */
  lemma RecoverStep(t: map<string, string>, rs: seq<string>, i: nat)
    requires RunningList(t, rs) && i < |rs|
    ensures rs[i] in RecoverAll(t, rs[..i])
    ensures RecoverAll(t, rs[..i + 1]) == RecoverOne(RecoverAll(t, rs[..i]), rs[i])
  {
    RecoverPending(t, rs, i);
    assert rs[..i + 1][..i] == rs[..i];
  }

  /** The next file of the loop is still there when its turn comes. */
  lemma RecoverPending(t: map<string, string>, rs: seq<string>, i: nat)
    requires RunningList(t, rs) && i < |rs|
    ensures rs[i] in RecoverAll(t, rs[..i])
  {
    var p := rs[..i];
    var f := rs[i];
    assert f in RunningFiles(t);
    assert forall k :: 0 <= k < |p| ==> IsRunningName(p[k]) by {
      forall k | 0 <= k < |p| ensures IsRunningName(p[k]) {
        assert p[k] == rs[k];
      }
    }
    RecoverAllFrame(t, p);
    assert f in RunningFiles(RecoverAll(t, p));
  }

  /** The handled files are distinct files of `failed/`. */
  /** `ms` lists files of `failed/`, none of them twice. */
  predicate FailedList(failed: map<string, string>, ms: seq<string>) {
    && (forall i :: 0 <= i < |ms| ==> ms[i] in failed)
    && (forall i, j :: 0 <= i < j < |ms| ==> ms[i] != ms[j])
  }

  lemma FailedListPrefix(failed: map<string, string>, ms: seq<string>, k: nat)
    requires FailedList(failed, ms) && k <= |ms|
    ensures FailedList(failed, ms[..k])
  {
  }

  lemma MatchesFromFailed(failed: map<string, string>, name: Option<string>, listing: seq<string>)
    requires name.Some? ==> Enumerates(listing, MdFiles(failed))
    ensures FailedList(failed, Matches(failed, name, listing))
  {
    match name
    case None =>
      assert Matches(failed, name, listing) == Sorted(MdFiles(failed));
      SortedFromFailed(failed);
    case Some(n) =>
      assert Matches(failed, name, listing) == Filter(listing, n);
      FilteredFromFailed(failed, n, listing);
  }

  lemma SortedFromFailed(failed: map<string, string>)
    ensures var ms := Sorted(MdFiles(failed));
      && (forall i :: 0 <= i < |ms| ==> ms[i] in failed)
      && (forall i, j :: 0 <= i < j < |ms| ==> ms[i] != ms[j])
  {
    SortedAscending(MdFiles(failed));
  }

  lemma FilteredFromFailed(failed: map<string, string>, name: string, listing: seq<string>)
    requires Enumerates(listing, MdFiles(failed))
    ensures var ms := Filter(listing, name);
      && (forall i :: 0 <= i < |ms| ==> ms[i] in failed)
      && (forall i, j :: 0 <= i < j < |ms| ==> ms[i] != ms[j])
  {
    FilterDistinct(listing, name);
    var ms := Filter(listing, name);
    forall i | 0 <= i < |ms| ensures ms[i] in failed {
      var k :| 0 <= k < |listing| && listing[k] == ms[i];
      assert listing[k] in MdFiles(failed);
    }
  }

  /** The queue over the task directories (`TaskQueue`). */
  class TaskQueue {
    const dirs: TaskDirs
    const maxRetries: int

    /** Creating the queue makes sure `done/` and `failed/` exist. */
    constructor (dirs: TaskDirs, maxRetries: int)
      modifies dirs
      ensures this.dirs == dirs && this.maxRetries == maxRetries
      ensures dirs.State() == old(dirs.State()).(
        done := if old(dirs.doneIsDir) then old(dirs.done) else map[],
        failed := if old(dirs.failedIsDir) then old(dirs.failed) else map[],
        doneIsDir := true, failedIsDir := true)
    {
      this.dirs := dirs;
      this.maxRetries := maxRetries;
      new;
      if !dirs.doneIsDir {
        dirs.done, dirs.doneIsDir := map[], true;
      }
      if !dirs.failedIsDir {
        dirs.failed, dirs.failedIsDir := map[], true;
      }
    }

    method ClaimNext(wid: string) returns (task: Option<Task>)
      modifies dirs
      ensures Claimed(dirs.tasks, task) == AfterClaim(old(dirs.tasks), wid)
      ensures dirs.State() == old(dirs.State()).(tasks := dirs.tasks)
    {
      var pending := MdFiles(dirs.tasks);
      if pending == {} {
        return None;
      }
      var taskFile := Least(pending);
      var runningName := RunningName(taskFile, wid);
      var content := dirs.tasks[taskFile];
      dirs.tasks := (dirs.tasks - {taskFile})[runningName := content];
      if Utf8Size(content) > MaxTaskFileSize {
        return None;
      }
      task := Some(Task(runningName, Stem(taskFile), content, ExtractRetryCount(content)));
    }

    method Complete(task: Task, ts: string)
      modifies dirs
      ensures dirs.State() == AfterComplete(old(dirs.State()), task, ts)
    {
      if task.path in dirs.tasks && dirs.doneIsDir {
        var content := dirs.tasks[task.path];
        dirs.tasks := dirs.tasks - {task.path};
        dirs.done := dirs.done[ArchiveName(ts, task.name) := content];
      }
    }

    method Fail(task: Task, error: string, ts: string, iso: string, writeOk: bool) returns (raised: bool)
      modifies dirs
      ensures Failed(dirs.State(), raised) == AfterFail(old(dirs.State()), task, error, ts, iso, maxRetries, writeOk)
    {
      var newRetries := task.retries + 1;
      if newRetries < maxRetries {
        var content := SetRetryCount(task.content, newRetries);
        content := FailureHeader(iso, error) + content;
        raised := dirs.AtomicWrite(TasksDir, task.name + ".md", content, writeOk);
      } else {
        var content := FinalFailureHeader(iso, error, newRetries, maxRetries) + task.content;
        raised := dirs.AtomicWrite(FailedDir, ArchiveName(ts, task.name), content, writeOk);
      }
      if raised {
        return;
      }
      dirs.tasks := dirs.tasks - {task.path};
    }
  }
}

