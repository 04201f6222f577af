/** Conversion between the free-text steps of the editor and structured steps
    (components/TestPlanPage.tsx, the parser inside `handleUpdateTestCase` and the
    printer inside its reload). The two regular expressions of the parser are written
    out as scanners that follow JavaScript's backtracking semantics. */
module StepCodec {
  import opened Common
  import opened Text
  import opened Types

  /** The characters a regular-expression `.` does not match (ASCII part). */
  predicate IsLineTerminator(c: char) {
    c == '\n' || c == '\r'
  }

  predicate NoTerminator(s: string) {
    forall i :: 0 <= i < |s| ==> !IsLineTerminator(s[i])
  }

  /** The class `[:\s]` of the expected-result pattern. */
  predicate IsDelimiter(c: char) {
    c == ':' || IsSpace(c)
  }

  /** The character classes the two patterns repeat: `\d`, `\s` and `[:\s]`. */
  datatype CharClass = Digits | Blanks | Delimiters

  predicate InClass(p: CharClass, c: char) {
    match p
    case Digits => IsDigit(c)
    case Blanks => IsSpace(c)
    case Delimiters => IsDelimiter(c)
  }

  /** End of the longest run of characters of class `p` that starts at `i`. */
  function RunEnd(s: string, i: nat, p: CharClass): (j: nat)
    requires i <= |s|
    ensures i <= j <= |s|
    ensures j == |s| || !InClass(p, s[j])
    decreases |s| - i
  {
    if i < |s| && InClass(p, s[i]) then RunEnd(s, i + 1, p) else i
  }

  /** Every character of the run satisfies `p`. */
  lemma {:induction false} RunEndAll(s: string, i: nat, p: CharClass)
    requires i <= |s|
    ensures forall k :: i <= k < RunEnd(s, i, p) ==> InClass(p, s[k])
    decreases |s| - i
  {
    if i < |s| && InClass(p, s[i]) {
      RunEndAll(s, i + 1, p);
      forall k | i <= k < RunEnd(s, i, p) ensures InClass(p, s[k]) {
        if k > i { assert i + 1 <= k < RunEnd(s, i + 1, p); }
      }
    }
  }

  /** A run is determined by where it stops. */
  lemma RunEndIs(s: string, i: nat, p: CharClass, j: nat)
    requires i <= j <= |s|
    requires forall k :: i <= k < j ==> InClass(p, s[k])
    requires j == |s| || !InClass(p, s[j])
    ensures RunEnd(s, i, p) == j
    decreases j - i
  {
    if i < j {
      RunEndIs(s, i + 1, p, j);
    }
  }

  /** The capture of a trailing `(.+)$` that follows a greedy run ending at `b`, where the
      run may give characters back down to `lo` (for `\s*` that is where the run starts,
      for `[:\s]+` one character later). Only the last character can be given back
      usefully: a shorter run would make the capture include the rest anyway. */
  function CaptureRest(s: string, lo: nat, b: nat): Option<string>
    requires lo <= b <= |s|
  {
    if b < |s| then (if NoTerminator(s[b..]) then Some(s[b..]) else None)
    else if lo < b && !IsLineTerminator(s[b - 1]) then Some(s[b - 1..])
    else None
  }

  /** A capture `(.+)$` may begin at `k`: what follows is non-empty and one line. */
  predicate CanCaptureFrom(s: string, k: int) {
    0 <= k < |s| && NoTerminator(s[k..])
  }

  /** `CaptureRest` is the regular-expression engine's answer: the capture starts at the
      greatest position in `[lo, b]` from which `(.+)$` can match, and there is none
      exactly when it answers `None`. */
  lemma CaptureRestIsGreedy(s: string, lo: nat, b: nat)
    requires lo <= b <= |s|
    ensures CaptureRest(s, lo, b).Some? ==>
      exists k :: lo <= k <= b && CanCaptureFrom(s, k) && CaptureRest(s, lo, b).value == s[k..]
        && forall k' :: k < k' <= b ==> !CanCaptureFrom(s, k')
    ensures CaptureRest(s, lo, b).None? ==> forall k :: lo <= k <= b ==> !CanCaptureFrom(s, k)
  {
    if b < |s| {
      if NoTerminator(s[b..]) {
        assert CanCaptureFrom(s, b);
      } else {
        var t :| 0 <= t < |s[b..]| && IsLineTerminator(s[b..][t]);
        forall k | lo <= k <= b ensures !CanCaptureFrom(s, k) {
          assert s[k..][b - k + t] == s[b..][t];
        }
      }
    } else if lo < b && !IsLineTerminator(s[b - 1]) {
      assert CanCaptureFrom(s, b - 1);
    } else {
      forall k | lo <= k <= b ensures !CanCaptureFrom(s, k) {
        if k < |s| {
          assert s[k..][b - 1 - k] == s[b - 1];
        }
      }
    }
  }

  /** `/^(\d+)\.\s*(.+)$/` on a line: the step number and the action text. */
  function StepLineMatch(line: string): Option<(nat, string)> {
    var d := RunEnd(line, 0, Digits);
    if d == 0 || d >= |line| || line[d] != '.' then None
    else
      var b := RunEnd(line, d + 1, Blanks);
      match CaptureRest(line, d + 1, b)
      case None => None
      case Some(action) => Some((DigitsValue(line[..d]), action))
  }

  /** `/expected[:\s]+(.+)$/i` tried at position `i` only. */
  function ExpectedMatchAt(s: string, i: nat): Option<string>
    requires i <= |s|
  {
    if |s| - i < 8 || ToLower(s[i..i + 8]) != "expected" then None
    else
      var b := RunEnd(s, i + 8, Delimiters);
      if b == i + 8 then None else CaptureRest(s, i + 9, b)
  }

  /** `/expected[:\s]+(.+)$/i` searched from position `i` on, as `String.prototype.match`
      does for an unanchored pattern: the first position that matches wins. */
  function ExpectedSearch(s: string, i: nat): Option<string>
    requires i <= |s|
    decreases |s| - i
  {
    if |s| - i < 8 then None
    else match ExpectedMatchAt(s, i)
      case Some(e) => Some(e)
      case None => ExpectedSearch(s, i + 1)
  }

  /** How the parser reads one line of the editor text. */
  datatype LineKind =
    | Skip                              // blank after trimming
    | StepStart(number: nat, action: string)
    | ExpectedLine(found: Option<string>)  // starts with "expected"; `found` is the trimmed capture
    | Continuation(text: string)

  /** The capture of the expected-result pattern, trimmed as the page stores it. */
  function TrimFound(found: Option<string>): Option<string> {
    match found
    case None => None
    case Some(e) => Some(Trim(e))
  }

  function Classify(line: string): LineKind {
    var t := Trim(line);
    if t == [] then Skip
    else match StepLineMatch(t)
      case Some(m) => StepStart(m.0, m.1)
      case None =>
        if StartsWith(ToLower(t), "expected") then ExpectedLine(TrimFound(ExpectedSearch(t, 0)))
        else Continuation(t)
  }

  /** The parser's variables: the step being built and the steps already pushed. */
  datatype ParseState = ParseState(current: Option<TestStep>, done: seq<TestStep>)

  function Pending(current: Option<TestStep>): seq<TestStep> {
    if current.Some? then [current.value] else []
  }

  /** What one iteration of the parser's loop does with a line of the given kind. */
  function Step(st: ParseState, k: LineKind): ParseState {
    match k
    case Skip => st
    case StepStart(n, a) => ParseState(Some(TestStep(n, a, "")), st.done + Pending(st.current))
    case ExpectedLine(found) =>
      if found.Some? && st.current.Some? then
        ParseState(Some(st.current.value.(expectedResult := found.value)), st.done)
      else st
    case Continuation(t) =>
      if st.current.Some? then
        ParseState(Some(st.current.value.(action := st.current.value.action + " " + t)), st.done)
      else st
  }

  /** The kind of every line. */
  function Classes(lines: seq<string>): (r: seq<LineKind>)
    ensures |r| == |lines|
    decreases |lines|
  {
    if lines == [] then [] else [Classify(lines[0])] + Classes(lines[1..])
  }

  /** The loop run over lines of the given kinds. */
  function Run(st: ParseState, kinds: seq<LineKind>): ParseState
    decreases |kinds|
  {
    if kinds == [] then st else Run(Step(st, kinds[0]), kinds[1..])
  }

  /** What is left once the loop is over: the pushed steps and the one still being built. */
  function Finish(st: ParseState): seq<TestStep> {
    st.done + Pending(st.current)
  }

  /** The structured steps the parser produces from `text`. */
  function ParseSteps(text: string): seq<TestStep> {
    Finish(Run(ParseState(None, []), Classes(Split(text, '\n'))))
  }

  /** Running the loop over `lines[i..]` is one iteration followed by the rest. */
  lemma RunUnfold(st: ParseState, lines: seq<string>, i: nat)
    requires i < |lines|
    ensures Run(st, Classes(lines[i..])) == Run(Step(st, Classify(lines[i])), Classes(lines[i + 1..]))
  {
    assert lines[i..][1..] == lines[i + 1..];
  }

  /** The four outcomes of one iteration, each as the page's code computes it. */
  lemma StepBlank(st: ParseState, line: string)
    requires Trim(line) == []
    ensures Step(st, Classify(line)) == st
  {
  }

  lemma StepStepLine(st: ParseState, line: string, m: (nat, string))
    requires Trim(line) != [] && StepLineMatch(Trim(line)) == Some(m)
    ensures Step(st, Classify(line)) == ParseState(Some(TestStep(m.0, m.1, "")), st.done + Pending(st.current))
  {
  }

  lemma StepExpectedLine(st: ParseState, line: string)
    requires Trim(line) != [] && StepLineMatch(Trim(line)) == None
    requires StartsWith(ToLower(Trim(line)), "expected")
    ensures var found := ExpectedSearch(Trim(line), 0);
      Step(st, Classify(line)) ==
        if found.Some? && st.current.Some? then
          ParseState(Some(st.current.value.(expectedResult := Trim(found.value))), st.done)
        else st
  {
  }

  lemma StepOtherLine(st: ParseState, line: string)
    requires Trim(line) != [] && StepLineMatch(Trim(line)) == None
    requires !StartsWith(ToLower(Trim(line)), "expected")
    ensures Step(st, Classify(line)) ==
      if st.current.Some? then
        ParseState(Some(st.current.value.(action := st.current.value.action + " " + Trim(line))), st.done)
      else st
  {
  }

  /** One pass of the page's loop body over a line: blank lines are skipped, a numbered
      line pushes the step being built and starts the next one, an "expected" line sets
      the expected result, and any other line extends the action. */
  method FeedLine(st: ParseState, line: string) returns (r: ParseState)
    ensures r == Step(st, Classify(line))
  {
    var current, steps := st.current, st.done;
    var trimmed := Trim(line);
    if trimmed == [] {
      StepBlank(st, line);
      return st;
    }
    var stepMatch := StepLineMatch(trimmed);
    if stepMatch.Some? {
      StepStepLine(st, line, stepMatch.value);
      if current.Some? {
        steps := steps + [current.value];
      }
      current := Some(TestStep(stepMatch.value.0, stepMatch.value.1, ""));
    } else if StartsWith(ToLower(trimmed), "expected") {
      StepExpectedLine(st, line);
      var expectedMatch := ExpectedSearch(trimmed, 0);
      if expectedMatch.Some? && current.Some? {
        current := Some(current.value.(expectedResult := Trim(expectedMatch.value)));
      }
    } else {
      StepOtherLine(st, line);
      if current.Some? {
        current := Some(current.value.(action := current.value.action + " " + trimmed));
      }
    }
    r := ParseState(current, steps);
  }

  /** The parser as the page runs it: one pass over the lines, then the step still being
      built is pushed. */
  method ParseStepsText(text: string) returns (steps: seq<TestStep>)
    ensures steps == ParseSteps(text)
  {
    var lines := Split(text, '\n');
    var st := ParseState(None, []);
    for i := 0 to |lines|
      invariant Run(st, Classes(lines[i..])) == Run(ParseState(None, []), Classes(lines))
    {
      RunUnfold(st, lines, i);
      st := FeedLine(st, lines[i]);
    }
    assert lines[|lines|..] == [];
    steps := st.done;
    if st.current.Some? {
      steps := steps + [st.current.value];
    }
  }

  /** A text of three lines is parsed by classifying each of them in turn. */
  lemma ParseOfThreeLines(text: string, a: string, b: string, c: string)
    requires Split(text, '\n') == [a, b, c]
    ensures ParseSteps(text) == Finish(Run(ParseState(None, []), [Classify(a), Classify(b), Classify(c)]))
  {
    ClassesCons(a, b, [c]);
    assert [a, b] + [c] == [a, b, c];
    assert [c][1..] == [];
    assert Classes([c]) == [Classify(c)];
    assert [Classify(a), Classify(b)] + [Classify(c)] == [Classify(a), Classify(b), Classify(c)];
  }

  /** A line holding only a digit, a dot and a space (a placeholder line) trims to the
      digit and the dot, which the step pattern rejects because `(.+)` needs a
      character; it is read as continuation text. */
  lemma ClassifyBareNumber(d: char)
    requires IsDigit(d)
    ensures Classify([d, '.', ' ']) == Continuation([d, '.'])
  {
    var line := [d, '.', ' '];
    assert TrimStart(line) == line;
    assert line[..2] == [d, '.'];
    assert TrimEnd([d, '.']) == [d, '.'];
    var t := Trim(line);
    assert t == [d, '.'];
    assert RunEnd(t, 1, Digits) == 1;
    assert RunEnd(t, 0, Digits) == 1;
    assert RunEnd(t, 2, Blanks) == 2;
    assert StepLineMatch(t) == None;
  }

  /** A numbered line whose text follows a single space after the dot, with trailing
      spaces, starts a step with that number and the trimmed text. */
  lemma ClassifyNumberedLine(d: char, text: string, tail: string)
    requires IsDigit(d) && text != [] && !IsSpace(text[0]) && !IsSpace(text[|text| - 1])
    requires NoTerminator(text) && AllSpace(tail)
    ensures Classify([d, '.', ' '] + text + tail) == StepStart(DigitValue(d), text)
  {
    var line := [d, '.', ' '] + text + tail;
    var t := [d, '.', ' '] + text;
    assert line == t + tail;
    assert TrimStart(line) == line;
    TrimEndOfSpaces(t, tail);
    assert Trim(line) == t;
    RunEndIs(t, 0, Digits, 1);
    RunEndIs(t, 2, Blanks, 3);
    assert t[3..] == text;
    assert t[..1] == [d];
    assert DigitsValue([d]) == DigitValue(d) by {
      assert [d][..0] == [];
    }
  }

  /** The structured steps kept after an edit: blank text keeps the old ones (or none),
      anything else is parsed. */
  function StepsAfterEdit(previous: Option<seq<TestStep>>, newSteps: string): seq<TestStep> {
    if IsBlank(newSteps) then previous.GetOr([]) else ParseSteps(newSteps)
  }

  // ---------------------------------------------------------------- printing

  /** The number printed for a step: its own, or its 1-based position when it has none. */
  function PrintedNumber(s: TestStep, idx: nat): nat {
    if s.stepNumber != 0 then s.stepNumber else idx + 1
  }

  /** The first line of a printed step. */
  function ActionLine(s: TestStep, idx: nat): string {
    NatToString(PrintedNumber(s, idx)) + ". " + s.action
  }

  /** The second line of a printed step. */
  function ExpectedText(s: TestStep): string {
    "   Expected: " + s.expectedResult
  }

  /** `${n}. ${action}\n   Expected: ${expected}` for the step at index `idx`. */
  function Block(s: TestStep, idx: nat): string {
    ActionLine(s, idx) + "\n" + ExpectedText(s)
  }

  function Blocks(steps: seq<TestStep>, base: nat): (r: seq<string>)
    ensures |r| == |steps|
    decreases |steps|
  {
    if steps == [] then [] else [Block(steps[0], base)] + Blocks(steps[1..], base + 1)
  }

  /** The printed text of structured steps: one block per step, joined by line feeds. */
  function PrintSteps(steps: seq<TestStep>): string {
    Join(Blocks(steps, 0), "\n")
  }

  /** The lines of the printed text, two per step. */
  function PrintedLines(steps: seq<TestStep>, base: nat): seq<string>
    decreases |steps|
  {
    if steps == [] then []
    else [ActionLine(steps[0], base), ExpectedText(steps[0])] + PrintedLines(steps[1..], base + 1)
  }

  /** A step that survives printing and parsing: a positive number, a non-empty
      single-line action without surrounding blanks, and a single-line expected result
      without surrounding blanks that does not start with ':'. */
  predicate Printable(s: TestStep) {
    && s.stepNumber > 0
    && s.action != [] && !IsSpace(s.action[0]) && !IsSpace(s.action[|s.action| - 1])
    && NoTerminator(s.action)
    && (s.expectedResult != [] ==>
          !IsSpace(s.expectedResult[0]) && !IsSpace(s.expectedResult[|s.expectedResult| - 1])
          && s.expectedResult[0] != ':')
    && NoTerminator(s.expectedResult)
  }

  /** Every step of the list survives printing and parsing. */
  predicate AllPrintable(steps: seq<TestStep>)
    decreases |steps|
  {
    steps == [] || (Printable(steps[0]) && AllPrintable(steps[1..]))
  }

  lemma NatToStringNoTerminator(n: nat)
    ensures NoTerminator(NatToString(n))
  {
    var d := NatToString(n);
    assert forall i :: 0 <= i < |d| ==> IsDigit(d[i]);
  }

  lemma NoTerminatorNoNewline(s: string)
    requires NoTerminator(s)
    ensures '\n' !in s
  {
  }

  lemma NoTerminatorConcat(x: string, y: string)
    requires NoTerminator(x) && NoTerminator(y)
    ensures NoTerminator(x + y)
  {
    forall i | 0 <= i < |x + y| ensures !IsLineTerminator((x + y)[i]) {
      if i >= |x| { assert (x + y)[i] == y[i - |x|]; }
    }
  }

  /** Neither printed line of a printable step holds a line feed. */
  lemma PrintedLinesOfStepAreSingle(s: TestStep, idx: nat)
    requires Printable(s)
    ensures '\n' !in ActionLine(s, idx) && '\n' !in ExpectedText(s)
  {
    NatToStringNoTerminator(PrintedNumber(s, idx));
    NoTerminatorConcat(NatToString(PrintedNumber(s, idx)), ". ");
    NoTerminatorConcat(NatToString(PrintedNumber(s, idx)) + ". ", s.action);
    NoTerminatorNoNewline(ActionLine(s, idx));
    NoTerminatorConcat("   Expected: ", s.expectedResult);
    NoTerminatorNoNewline(ExpectedText(s));
  }

  lemma {:induction false} PrintedLinesAreSingle(steps: seq<TestStep>, base: nat)
    requires AllPrintable(steps)
    ensures forall i :: 0 <= i < |PrintedLines(steps, base)| ==> '\n' !in PrintedLines(steps, base)[i]
    decreases |steps|
  {
    if steps != [] {
      PrintedLinesOfStepAreSingle(steps[0], base);
      PrintedLinesAreSingle(steps[1..], base + 1);
    }
  }

  lemma {:induction false} JoinBlocksIsJoinLines(steps: seq<TestStep>, base: nat)
    requires steps != []
    ensures |PrintedLines(steps, base)| >= 1
    ensures Join(Blocks(steps, base), "\n") == Join(PrintedLines(steps, base), "\n")
    decreases |steps|
  {
    var a, e := ActionLine(steps[0], base), ExpectedText(steps[0]);
    var lines := PrintedLines(steps, base);
    assert lines == [a, e] + PrintedLines(steps[1..], base + 1);
    assert lines[1..] == [e] + PrintedLines(steps[1..], base + 1);
    if |steps| == 1 {
      assert lines[1..] == [e];
    } else {
      JoinBlocksIsJoinLines(steps[1..], base + 1);
      assert lines[1..][1..] == PrintedLines(steps[1..], base + 1);
    }
  }

  /** The printed text splits into exactly the printed lines. */
  lemma SplitPrinted(steps: seq<TestStep>, base: nat)
    requires steps != []
    requires AllPrintable(steps)
    ensures Split(Join(Blocks(steps, base), "\n"), '\n') == PrintedLines(steps, base)
  {
    JoinBlocksIsJoinLines(steps, base);
    PrintedLinesAreSingle(steps, base);
    SplitJoin(PrintedLines(steps, base), '\n');
  }

  lemma TrimAfterSpaces(w: string, x: string)
    requires AllSpace(w)
    requires x != [] && !IsSpace(x[0]) && !IsSpace(x[|x| - 1])
    ensures Trim(w + x) == x
    decreases |w|
  {
    if w != [] {
      assert (w + x)[1..] == w[1..] + x;
      TrimAfterSpaces(w[1..], x);
    }
  }

  /** The step-line pattern on `${digits}. ${action}` captures the number and the action. */
  lemma StepLineMatchOfPrinted(digits: string, action: string)
    requires digits != [] && AllDigits(digits)
    requires action != [] && !IsSpace(action[0]) && NoTerminator(action)
    ensures StepLineMatch(digits + ". " + action) == Some((DigitsValue(digits), action))
  {
    var line := digits + ". " + action;
    var d := |digits|;
    assert forall k :: 0 <= k < d ==> line[k] == digits[k];
    assert line[d] == '.' && line[d + 1] == ' ' && line[d + 2] == action[0];
    RunEndIs(line, 0, Digits, d);
    RunEndIs(line, d + 1, Blanks, d + 2);
    assert line[d + 2..] == action;
    assert line[..d] == digits;
  }

  /** A printed action line reads back as the step's number and action. */
  lemma ClassifyActionLine(s: TestStep, idx: nat)
    requires Printable(s)
    ensures Classify(ActionLine(s, idx)) == StepStart(s.stepNumber, s.action)
  {
    var digits := NatToString(s.stepNumber);
    var line := ActionLine(s, idx);
    assert line == digits + ". " + s.action;
    assert !IsSpace(line[0]) by { assert line[0] == digits[0]; }
    assert line[|line| - 1] == s.action[|s.action| - 1];
    TrimmedIsFixed(line);
    StepLineMatchOfPrinted(digits, s.action);
    DigitsValueOfNatToString(s.stepNumber);
  }

  lemma LowerExpected()
    ensures ToLower("Expected") == "expected"
  {
    assert LowerChar('E') == 'e';
  }

  /** A line that starts with "Expected" is not a step line and is an expected line. */
  lemma ExpectedPrefix(t: string)
    requires |t| >= 8 && t[..8] == "Expected"
    ensures StepLineMatch(t) == None
    ensures ToLower(t[0..8]) == "expected" && StartsWith(ToLower(t), "expected")
  {
    assert t[0] == 'E';
    RunEndIs(t, 0, Digits, 0);
    LowerExpected();
    assert ToLower(t)[..8] == ToLower(t[..8]);
  }

  /** The expected-result pattern on `Expected: ${e}` captures `e`. */
  lemma ExpectedMatchOfPrinted(t: string, e: string)
    requires e != [] && !IsSpace(e[0]) && e[0] != ':' && NoTerminator(e)
    requires t == "Expected: " + e
    ensures ExpectedMatchAt(t, 0) == Some(e)
  {
    assert t[..8] == "Expected";
    ExpectedPrefix(t);
    assert t[8] == ':' && t[9] == ' ' && t[10] == e[0];
    RunEndIs(t, 8, Delimiters, 10);
    assert t[10..] == e;
  }

  /** `Expected:` alone is an expected line whose pattern finds nothing. */
  lemma ExpectedSearchOfBare(u: string)
    requires u == "Expected:"
    ensures ExpectedSearch(u, 0) == None
  {
    assert u[..8] == "Expected";
    ExpectedPrefix(u);
    RunEndIs(u, 8, Delimiters, 9);
    assert ExpectedMatchAt(u, 0) == None;
    assert u[1..9][0] == 'x';
    assert ExpectedMatchAt(u, 1) == None;
    assert ExpectedSearch(u, 2) == None;
    assert ExpectedSearch(u, 1) == None;
  }

  lemma {:induction false} TrimStartAfterSpaces(w: string, x: string)
    requires AllSpace(w)
    requires x == [] || !IsSpace(x[0])
    ensures TrimStart(w + x) == x
    decreases |w|
  {
    if w != [] {
      assert (w + x)[1..] == w[1..] + x;
      TrimStartAfterSpaces(w[1..], x);
    }
  }

  lemma ClassifyExpectedNonEmpty(line: string, t: string, e: string)
    requires e != [] && !IsSpace(e[0]) && !IsSpace(e[|e| - 1]) && e[0] != ':' && NoTerminator(e)
    requires t == "Expected: " + e && line == "   " + t
    ensures Classify(line) == ExpectedLine(Some(e))
  {
    assert t[|t| - 1] == e[|e| - 1];
    TrimAfterSpaces("   ", t);
    assert t[..8] == "Expected";
    ExpectedPrefix(t);
    ExpectedMatchOfPrinted(t, e);
    TrimmedIsFixed(e);
  }

  lemma ClassifyExpectedBare(line: string)
    requires line == "   Expected: "
    ensures Classify(line) == ExpectedLine(None)
  {
    var w, x := line[..3], line[3..];
    assert w + x == line;
    assert AllSpace(w) by { assert w[0] == ' ' && w[1] == ' ' && w[2] == ' '; }
    assert x[0] == 'E';
    TrimStartAfterSpaces(w, x);
    var u := x[..9];
    assert u == "Expected:";
    assert x[9] == ' ' && u[8] == ':';
    assert TrimEnd(u) == u;
    assert TrimEnd(x) == u;
    assert Trim(line) == u;
    ExpectedPrefix(u);
    ExpectedSearchOfBare(u);
  }

  /** A printed expected-result line reads back as that expected result: found when it is
      non-empty, and leaving the step alone when it is empty. */
  lemma ClassifyExpectedLine(s: TestStep)
    requires Printable(s)
    ensures s.expectedResult != [] ==> Classify(ExpectedText(s)) == ExpectedLine(Some(s.expectedResult))
    ensures s.expectedResult == [] ==> Classify(ExpectedText(s)) == ExpectedLine(None)
  {
    var e := s.expectedResult;
    if e != [] {
      ClassifyExpectedNonEmpty(ExpectedText(s), "Expected: " + e, e);
    } else {
      ClassifyExpectedBare(ExpectedText(s));
    }
  }

  /** The kind of each printed line: the step's number and action, then its expected
      result (nothing found when it is empty). */
  function PrintedKinds(steps: seq<TestStep>): seq<LineKind>
    decreases |steps|
  {
    if steps == [] then []
    else
      var e := steps[0].expectedResult;
      [StepStart(steps[0].stepNumber, steps[0].action), ExpectedLine(if e == [] then None else Some(e))]
        + PrintedKinds(steps[1..])
  }

  lemma ClassesCons(a: string, b: string, rest: seq<string>)
    ensures Classes([a, b] + rest) == [Classify(a), Classify(b)] + Classes(rest)
  {
    var lines := [a, b] + rest;
    assert lines[1..] == [b] + rest && lines[1..][1..] == rest;
  }

  lemma ClassesOfPrintedStep(s: TestStep, base: nat, rest: seq<string>)
    requires Printable(s)
    ensures Classes([ActionLine(s, base), ExpectedText(s)] + rest) == PrintedKinds([s]) + Classes(rest)
  {
    ClassesCons(ActionLine(s, base), ExpectedText(s), rest);
    ClassifyActionLine(s, base);
    ClassifyExpectedLine(s);
  }

  /** Every printed line is read back as the kind it was printed as. */
  lemma {:induction false} ClassesOfPrinted(steps: seq<TestStep>, base: nat)
    requires AllPrintable(steps)
    ensures Classes(PrintedLines(steps, base)) == PrintedKinds(steps)
    decreases |steps|
  {
    if steps != [] {
      var s := steps[0];
      ClassesOfPrintedStep(s, base, PrintedLines(steps[1..], base + 1));
      ClassesOfPrinted(steps[1..], base + 1);
      assert PrintedKinds(steps) == PrintedKinds([s]) + PrintedKinds(steps[1..]);
    }
  }

  /** Running the loop over the printed kinds pushes the pending step and all but the last
      of `steps`, and leaves the last one pending. */
  lemma {:induction false} RunPrinted(st: ParseState, steps: seq<TestStep>)
    requires steps != []
    ensures Run(st, PrintedKinds(steps))
         == ParseState(Some(steps[|steps| - 1]), st.done + Pending(st.current) + steps[..|steps| - 1])
    decreases |steps|
  {
    var s := steps[0];
    var kinds := PrintedKinds(steps);
    var st2 := ParseState(Some(s), st.done + Pending(st.current));
    assert Step(Step(st, kinds[0]), kinds[1]) == st2;
    assert kinds[1..][1..] == PrintedKinds(steps[1..]);
    assert Run(st, kinds) == Run(st2, PrintedKinds(steps[1..]));
    if |steps| > 1 {
      var tail := steps[1..];
      RunPrinted(st2, tail);
      assert tail[|tail| - 1] == steps[|steps| - 1];
      assert [s] + tail[..|tail| - 1] == steps[..|steps| - 1];
    }
  }

  /** Printing structured steps and parsing the text back recovers every step's number,
      action and expected result. */
  lemma ParsePrintRoundTrip(steps: seq<TestStep>)
    requires AllPrintable(steps)
    ensures ParseSteps(PrintSteps(steps)) == steps
  {
    if steps == [] {
      EmptyTextParsesEmpty(PrintSteps(steps));
    } else {
      ParsePrintedSteps(steps, PrintSteps(steps));
    }
  }

  lemma ParsePrintedSteps(steps: seq<TestStep>, text: string)
    requires steps != [] && AllPrintable(steps)
    requires text == Join(Blocks(steps, 0), "\n")
    ensures ParseSteps(text) == steps
  {
    SplitPrinted(steps, 0);
    ClassesOfPrinted(steps, 0);
    ParseOfPrintedKinds(steps, text);
  }

  lemma ParseOfPrintedKinds(steps: seq<TestStep>, text: string)
    requires steps != []
    requires Classes(Split(text, '\n')) == PrintedKinds(steps)
    ensures ParseSteps(text) == steps
  {
    var init := ParseState(None, []);
    RunPrinted(init, steps);
    assert steps[..|steps| - 1] + [steps[|steps| - 1]] == steps;
  }

  /** The empty text is one blank line, which yields no steps. */
  lemma EmptyTextParsesEmpty(text: string)
    requires text == []
    ensures ParseSteps(text) == []
  {
    assert '\n' !in text;
    assert Split(text, '\n') == [text];
    assert Classes([text]) == [Skip];
  }

  /** Saving the printed text unedited keeps the structured steps as they were. */
  lemma SaveUneditedKeepsSteps(steps: seq<TestStep>)
    requires AllPrintable(steps)
    ensures StepsAfterEdit(Some(steps), PrintSteps(steps)) == steps
  {
    ParsePrintRoundTrip(steps);
    if steps != [] {
      var t := PrintSteps(steps);
      var first := ActionLine(steps[0], 0);
      assert t[0] == first[0] by {
        if |steps| == 1 { assert t == Block(steps[0], 0); }
        else {
          var parts := Blocks(steps, 0);
          assert parts[1..] == Blocks(steps[1..], 1);
          assert t == Block(steps[0], 0) + "\n" + Join(Blocks(steps[1..], 1), "\n");
        }
      }
      var digits := NatToString(PrintedNumber(steps[0], 0));
      assert first[0] == digits[0];
      assert IsDigit(first[0]);
      BlankIffAllSpace(t);
    }
  }

  /** When no line is a numbered step line, nothing is produced, whatever the other lines
      say. */
  lemma {:induction false} NoNumberedLineNoSteps(kinds: seq<LineKind>, done: seq<TestStep>)
    requires forall i :: 0 <= i < |kinds| ==> !kinds[i].StepStart?
    ensures Run(ParseState(None, done), kinds) == ParseState(None, done)
    decreases |kinds|
  {
    if kinds != [] {
      NoNumberedLineNoSteps(kinds[1..], done);
    }
  }

  /** Non-blank text without a numbered line parses to no steps, so an edit replaces the
      structured steps by the empty list. */
  lemma TextWithoutNumberedLineParsesEmpty(text: string)
    requires forall i :: 0 <= i < |Split(text, '\n')| ==> !Classes(Split(text, '\n'))[i].StepStart?
    ensures ParseSteps(text) == []
  {
    NoNumberedLineNoSteps(Classes(Split(text, '\n')), []);
  }
}
