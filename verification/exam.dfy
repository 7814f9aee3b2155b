/** The exam page (pages/2test.py): the tolerant parser of the interchange
    text, the fixed eleven-slot exam sequence, the cue schedule of the
    spoken questions, and the upload / preview / run page flow. */
module Exam {
  import opened Wrappers
  import opened Text
  import opened Templates

  // ---------------------------------------------------------------------
  // Parsing one line
  // ---------------------------------------------------------------------

  /** Length of the run of ASCII digits at the front of `s`. */
  function DigitRun(s: string): (k: nat)
    ensures k <= |s|
    ensures forall i :: 0 <= i < k ==> IsDigit(s[i])
    ensures k < |s| ==> !IsDigit(s[k])
  {
    if s != [] && IsDigit(s[0]) then 1 + DigitRun(s[1..]) else 0
  }

  /** `line` matches `^(I\d+|SR\d+|N\d+|C\d+|R\d+)\.\s*(.+)$` with code
      `t`, digits `d` and tail `g`: the tail is the `\s*` run followed by
      group 2, so group 2 stripped is `g` stripped. */
  predicate QuestionForm(line: string, t: Category, d: string, g: string) {
    line == CategoryCode(t) + d + "." + g
    && d != [] && (forall i :: 0 <= i < |d| ==> IsDigit(d[i]))
    && g != []
  }

  /** The category whose code opens `line`, "SR" tried before the single
      letters. */
  function CodeOf(line: string): (r: Option<Category>)
    ensures r.Some? ==> StartsWith(line, CategoryCode(r.value))
    ensures r.None? <==> line == [] || line[0] !in "ISNCR" || (line[0] == 'S' && !StartsWith(line, "SR"))
  {
    if StartsWith(line, "SR") then Some(SR)
    else if line == [] then None
    else if line[0] == 'I' then Some(I)
    else if line[0] == 'N' then Some(N)
    else if line[0] == 'C' then Some(C)
    else if line[0] == 'R' then Some(R)
    else None
  }

  /** `re.match(r"^(I\d+|SR\d+|N\d+|C\d+|R\d+)\.\s*(.+)$", line)` on a
      line of the split text, with the code mapped to its category and the
      second group stripped. */
  function ParseQuestionLine(line: string): (r: Option<(Category, string)>)
    ensures r.Some? ==> StartsWith(line, CategoryCode(r.value.0)) && Trimmed(r.value.1)
  {
    match CodeOf(line)
    case None => None
    case Some(t) => ParseNumbered(t, line[|CategoryCode(t)|..])
  }

  /** What follows the code: one or more digits, a '.', and at least one
      more character; the question is that remainder stripped. */
  function ParseNumbered(t: Category, rest: string): Option<(Category, string)> {
    var k := DigitRun(rest);
    if 1 <= k && k + 1 < |rest| && rest[k] == '.' then Some((t, Strip(rest[k + 1..])))
    else None
  }

  /** Only a line of the question form is read, as the category of its
      code and its tail stripped. */
  lemma ParsedLineForm(line: string)
    requires ParseQuestionLine(line).Some?
    ensures exists d, g :: QuestionForm(line, ParseQuestionLine(line).value.0, d, g)
                          && ParseQuestionLine(line).value.1 == Strip(g)
  {
    var t := CodeOf(line).value;
    var rest := line[|CategoryCode(t)|..];
    assert ParseQuestionLine(line) == ParseNumbered(t, rest);
    NumberedParts(t, rest);
    var k := DigitRun(rest);
    var d, g := rest[..k], rest[k + 1..];
    assert line == CategoryCode(t) + d + "." + g by {
      SplitAt(line, |CategoryCode(t)|);
      ConcatAssoc(CategoryCode(t), d, g);
    }
    assert QuestionForm(line, t, d, g);
  }

  /** The digits, the '.' and the tail of a parsed remainder. */
  lemma NumberedParts(t: Category, rest: string)
    requires ParseNumbered(t, rest).Some?
    ensures var k := DigitRun(rest);
      1 <= k && k + 1 < |rest| && rest == rest[..k] + "." + rest[k + 1..]
      && ParseNumbered(t, rest) == Some((t, Strip(rest[k + 1..])))
  {
    SplitAtDot(rest, DigitRun(rest));
  }

  lemma ConcatAssoc(a: string, d: string, g: string)
    ensures a + (d + "." + g) == a + d + "." + g
  {
  }

  /** A string is its prefix followed by the rest. */
  lemma SplitAt(s: string, n: nat)
    requires n <= |s|
    ensures s == s[..n] + s[n..]
  {
  }

  /** A string with a '.' at `k` is the text before it, the '.' and the
      text after it. */
  lemma SplitAtDot(s: string, k: nat)
    requires k < |s| && s[k] == '.'
    ensures s == s[..k] + "." + s[k + 1..]
  {
    assert s[k..k + 1] == ".";
    assert s == s[..k] + s[k..k + 1] + s[k + 1..];
  }

  /** Every line of the question form is read, as the category of its code
      and its tail stripped; with `ParsedLineForm`, a line is a question
      exactly when it matches. */
  lemma ParseQuestionForm(line: string, t: Category, d: string, g: string)
    requires QuestionForm(line, t, d, g)
    ensures ParseQuestionLine(line) == Some((t, Strip(g)))
  {
    var rest := d + "." + g;
    assert line == CategoryCode(t) + rest;
    CodeOfNumbered(t, rest);
    assert line[|CategoryCode(t)|..] == rest;
    NumberedRest(d, g);
    assert ParseNumbered(t, rest) == Some((t, Strip(g)));
  }

  /** Digits, '.' and a non-empty tail: the digit run stops at the '.'. */
  lemma NumberedRest(d: string, g: string)
    requires d != [] && forall i :: 0 <= i < |d| ==> IsDigit(d[i])
    requires g != []
    ensures DigitRun(d + "." + g) == |d| && |d| + 1 < |d + "." + g|
    ensures (d + "." + g)[|d|] == '.' && (d + "." + g)[|d| + 1..] == g
  {
    assert d + "." + g == d + ("." + g);
    DigitRunPrefix(d, "." + g);
  }

  /** A category code followed by a digit is read as that category. */
  lemma CodeOfNumbered(t: Category, rest: string)
    requires rest != [] && IsDigit(rest[0])
    ensures CodeOf(CategoryCode(t) + rest) == Some(t)
  {
    var line := CategoryCode(t) + rest;
    if t == SR {
      assert line[..2] == "SR";
    } else {
      assert line[1] == rest[0];
    }
  }

  /** A line the export writes for a question is read back as that
      question of that category. */
  lemma ParseNumberedLine(t: Category, n: nat, text: string)
    requires WellFormedText(text)
    ensures ParseQuestionLine(CategoryCode(t) + NatToString(n) + ". " + text) == Some((t, text))
  {
    ParseCodeLine(t, NatToString(n), text);
  }

  lemma ParseCodeLine(t: Category, digits: string, text: string)
    requires text != [] && Trimmed(text)
    requires digits != [] && forall i :: 0 <= i < |digits| ==> IsDigit(digits[i])
    ensures ParseQuestionLine(CategoryCode(t) + digits + ". " + text) == Some((t, text))
  {
    CodeLineForm(t, digits, text);
    ParseSpacedText(CategoryCode(t) + digits + ". " + text, t, digits, text);
  }

  /** A question line whose tail is a space and a trimmed text reads as
      that text. */
  lemma ParseSpacedText(line: string, t: Category, digits: string, text: string)
    requires QuestionForm(line, t, digits, " " + text)
    requires text != [] && Trimmed(text)
    ensures ParseQuestionLine(line) == Some((t, text))
  {
    assert Strip(" " + text) == text by {
      StripAfterSpace(" ", text);
    }
    assert ParseQuestionLine(line) == Some((t, Strip(" " + text))) by {
      ParseQuestionForm(line, t, digits, " " + text);
    }
  }

  /** An exported question line is of the question form, its tail the
      space and the text. */
  lemma CodeLineForm(t: Category, digits: string, text: string)
    requires text != []
    requires digits != [] && forall i :: 0 <= i < |digits| ==> IsDigit(digits[i])
    ensures QuestionForm(CategoryCode(t) + digits + ". " + text, t, digits, " " + text)
  {
    assert CategoryCode(t) + digits + ". " + text == CategoryCode(t) + digits + "." + (" " + text);
  }

  lemma {:induction false} DigitRunPrefix(digits: string, tail: string)
    requires forall i :: 0 <= i < |digits| ==> IsDigit(digits[i])
    requires tail != [] && !IsDigit(tail[0])
    ensures DigitRun(digits + tail) == |digits|
  {
    if digits != [] {
      assert (digits + tail)[1..] == digits[1..] + tail;
      DigitRunPrefix(digits[1..], tail);
    } else {
      assert digits + tail == tail;
    }
  }

  /** A line that starts with none of the category letters never counts as
      a question. */
  lemma NonQuestionLine(line: string)
    requires line == [] || line[0] !in "ISNCR"
    ensures ParseQuestionLine(line) == None
  {
  }

  // ---------------------------------------------------------------------
  // Parsing the text
  // ---------------------------------------------------------------------

  /** `[l.strip() for l in text.splitlines()]`. */
  function StrippedLines(text: string): (lines: seq<string>)
    ensures |lines| == |SplitLines(text)|
    ensures forall j :: 0 <= j < |lines| ==> lines[j] == Strip(SplitLines(text)[j])
  {
    var raw := SplitLines(text);
    seq(|raw|, j requires 0 <= j < |raw| => Strip(raw[j]))
  }

  /** Index of the first line starting with the claim marker, or the
      number of lines when there is none. */
  function FirstMarker(lines: seq<string>): (k: nat)
    ensures k <= |lines|
    ensures forall j :: 0 <= j < k ==> !StartsWith(lines[j], ClaimMarker)
    ensures k < |lines| ==> StartsWith(lines[k], ClaimMarker)
  {
    if lines == [] then 0
    else if StartsWith(lines[0], ClaimMarker) then 0
    else 1 + FirstMarker(lines[1..])
  }

  /** The core claim: the stripped line after the first marker line, or ""
      when there is no marker or it is the last line. */
  function CoreClaimOf(lines: seq<string>): string {
    var k := FirstMarker(lines);
    if k + 1 < |lines| then Strip(lines[k + 1]) else ""
  }

  /** The five question lists, keyed by category. */
  datatype QuestionLists = QuestionLists(i: seq<string>, sr: seq<string>, n: seq<string>, c: seq<string>, r: seq<string>) {

    function Get(t: Category): seq<string> {
      match t
      case I => i
      case SR => sr
      case N => n
      case C => c
      case R => r
    }

    /** `questions[t].append(q)`: only list `t` changes, and it grows by `q`. */
    function Add(t: Category, q: string): (out: QuestionLists)
      ensures out.Get(t) == Get(t) + [q]
      ensures forall u :: u != t ==> out.Get(u) == Get(u)
    {
      match t
      case I => this.(i := i + [q])
      case SR => this.(sr := sr + [q])
      case N => this.(n := n + [q])
      case C => this.(c := c + [q])
      case R => this.(r := r + [q])
    }
  }

  const NoQuestions: QuestionLists := QuestionLists([], [], [], [], [])

  /** A line's parse: its category and question, or `None`. */
  type Parse = Option<(Category, string)>

  /** The parse of every line, in line order. */
  function Parses(lines: seq<string>): (ps: seq<Parse>)
    ensures |ps| == |lines|
  {
    if lines == [] then []
    else Parses(lines[..|lines| - 1]) + [ParseQuestionLine(lines[|lines| - 1])]
  }

  /** The parse at each position is that line's parse. */
  lemma {:induction false} ParsesAt(lines: seq<string>, j: nat)
    requires j < |lines|
    ensures Parses(lines)[j] == ParseQuestionLine(lines[j])
  {
    if j < |lines| - 1 {
      var front := lines[..|lines| - 1];
      ParsesAt(front, j);
      assert front[j] == lines[j];
    }
  }

  /** The question a parse contributes to category `t`: one when it is a
      question of that category, none otherwise. */
  function Pick(p: Parse, t: Category): seq<string> {
    if p.Some? && p.value.0 == t then [p.value.1] else []
  }

  /** The questions of category `t` among the parses, in order. */
  function Collect(ps: seq<Parse>, t: Category): seq<string> {
    if ps == [] then []
    else Collect(ps[..|ps| - 1], t) + Pick(ps[|ps| - 1], t)
  }

  /** `questions` after the loop: each category's questions, in line order. */
  function ParsedLists(lines: seq<string>): QuestionLists {
    var ps := Parses(lines);
    QuestionLists(Collect(ps, I), Collect(ps, SR), Collect(ps, N), Collect(ps, C), Collect(ps, R))
  }

  /** Collecting distributes over concatenated parses. */
  lemma {:induction false} CollectAppend(a: seq<Parse>, b: seq<Parse>, t: Category)
    ensures Collect(a + b, t) == Collect(a, t) + Collect(b, t)
  {
    if b != [] {
      var b0 := b[..|b| - 1];
      assert (a + b)[..|a + b| - 1] == a + b0;
      assert (a + b)[|a + b| - 1] == b[|b| - 1];
      CollectAppend(a, b0, t);
    } else {
      assert a + b == a;
    }
  }

  /** One more line adds its question, if it has one, to its category's
      list. */
  lemma ParsedListsStep(lines: seq<string>, m: nat)
    requires m < |lines|
    ensures ParsedLists(lines[..m + 1])
         == match ParseQuestionLine(lines[m])
            case None => ParsedLists(lines[..m])
            case Some(p) => ParsedLists(lines[..m]).Add(p.0, p.1)
  {
    assert lines[..m + 1][..m] == lines[..m];
  }

  /** The claim search stops at the first marker line. */
  lemma ClaimAtMarker(lines: seq<string>, k: nat)
    requires k < |lines| && k <= FirstMarker(lines) && StartsWith(lines[k], ClaimMarker)
    ensures CoreClaimOf(lines) == (if k + 1 < |lines| then Strip(lines[k + 1]) else "")
  {
  }

  /** The claim search of the parser: the line after the first marker
      line, stripped. */
  method FindCoreClaim(lines: seq<string>) returns (coreClaim: string)
    ensures coreClaim == CoreClaimOf(lines)
  {
    coreClaim := "";
    var k := 0;
    while k < |lines|
      invariant k <= FirstMarker(lines)
      invariant coreClaim == ""
    {
      if StartsWith(lines[k], ClaimMarker) {
        ClaimAtMarker(lines, k);
        if k + 1 < |lines| {
          coreClaim := Strip(lines[k + 1]);
        }
        break;
      }
      k := k + 1;
    }
  }

  /** The question loop of the parser: every matching line appends its
      question to its category's list. */
  method CollectQuestions(lines: seq<string>) returns (questions: QuestionLists)
    ensures questions == ParsedLists(lines)
  {
    questions := NoQuestions;
    for m := 0 to |lines|
      invariant questions == ParsedLists(lines[..m])
    {
      var parsed := ParseQuestionLine(lines[m]);
      ParsedListsStep(lines, m);
      if parsed.None? {
        continue;
      }
      var (qtype, question) := parsed.value;
      questions := questions.Add(qtype, question);
    }
    assert lines[..|lines|] == lines;
  }

  /** `parse_question_set_txt(text)`: the core claim and the question lists
      of the stripped lines of `text`. */
  method ParseQuestionSetTxt(text: string) returns (coreClaim: string, questions: QuestionLists)
    ensures coreClaim == CoreClaimOf(StrippedLines(text))
    ensures questions == ParsedLists(StrippedLines(text))
  {
    var lines := StrippedLines(text);
    coreClaim := FindCoreClaim(lines);
    questions := CollectQuestions(lines);
  }

  // ---------------------------------------------------------------------
  // The exam sequence
  // ---------------------------------------------------------------------

  /** One slot of the exam: its category, its 1-based number within the
      category and the question text. */
  datatype ExamItem = ExamItem(kind: Category, index: nat, text: string)

  /** The slot order I, SR, then N, C, R three times. */
  const Pattern: seq<Category> := [I, SR, N, C, R, N, C, R, N, C, R]

  /** The text standing in for a missing question. */
  function Placeholder(t: Category): (p: string)
    ensures |p| > 0 && p[0] == '['
  {
    "[" + CategoryCode(t) + " 질문이 부족합니다]"
  }

  /** Element `j` of `xs`, or the placeholder of `t` when there is none. */
  function ElementOr(xs: seq<string>, j: nat, t: Category): string {
    if j < |xs| then xs[j] else Placeholder(t)
  }

  /** Whether a category's counter advances after its slot. */
  predicate Advances(t: Category) {
    t == N || t == C || t == R
  }

  /** How many slots of each category the pattern has. */
  function Quota(t: Category): nat {
    if Advances(t) then 3 else 1
  }

  /** The position, within its category, of pattern slot `k`. */
  function SlotOrdinal(k: nat): nat {
    if k < 2 then 0 else (k - 2) / 3
  }

  /** The item for question `j` of category `t`. */
  function Slot(q: QuestionLists, t: Category, j: nat): ExamItem {
    ExamItem(t, j + 1, ElementOr(q.Get(t), j, t))
  }

  /** The exam as a whole, slot by slot. */
  function ExamSequence(q: QuestionLists): (exam: seq<ExamItem>)
    ensures |exam| == |Pattern|
  {
    seq(|Pattern|, k requires 0 <= k < |Pattern| => Slot(q, Pattern[k], SlotOrdinal(k)))
  }

  /** The eleven slots written out. */
  lemma ExamSlots(q: QuestionLists)
    ensures LaidOut(q, ExamSequence(q))
  {
    assert SlotOrdinal(5) == 1 && SlotOrdinal(6) == 1 && SlotOrdinal(7) == 1;
    assert SlotOrdinal(8) == 2 && SlotOrdinal(9) == 2 && SlotOrdinal(10) == 2;
  }

  /** The value of `counters[t]` after the first `k` slots. */
  function CounterAfter(k: nat, t: Category): nat {
    match t
    case N => if k <= 2 then 0 else (k - 0) / 3
    case C => if k <= 3 then 0 else (k - 1) / 3
    case R => if k <= 4 then 0 else (k - 2) / 3
    case _ => 0
  }

  /** At slot `k` the counter of its category is the slot's ordinal, and
      only that counter moves, and only for N, C and R. */
  lemma CounterStep(k: nat)
    requires k < |Pattern|
    ensures CounterAfter(k, Pattern[k]) == SlotOrdinal(k)
    ensures forall t :: CounterAfter(k + 1, t)
                     == CounterAfter(k, t) + (if t == Pattern[k] && Advances(t) then 1 else 0)
  {
    if k == 0 {
    } else if k == 1 {
    } else if k == 2 {
    } else if k == 3 {
    } else if k == 4 {
    } else if k == 5 {
    } else if k == 6 {
    } else if k == 7 {
    } else if k == 8 {
    } else if k == 9 {
    } else {
      assert k == 10;
    }
  }

  /** `build_exam_sequence(questions)`: the pattern walked with one counter
      per category, the N, C and R counters advancing after their slots. */
  method BuildExamSequence(q: QuestionLists) returns (exam: seq<ExamItem>)
    ensures exam == ExamSequence(q)
  {
    var counters: map<Category, nat> := map[I := 0, SR := 0, N := 0, C := 0, R := 0];
    forall t: Category ensures t in counters {
      assert t.I? || t.SR? || t.N? || t.C? || t.R?;
    }
    exam := [];
    for k := 0 to |Pattern|
      invariant forall t :: t in counters
      invariant forall t :: counters[t] == CounterAfter(k, t)
      invariant exam == ExamSequence(q)[..k]
    {
      var t := Pattern[k];
      CounterStep(k);
      var idx := counters[t];
      var qText := if idx < |q.Get(t)| then q.Get(t)[idx] else Placeholder(t);
      ExamPrefixStep(q, k);
      exam := exam + [ExamItem(t, idx + 1, qText)];
      if Advances(t) {
        counters := counters[t := counters[t] + 1];
      }
    }
  }

  /** The exam's first `k + 1` slots extend its first `k` by slot `k`. */
  lemma ExamPrefixStep(q: QuestionLists, k: nat)
    requires k < |Pattern|
    ensures ExamSequence(q)[..k + 1] == ExamSequence(q)[..k] + [Slot(q, Pattern[k], SlotOrdinal(k))]
  {
  }

  /** The items of category `t`, in exam order. */
  function OfKind(exam: seq<ExamItem>, t: Category): seq<ExamItem> {
    if exam == [] then []
    else (if exam[0].kind == t then [exam[0]] else []) + OfKind(exam[1..], t)
  }

  lemma OfKindPair(a: ExamItem, b: ExamItem, t: Category)
    ensures OfKind([a, b], t) == (if a.kind == t then [a] else []) + (if b.kind == t then [b] else [])
  {
    assert [a, b][1..] == [b];
    assert [b][1..] == [];
    assert OfKind([b], t) == (if b.kind == t then [b] else []) + OfKind([], t);
  }

  lemma OfKindTriple(a: ExamItem, b: ExamItem, c: ExamItem, t: Category)
    requires a.kind == N && b.kind == C && c.kind == R
    ensures OfKind([a, b, c], t) == (if t == N then [a] else if t == C then [b] else if t == R then [c] else [])
  {
    assert [a, b, c][1..] == [b, c];
    OfKindPair(b, c, t);
  }

  /** Whatever the lists hold, the exam takes each category's questions in
      list order: I and SR their first question, N, C and R their first
      three, numbered from 1, with the placeholder where a list runs short. */
  lemma ExamByKind(q: QuestionLists, t: Category)
    ensures OfKind(ExamSequence(q), t)
         == seq(Quota(t), j requires 0 <= j < Quota(t) => Slot(q, t, j))
  {
    var e := ExamSequence(q);
    ExamSlots(q);
    var want := seq(Quota(t), j requires 0 <= j < Quota(t) => Slot(q, t, j));
    if Advances(t) {
      RoundsByKind(q, e, t);
      assert want == [Slot(q, t, 0), Slot(q, t, 1), Slot(q, t, 2)];
    } else {
      OpeningByKind(q, e, t);
      assert want == [Slot(q, t, 0)];
    }
  }

  /** The slots of the exam of `q`, as `ExamSlots` lists them. */
  predicate LaidOut(q: QuestionLists, e: seq<ExamItem>) {
    && |e| == 11
    && e[0] == Slot(q, I, 0) && e[1] == Slot(q, SR, 0)
    && e[2] == Slot(q, N, 0) && e[3] == Slot(q, C, 0) && e[4] == Slot(q, R, 0)
    && e[5] == Slot(q, N, 1) && e[6] == Slot(q, C, 1) && e[7] == Slot(q, R, 1)
    && e[8] == Slot(q, N, 2) && e[9] == Slot(q, C, 2) && e[10] == Slot(q, R, 2)
  }

  /** The categories of eleven items follow the pattern. */
  predicate KindsLaidOut(e: seq<ExamItem>) {
    && |e| == 11
    && e[0].kind == I && e[1].kind == SR
    && e[2].kind == N && e[3].kind == C && e[4].kind == R
    && e[5].kind == N && e[6].kind == C && e[7].kind == R
    && e[8].kind == N && e[9].kind == C && e[10].kind == R
  }

  /** Filtering items laid out by the pattern picks one item per round for
      N, C and R and one opening item for I and SR. */
  lemma KindsByRound(e: seq<ExamItem>, t: Category)
    requires KindsLaidOut(e)
    ensures OfKind(e, t) == match t
      case I => [e[0]]
      case SR => [e[1]]
      case N => [e[2], e[5], e[8]]
      case C => [e[3], e[6], e[9]]
      case R => [e[4], e[7], e[10]]
  {
    OfKindSplit(e, t);
    OfKindPair(e[0], e[1], t);
    OfKindTriple(e[2], e[3], e[4], t);
    OfKindTriple(e[5], e[6], e[7], t);
    OfKindTriple(e[8], e[9], e[10], t);
    RoundsGet(OfKind([e[0], e[1]], t), OfKind([e[2], e[3], e[4]], t), OfKind([e[5], e[6], e[7]], t),
      OfKind([e[8], e[9], e[10]], t), e, t);
  }

  lemma RoundsGet(s0: seq<ExamItem>, s1: seq<ExamItem>, s2: seq<ExamItem>, s3: seq<ExamItem>, e: seq<ExamItem>, t: Category)
    requires KindsLaidOut(e)
    requires s0 == (if e[0].kind == t then [e[0]] else []) + (if e[1].kind == t then [e[1]] else [])
    requires s1 == (if t == N then [e[2]] else if t == C then [e[3]] else if t == R then [e[4]] else [])
    requires s2 == (if t == N then [e[5]] else if t == C then [e[6]] else if t == R then [e[7]] else [])
    requires s3 == (if t == N then [e[8]] else if t == C then [e[9]] else if t == R then [e[10]] else [])
    ensures s0 + s1 + s2 + s3 == match t
      case I => [e[0]]
      case SR => [e[1]]
      case N => [e[2], e[5], e[8]]
      case C => [e[3], e[6], e[9]]
      case R => [e[4], e[7], e[10]]
  {
    match t
    case I => assert s0 + s1 + s2 + s3 == [e[0]];
    case SR => assert s0 + s1 + s2 + s3 == [e[1]];
    case N => assert s0 + s1 + s2 + s3 == [e[2], e[5], e[8]];
    case C => assert s0 + s1 + s2 + s3 == [e[3], e[6], e[9]];
    case R => assert s0 + s1 + s2 + s3 == [e[4], e[7], e[10]];
  }

  /** N, C and R each get one slot in each of the three rounds. */
  lemma RoundsByKind(q: QuestionLists, e: seq<ExamItem>, t: Category)
    requires LaidOut(q, e) && Advances(t)
    ensures OfKind(e, t) == [Slot(q, t, 0), Slot(q, t, 1), Slot(q, t, 2)]
  {
    assert KindsLaidOut(e);
    KindsByRound(e, t);
  }

  /** I and SR each get one of the two opening slots. */
  lemma OpeningByKind(q: QuestionLists, e: seq<ExamItem>, t: Category)
    requires LaidOut(q, e) && !Advances(t)
    ensures OfKind(e, t) == [Slot(q, t, 0)]
  {
    assert KindsLaidOut(e);
    KindsByRound(e, t);
  }

  /** Filtering eleven items, cut as the pattern is: I and SR, then three
      N, C, R rounds. */
  lemma OfKindSplit(e: seq<ExamItem>, t: Category)
    requires |e| == 11
    ensures OfKind(e, t) == OfKind([e[0], e[1]], t) + OfKind([e[2], e[3], e[4]], t)
                          + OfKind([e[5], e[6], e[7]], t) + OfKind([e[8], e[9], e[10]], t)
  {
    var head, t1, t2, t3 := e[..2], e[2..5], e[5..8], e[8..];
    assert e == head + t1 + t2 + t3;
    assert head == [e[0], e[1]] && t1 == [e[2], e[3], e[4]];
    assert t2 == [e[5], e[6], e[7]] && t3 == [e[8], e[9], e[10]];
    OfKindAppend(head + t1 + t2, t3, t);
    OfKindAppend(head + t1, t2, t);
    OfKindAppend(head, t1, t);
  }

  lemma {:induction false} OfKindAppend(a: seq<ExamItem>, b: seq<ExamItem>, t: Category)
    ensures OfKind(a + b, t) == OfKind(a, t) + OfKind(b, t)
  {
    if a != [] {
      assert (a + b)[1..] == a[1..] + b;
      OfKindAppend(a[1..], b, t);
    } else {
      assert a + b == b;
    }
  }

  /** With at least one I and SR question and three each of N, C and R,
      no slot holds a placeholder: the exam is I1, SR1, N1, C1, R1, N2, C2,
      R2, N3, C3, R3. */
  lemma ExamComplete(q: QuestionLists)
    requires |q.i| >= 1 && |q.sr| >= 1 && |q.n| >= 3 && |q.c| >= 3 && |q.r| >= 3
    ensures ExamTexts(ExamSequence(q))
         == [q.i[0], q.sr[0], q.n[0], q.c[0], q.r[0], q.n[1], q.c[1], q.r[1], q.n[2], q.c[2], q.r[2]]
  {
  }

  /** The core claim read from an uploaded text. */
  function ClaimOfText(text: string): string {
    CoreClaimOf(StrippedLines(text))
  }

  /** The exam built from an uploaded text. */
  function ExamOfText(text: string): seq<ExamItem> {
    ExamSequence(ParsedLists(StrippedLines(text)))
  }

  /** The upload branch's two calls: the text parsed, then its exam built. */
  method LoadExam(text: string) returns (coreClaim: string, exam: seq<ExamItem>)
    ensures coreClaim == ClaimOfText(text) && exam == ExamOfText(text)
    ensures |exam| == |Pattern|
  {
    var questions;
    coreClaim, questions := ParseQuestionSetTxt(text);
    exam := BuildExamSequence(questions);
  }

  /** `[item["text"] for item in seq]`. */
  function ExamTexts(exam: seq<ExamItem>): (texts: seq<string>)
    ensures |texts| == |exam|
    ensures forall j :: 0 <= j < |exam| ==> texts[j] == exam[j].text
  {
    seq(|exam|, j requires 0 <= j < |exam| => exam[j].text)
  }

  // ---------------------------------------------------------------------
  // The spoken schedule
  // ---------------------------------------------------------------------

  const BaselineMs: int := 30000
  const GapMs: int := 15000

  /** One spoken question and its delay from the start of the exam. */
  datatype Cue = Cue(atMs: int, text: string)

  /** The page script's `forEach`: the first question after the baseline,
      each next one a gap later. */
  method ScheduleQuestions(texts: seq<string>) returns (cues: seq<Cue>)
    ensures |cues| == |texts|
    ensures forall i :: 0 <= i < |cues| ==> cues[i].text == texts[i]
    ensures |cues| > 0 ==> cues[0].atMs == BaselineMs
    ensures forall i :: 0 <= i < |cues| - 1 ==> cues[i + 1].atMs == cues[i].atMs + GapMs
    ensures forall i, j :: 0 <= i < j < |cues| ==> cues[i].atMs < cues[j].atMs
    ensures forall i :: 0 <= i < |cues| ==> cues[i].atMs == BaselineMs + GapMs * i
  {
    var t := BaselineMs;
    cues := [];
    for idx := 0 to |texts|
      invariant |cues| == idx && t == BaselineMs + GapMs * idx
      invariant forall i :: 0 <= i < idx ==> cues[i] == Cue(BaselineMs + GapMs * i, texts[i])
    {
      cues := cues + [Cue(t, texts[idx])];
      t := t + GapMs;
    }
  }

  // ---------------------------------------------------------------------
  // The page flow
  // ---------------------------------------------------------------------

  /** The values of `st.session_state["test_step"]`. */
  datatype TestStep = Upload | Preview | Run

  /** The button pressed on a run of the page: "다시 업로드하기", "검사 시행",
      "돌아가기" or "검사 시작". A button the page does not show acts as
      `NoPress`. */
  datatype ExamButton = NoPress | Reupload | Conduct | Return | StartExam

  /** `st.session_state` of the exam page; `examQuestions` is `None` until a
      file has been read. */
  class ExamSession {
    var testStep: TestStep
    var examCoreClaim: string
    var examQuestions: Option<seq<ExamItem>>
    var examStarted: bool

    /** Past the upload step an eleven-slot exam is loaded, and the exam is
        only ever started on the run step. */
    predicate Valid()
      reads this
    {
      && (testStep != Upload ==> examQuestions.Some? && |examQuestions.value| == |Pattern|)
      && (examStarted ==> testStep == Run)
    }

    /** Whether the "no question set loaded" branch is taken. */
    predicate NothingLoaded()
      reads this
    {
      examQuestions.None? || examQuestions.value == []
    }

    /** The page's start-up block on a fresh session. */
    constructor()
      ensures testStep == Upload && examCoreClaim == "" && examQuestions == None && !examStarted
      ensures Valid()
    {
      testStep := Upload;
      examCoreClaim := "";
      examQuestions := None;
      examStarted := false;
    }

    /** The upload step: an uploaded text is parsed, its exam sequence built
        and stored, and the page moves to the preview. */
    method UploadPage(uploaded: Option<string>)
      requires testStep == Upload
      modifies this
      ensures uploaded.None? ==>
        testStep == Upload && examCoreClaim == old(examCoreClaim) && examQuestions == old(examQuestions)
      ensures uploaded.Some? ==>
        && testStep == Preview
        && examCoreClaim == ClaimOfText(uploaded.value)
        && examQuestions == Some(ExamOfText(uploaded.value))
      ensures examStarted == old(examStarted)
      ensures old(Valid()) ==> Valid()
    {
      if uploaded.Some? {
        var coreClaim, exam := LoadExam(uploaded.value);
        Store(coreClaim, exam);
      }
    }

    /** The upload's results stored, and the move to the preview. */
    method Store(coreClaim: string, exam: seq<ExamItem>)
      requires |exam| == |Pattern|
      modifies this
      ensures testStep == Preview && examCoreClaim == coreClaim && examQuestions == Some(exam)
      ensures examStarted == old(examStarted)
      ensures !examStarted ==> Valid()
    {
      examCoreClaim := coreClaim;
      examQuestions := Some(exam);
      testStep := Preview;
    }

    /** The preview step: "다시 업로드하기" returns to the upload, "검사 시행"
        (offered only with a loaded exam) moves to the run step, not yet
        started. */
    method PreviewPage(button: ExamButton)
      requires testStep == Preview
      modifies this
      ensures testStep == (if button == Reupload then Upload
                           else if button == Conduct && !old(NothingLoaded()) then Run
                           else Preview)
      ensures examStarted == (if testStep == Run then false else old(examStarted))
      ensures examCoreClaim == old(examCoreClaim) && examQuestions == old(examQuestions)
      ensures old(Valid()) ==> Valid()
    {
      if examQuestions.None? || examQuestions.value == [] {
        if button == Reupload {
          testStep := Upload;
        }
        return;
      }
      if button == Reupload {
        testStep := Upload;
      } else if button == Conduct {
        testStep := Run;
        examStarted := false;
      }
    }

    /** The run step: "돌아가기" returns to the preview and clears the start
        flag, "검사 시작" (shown before the start) sets it, and a run of the
        started page schedules every question of the exam. */
    method RunPage(button: ExamButton) returns (cues: Option<seq<Cue>>)
      requires testStep == Run
      modifies this
      ensures examCoreClaim == old(examCoreClaim) && examQuestions == old(examQuestions)
      ensures old(NothingLoaded()) ==>
        && testStep == (if button == Reupload then Upload else Run)
        && examStarted == (if button == Reupload then false else old(examStarted))
        && cues.None?
      ensures !old(NothingLoaded()) ==>
        && testStep == (if button == Return then Preview else Run)
        && examStarted == (if button == Return then false
                           else if button == StartExam then true
                           else old(examStarted))
      ensures !old(NothingLoaded()) && old(examStarted) && button != Return ==>
        && cues.Some?
        && |cues.value| == |examQuestions.value|
        && forall i :: 0 <= i < |cues.value| ==>
             cues.value[i] == Cue(BaselineMs + GapMs * i, examQuestions.value[i].text)
      ensures cues.Some? ==> !old(NothingLoaded()) && old(examStarted) && button != Return
      ensures old(Valid()) ==> Valid()
    {
      cues := None;
      if examQuestions.None? || examQuestions.value == [] {
        if button == Reupload {
          testStep := Upload;
          examStarted := false;
        }
        return;
      }
      var started := examStarted;
      if button == Return {
        testStep := Preview;
        examStarted := false;
        return;
      }
      if !started && button == StartExam {
        examStarted := true;
        return;
      }
      if started {
        var texts := ExamTexts(examQuestions.value);
        var schedule := ScheduleQuestions(texts);
        cues := Some(schedule);
      }
    }
  }
}
