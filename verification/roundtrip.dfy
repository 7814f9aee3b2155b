/** The interchange text between the two pages: what the interview's end
    page writes (pages/1pretest.py) the exam page reads back unchanged
    (pages/2test.py), and the exam built from it asks the interview's
    questions in the fixed order. */
module RoundTrip {
  import opened Wrappers
  import opened Text
  import opened Templates
  import Pretest
  import opened Exam

  predicate AllWellFormed(texts: seq<string>) {
    forall j :: 0 <= j < |texts| ==> WellFormedText(texts[j])
  }

  /** Lines that splitting and stripping leave as they are. */
  predicate Clean(lines: seq<string>) {
    forall j :: 0 <= j < |lines| ==> SingleLine(lines[j]) && Trimmed(lines[j])
  }

  /** A question set whose export reads back exactly: every question is a
      non-empty, trimmed single line, and the claim is a trimmed single
      line that does not itself look like a question line. */
  predicate SetWellFormed(qs: QuestionSet) {
    && Trimmed(qs.coreClaim) && SingleLine(qs.coreClaim) && ParseQuestionLine(qs.coreClaim) == None
    && WellFormedText(qs.i) && WellFormedText(qs.sr)
    && AllWellFormed(qs.n) && AllWellFormed(qs.c) && AllWellFormed(qs.r)
  }

  lemma ClaimMarkerShape()
    ensures WellFormedText(ClaimMarker) && ClaimMarker[0] == '['
  {
  }

  lemma SetMarkerShape()
    ensures WellFormedText(SetMarker) && SetMarker[0] == '['
  {
  }

  /** An exported question line: code, number, ". " and the question. */
  lemma NumberedLineShape(t: Category, n: nat, text: string)
    requires WellFormedText(text)
    ensures WellFormedText(CategoryCode(t) + NatToString(n) + ". " + text)
  {
    var digits := NatToString(n);
    var line := CategoryCode(t) + digits + ". " + text;
    assert line == (CategoryCode(t) + digits) + (". " + text);
    SingleLineConcat(CategoryCode(t), digits);
    SingleLineConcat(". ", text);
    SingleLineConcat(CategoryCode(t) + digits, ". " + text);
    assert line[0] == CategoryCode(t)[0];
    assert line[|line| - 1] == text[|text| - 1];
  }

  lemma BlockShape(u: Category, texts: seq<string>)
    requires AllWellFormed(texts)
    ensures AllWellFormed(Pretest.NumberedLines(CategoryCode(u), texts))
  {
    var lines := Pretest.NumberedLines(CategoryCode(u), texts);
    forall j | 0 <= j < |lines| ensures WellFormedText(lines[j]) {
      NumberedLineShape(u, j + 1, texts[j]);
    }
  }

  lemma AllWellFormedAppend(a: seq<string>, b: seq<string>)
    requires AllWellFormed(a) && AllWellFormed(b)
    ensures AllWellFormed(a + b)
  {
  }

  /** The lines after the claim's blank line: the set marker and the
      question lines. */
  lemma QuestionLinesShape(qs: QuestionSet)
    requires SetWellFormed(qs)
    ensures AllWellFormed([SetMarker, "I1. " + qs.i, "SR1. " + qs.sr]
      + Pretest.NumberedLines("N", qs.n) + Pretest.NumberedLines("C", qs.c) + Pretest.NumberedLines("R", qs.r))
  {
    SetMarkerShape();
    assert NatToString(1) == "1";
    assert "I1. " + qs.i == CategoryCode(I) + NatToString(1) + ". " + qs.i;
    assert "SR1. " + qs.sr == CategoryCode(SR) + NatToString(1) + ". " + qs.sr;
    NumberedLineShape(I, 1, qs.i);
    NumberedLineShape(SR, 1, qs.sr);
    var front := [SetMarker, "I1. " + qs.i, "SR1. " + qs.sr];
    var ln := Pretest.NumberedLines("N", qs.n);
    var lc := Pretest.NumberedLines("C", qs.c);
    var lr := Pretest.NumberedLines("R", qs.r);
    assert AllWellFormed(front);
    BlockShape(N, qs.n);
    BlockShape(C, qs.c);
    BlockShape(R, qs.r);
    AllWellFormedAppend(front, ln);
    AllWellFormedAppend(front + ln, lc);
    AllWellFormedAppend(front + ln + lc, lr);
  }

  /** Every line of the export is a trimmed single line, and the last one
      is not empty. */
  lemma SetLinesShape(qs: QuestionSet)
    requires SetWellFormed(qs)
    ensures var lines := Pretest.SetLines(qs);
      |lines| == 6 + |qs.n| + |qs.c| + |qs.r| && Clean(lines) && lines[|lines| - 1] != ""
  {
    var front := [ClaimMarker, qs.coreClaim, ""];
    var rest := [SetMarker, "I1. " + qs.i, "SR1. " + qs.sr]
      + Pretest.NumberedLines("N", qs.n) + Pretest.NumberedLines("C", qs.c) + Pretest.NumberedLines("R", qs.r);
    assert Pretest.SetLines(qs) == front + rest;
    QuestionLinesShape(qs);
    ClaimMarkerShape();
    assert Clean(front);
    assert rest[|rest| - 1] != "";
  }

  /** Splitting the joined lines and stripping each gives the lines back
      when each is a trimmed single line and the last is not empty. */
  lemma StrippedJoin(lines: seq<string>)
    requires Clean(lines)
    requires lines == [] || lines[|lines| - 1] != ""
    ensures StrippedLines(JoinLines(lines)) == lines
  {
    SplitJoin(lines);
  }

  /** The exported text, split into stripped lines, is the export's lines. */
  lemma ExportLines(qs: QuestionSet)
    requires SetWellFormed(qs)
    ensures StrippedLines(JoinLines(Pretest.SetLines(qs))) == Pretest.SetLines(qs)
  {
    SetLinesShape(qs);
    StrippedJoin(Pretest.SetLines(qs));
  }

  /** The claim read back from the export is the set's core claim. */
  lemma ExportClaim(qs: QuestionSet)
    requires Trimmed(qs.coreClaim)
    ensures CoreClaimOf(Pretest.SetLines(qs)) == qs.coreClaim
  {
    var lines := Pretest.SetLines(qs);
    assert StartsWith(lines[0], ClaimMarker);
    ClaimAtMarker(lines, 0);
  }

  /** Every line of a category's block parses as a question of that
      category. */
  function Tagged(u: Category, texts: seq<string>): (ps: seq<Parse>)
    ensures |ps| == |texts|
    ensures forall j :: 0 <= j < |texts| ==> ps[j] == Some((u, texts[j]))
  {
    seq(|texts|, j requires 0 <= j < |texts| => Some((u, texts[j])))
  }

  /** The numbered lines of category `u` parse back to their questions. */
  lemma NumberedParses(u: Category, texts: seq<string>)
    requires AllWellFormed(texts)
    ensures Parses(Pretest.NumberedLines(CategoryCode(u), texts)) == Tagged(u, texts)
  {
    var lines := Pretest.NumberedLines(CategoryCode(u), texts);
    forall j | 0 <= j < |texts| ensures Parses(lines)[j] == Some((u, texts[j])) {
      NumberedParseAt(u, texts, j);
    }
  }

  lemma NumberedParseAt(u: Category, texts: seq<string>, j: nat)
    requires j < |texts| && WellFormedText(texts[j])
    ensures Parses(Pretest.NumberedLines(CategoryCode(u), texts))[j] == Some((u, texts[j]))
  {
    var lines := Pretest.NumberedLines(CategoryCode(u), texts);
    ParsedCodeLine(lines, j, u, NatToString(j + 1), texts[j]);
  }

  /** A line of the form code, digits, ". ", text parses as that text. */
  lemma ParsedCodeLine(lines: seq<string>, j: nat, u: Category, digits: string, text: string)
    requires j < |lines| && lines[j] == CategoryCode(u) + digits + ". " + text
    requires text != [] && Trimmed(text)
    requires digits != [] && forall i :: 0 <= i < |digits| ==> IsDigit(digits[i])
    ensures Parses(lines)[j] == Some((u, text))
  {
    ParsesAt(lines, j);
    ParseCodeLine(u, digits, text);
  }

  /** The four lines before the questions: the claim marker, the claim,
      the blank line and the set marker. */
  function Preamble(claim: string): seq<string> {
    [ClaimMarker, claim, "", SetMarker]
  }

  /** A line opening with '[' is not a question line. */
  lemma BracketNotQuestion(line: string)
    requires line != [] && line[0] == '['
    ensures ParseQuestionLine(line) == None
  {
    NonQuestionLine(line);
  }

  lemma ParsesSnoc(lines: seq<string>, l: string)
    ensures Parses(lines + [l]) == Parses(lines) + [ParseQuestionLine(l)]
  {
    assert (lines + [l])[..|lines|] == lines;
  }

  /** None of the preamble's lines is a question line. */
  lemma PreambleParses(claim: string)
    requires ParseQuestionLine(claim) == None
    ensures Parses(Preamble(claim)) == [None, None, None, None]
  {
    assert ClaimMarker[0] == '[' && SetMarker[0] == '[';
    BracketNotQuestion(ClaimMarker);
    BracketNotQuestion(SetMarker);
    NonQuestionLine("");
    var e: seq<string> := [];
    ParsesSnoc(e, ClaimMarker);
    ParsesSnoc(e + [ClaimMarker], claim);
    ParsesSnoc(e + [ClaimMarker] + [claim], "");
    ParsesSnoc(e + [ClaimMarker] + [claim] + [""], SetMarker);
    assert Preamble(claim) == e + [ClaimMarker] + [claim] + [""] + [SetMarker];
  }

  lemma OneNumberedLine(code: string, text: string)
    ensures Pretest.NumberedLines(code, [text]) == [code + "1. " + text]
  {
    assert NatToString(1) == "1";
    assert code + NatToString(1) + ". " + text == code + "1. " + text;
  }

  /** The export is the preamble, then one numbered block per category: the
      I and SR lines are blocks of one line. */
  lemma SetLinesBlocks(qs: QuestionSet)
    ensures Pretest.SetLines(qs) == Preamble(qs.coreClaim)
      + Pretest.NumberedLines("I", [qs.i]) + Pretest.NumberedLines("SR", [qs.sr])
      + Pretest.NumberedLines("N", qs.n) + Pretest.NumberedLines("C", qs.c) + Pretest.NumberedLines("R", qs.r)
  {
    OneNumberedLine("I", qs.i);
    OneNumberedLine("SR", qs.sr);
    assert "I" + "1. " + qs.i == "I1. " + qs.i;
    assert "SR" + "1. " + qs.sr == "SR1. " + qs.sr;
    assert [ClaimMarker, qs.coreClaim, "", SetMarker, "I1. " + qs.i, "SR1. " + qs.sr]
        == Preamble(qs.coreClaim) + ["I1. " + qs.i] + ["SR1. " + qs.sr];
  }

  /** Parsing distributes over concatenated lines. */
  lemma {:induction false} ParsesAppend(a: seq<string>, b: seq<string>)
    ensures Parses(a + b) == Parses(a) + Parses(b)
  {
    if b != [] {
      var front := b[..|b| - 1];
      var last := b[|b| - 1];
      assert a + b == (a + front) + [last];
      assert b == front + [last];
      ParsesAppend(a, front);
      ParsesSnoc(a + front, last);
      ParsesSnoc(front, last);
    } else {
      assert a + b == a;
    }
  }

  lemma ParsesSix(f: seq<string>, a: seq<string>, b: seq<string>, c: seq<string>, d: seq<string>, e: seq<string>)
    ensures Parses(f + a + b + c + d + e) == Parses(f) + Parses(a) + Parses(b) + Parses(c) + Parses(d) + Parses(e)
  {
    ParsesAppend(f + a + b + c + d, e);
    ParsesAppend(f + a + b + c, d);
    ParsesAppend(f + a + b, c);
    ParsesAppend(f + a, b);
    ParsesAppend(f, a);
  }

  /** The parses of the export: four lines without a question, then the I,
      SR, N, C and R blocks. */
  lemma SetLinesParse(qs: QuestionSet)
    requires SetWellFormed(qs)
    ensures Parses(Pretest.SetLines(qs)) == ExportParsesOf(qs.i, qs.sr, qs.n, qs.c, qs.r)
  {
    SetLinesBlocks(qs);
    ParsesSix(Preamble(qs.coreClaim), Pretest.NumberedLines("I", [qs.i]), Pretest.NumberedLines("SR", [qs.sr]),
      Pretest.NumberedLines("N", qs.n), Pretest.NumberedLines("C", qs.c), Pretest.NumberedLines("R", qs.r));
    PreambleParses(qs.coreClaim);
    NumberedParses(I, [qs.i]);
    NumberedParses(SR, [qs.sr]);
    NumberedParses(N, qs.n);
    NumberedParses(C, qs.c);
    NumberedParses(R, qs.r);
  }

  function ExportParsesOf(x: string, y: string, n: seq<string>, c: seq<string>, r: seq<string>): seq<Parse> {
    [None, None, None, None] + Tagged(I, [x]) + Tagged(SR, [y]) + Tagged(N, n) + Tagged(C, c) + Tagged(R, r)
  }

  /** The questions of category `t` in a block of category `u`: all of them
      when `t` is `u`, none otherwise. */
  lemma {:induction false} CollectTagged(u: Category, texts: seq<string>, t: Category)
    ensures Collect(Tagged(u, texts), t) == (if t == u then texts else [])
  {
    if texts != [] {
      var ps, last := Tagged(u, texts), texts[|texts| - 1];
      var front := texts[..|texts| - 1];
      assert ps[..|ps| - 1] == Tagged(u, front);
      assert Pick(ps[|ps| - 1], t) == (if t == u then [last] else []);
      CollectTagged(u, front, t);
      assert texts == front + [last];
    }
  }

  /** Lines without a question contribute nothing. */
  lemma {:induction false} CollectNothing(ps: seq<Parse>, t: Category)
    requires forall j :: 0 <= j < |ps| ==> ps[j] == None
    ensures Collect(ps, t) == []
  {
    if ps != [] {
      CollectNothing(ps[..|ps| - 1], t);
    }
  }

  /** The four preamble lines hold no question. */
  lemma CollectPreamble(t: Category)
    ensures Collect([None, None, None, None], t) == []
  {
    var ps: seq<Parse> := [None, None, None, None];
    assert forall j :: 0 <= j < |ps| ==> ps[j] == None;
    CollectNothing(ps, t);
  }

  lemma CollectSix(f: seq<Parse>, a: seq<Parse>, b: seq<Parse>, c: seq<Parse>, d: seq<Parse>, e: seq<Parse>, t: Category)
    ensures Collect(f + a + b + c + d + e, t)
         == Collect(f, t) + Collect(a, t) + Collect(b, t) + Collect(c, t) + Collect(d, t) + Collect(e, t)
  {
    CollectAppend(f + a + b + c + d, e, t);
    CollectAppend(f + a + b + c, d, t);
    CollectAppend(f + a + b, c, t);
    CollectAppend(f + a, b, t);
    CollectAppend(f, a, t);
  }

  /** The questions of category `t` among the export's parses, in the
      set's order. */
  lemma CollectExport(x: string, y: string, n: seq<string>, c: seq<string>, r: seq<string>, t: Category)
    ensures Collect(ExportParsesOf(x, y, n, c, r), t) == QuestionLists([x], [y], n, c, r).Get(t)
  {
    CollectPreamble(t);
    CollectTagged(I, [x], t);
    CollectTagged(SR, [y], t);
    CollectTagged(N, n, t);
    CollectTagged(C, c, t);
    CollectTagged(R, r, t);
    CollectBlocks([None, None, None, None], Tagged(I, [x]), Tagged(SR, [y]), Tagged(N, n), Tagged(C, c), Tagged(R, r),
      x, y, n, c, r, t);
  }

  /** Six blocks of parses, each holding only the questions of its own
      category, collect to that category's list. */
  lemma CollectBlocks(f: seq<Parse>, a: seq<Parse>, b: seq<Parse>, c: seq<Parse>, d: seq<Parse>, e: seq<Parse>,
                      x: string, y: string, n: seq<string>, cs: seq<string>, r: seq<string>, t: Category)
    requires Collect(f, t) == []
    requires Collect(a, t) == (if t == I then [x] else [])
    requires Collect(b, t) == (if t == SR then [y] else [])
    requires Collect(c, t) == (if t == N then n else [])
    requires Collect(d, t) == (if t == C then cs else [])
    requires Collect(e, t) == (if t == R then r else [])
    ensures Collect(f + a + b + c + d + e, t) == QuestionLists([x], [y], n, cs, r).Get(t)
  {
    CollectSix(f, a, b, c, d, e, t);
    BlocksGet(Collect(f, t), Collect(a, t), Collect(b, t), Collect(c, t), Collect(d, t), Collect(e, t), x, y, n, cs, r, t);
  }

  lemma BlocksGet(s0: seq<string>, s1: seq<string>, s2: seq<string>, s3: seq<string>, s4: seq<string>, s5: seq<string>,
                  x: string, y: string, n: seq<string>, cs: seq<string>, r: seq<string>, t: Category)
    requires s0 == []
    requires s1 == (if t == I then [x] else [])
    requires s2 == (if t == SR then [y] else [])
    requires s3 == (if t == N then n else [])
    requires s4 == (if t == C then cs else [])
    requires s5 == (if t == R then r else [])
    ensures s0 + s1 + s2 + s3 + s4 + s5 == QuestionLists([x], [y], n, cs, r).Get(t)
  {
    match t
    case I => assert s0 + s1 + s2 + s3 + s4 + s5 == [x];
    case SR => assert s0 + s1 + s2 + s3 + s4 + s5 == [y];
    case N => assert s0 + s1 + s2 + s3 + s4 + s5 == n;
    case C => assert s0 + s1 + s2 + s3 + s4 + s5 == cs;
    case R => assert s0 + s1 + s2 + s3 + s4 + s5 == r;
  }

  lemma ParsedListsOf(lines: seq<string>, ps: seq<Parse>)
    requires Parses(lines) == ps
    ensures ParsedLists(lines) == QuestionLists(Collect(ps, I), Collect(ps, SR), Collect(ps, N), Collect(ps, C), Collect(ps, R))
  {
  }

  /** Reading the exported text gives back the core claim and, for each
      category, exactly the questions of the set in order. */
  lemma ExportParses(qs: QuestionSet)
    requires SetWellFormed(qs)
    ensures var lines := StrippedLines(JoinLines(Pretest.SetLines(qs)));
      && CoreClaimOf(lines) == qs.coreClaim
      && ParsedLists(lines) == QuestionLists([qs.i], [qs.sr], qs.n, qs.c, qs.r)
  {
    ExportLines(qs);
    ExportClaim(qs);
    SetLinesParse(qs);
    var ps := ExportParsesOf(qs.i, qs.sr, qs.n, qs.c, qs.r);
    ParsedListsOf(Pretest.SetLines(qs), ps);
    CollectExport(qs.i, qs.sr, qs.n, qs.c, qs.r, I);
    CollectExport(qs.i, qs.sr, qs.n, qs.c, qs.r, SR);
    CollectExport(qs.i, qs.sr, qs.n, qs.c, qs.r, N);
    CollectExport(qs.i, qs.sr, qs.n, qs.c, qs.r, C);
    CollectExport(qs.i, qs.sr, qs.n, qs.c, qs.r, R);
  }

  /** The core claim the interview builds never looks like a question line,
      since it opens with "저". */
  lemma CoreClaimNotQuestion(offenseText: string)
    ensures ParseQuestionLine(CoreClaimSuspect(offenseText)) == None
  {
    CoreClaimShape(offenseText);
    NonQuestionLine(CoreClaimSuspect(offenseText));
  }

  /** Loading the export of a set with three N, C and R questions gives the
      exam I, SR, N1, C1, R1, N2, C2, R2, N3, C3, R3 of that set, with no
      placeholder. */
  lemma ExportedExam(qs: QuestionSet)
    requires SetWellFormed(qs)
    requires |qs.n| >= 3 && |qs.c| >= 3 && |qs.r| >= 3
    ensures var lines := StrippedLines(JoinLines(Pretest.SetLines(qs)));
      ExamTexts(ExamSequence(ParsedLists(lines)))
        == [qs.i, qs.sr, qs.n[0], qs.c[0], qs.r[0], qs.n[1], qs.c[1], qs.r[1], qs.n[2], qs.c[2], qs.r[2]]
  {
    ExportParses(qs);
    ExamComplete(QuestionLists([qs.i], [qs.sr], qs.n, qs.c, qs.r));
  }

  /** The fixed I and SR questions are well formed. */
  lemma IQuestionWellFormed()
    ensures WellFormedText(IQuestion)
  {
  }

  lemma SRQuestionWellFormed()
    ensures WellFormedText(SRQuestion)
  {
  }

  /** The set the interview assembles reads back exactly, given a gender
      chosen on the radio and a name and offence text typed without any
      character `splitlines` breaks on. */
  lemma InterviewSetWellFormed(offenseText: string, name: string, gender: string, age: nat, cqIndices: seq<nat>)
    requires offenseText != [] && SingleLine(offenseText) && SingleLine(name) && gender in GenderOptions
    requires forall x :: x in cqIndices ==> x < |DlcqItems| && WellFormedText(DlcqItems[x])
    ensures SetWellFormed(AssembleQuestionSet(CoreClaimSuspect(offenseText), NQuestions(name, gender, age),
                                              cqIndices, RQuestionsSuspect(offenseText)))
  {
    var qs := AssembleQuestionSet(CoreClaimSuspect(offenseText), NQuestions(name, gender, age),
                                  cqIndices, RQuestionsSuspect(offenseText));
    CoreClaimShape(offenseText);
    CoreClaimNotQuestion(offenseText);
    RQuestionsShape(offenseText);
    GenderOptionsWellFormed();
    NQuestionsShape(name, gender, age);
    IQuestionWellFormed();
    SRQuestionWellFormed();
    forall j | 0 <= j < |qs.c| ensures WellFormedText(qs.c[j]) {
      assert cqIndices[j] in cqIndices;
    }
  }

  /** From the interview to the exam: with three comparison items chosen,
      the exam page asks I, SR, then the N, C and R questions of the
      interview round by round, with no placeholder. */
  lemma InterviewExam(offenseText: string, name: string, gender: string, age: nat, cqIndices: seq<nat>)
    requires offenseText != [] && SingleLine(offenseText) && SingleLine(name) && gender in GenderOptions
    requires forall x :: x in cqIndices ==> x < |DlcqItems| && WellFormedText(DlcqItems[x])
    requires |cqIndices| == 3
    ensures var qs := AssembleQuestionSet(CoreClaimSuspect(offenseText), NQuestions(name, gender, age),
                                          cqIndices, RQuestionsSuspect(offenseText));
      var n, r := NQuestions(name, gender, age), RQuestionsSuspect(offenseText);
      ExamTexts(ExamSequence(ParsedLists(StrippedLines(JoinLines(Pretest.SetLines(qs))))))
        == [IQuestion, SRQuestion,
            n[0], DlcqItems[cqIndices[0]], r[0],
            n[1], DlcqItems[cqIndices[1]], r[1],
            n[2], DlcqItems[cqIndices[2]], r[2]]
  {
    InterviewSetWellFormed(offenseText, name, gender, age, cqIndices);
    var qs := AssembleQuestionSet(CoreClaimSuspect(offenseText), NQuestions(name, gender, age),
                                  cqIndices, RQuestionsSuspect(offenseText));
    ExportedExam(qs);
  }
}
