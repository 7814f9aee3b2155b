/** The pure part of the pre-test interview (pages/1pretest.py): the fixed
    I/SR questions, the disposition (DLCQ) survey bank, the question
    templates built from the case record, the comparison-question picker and
    the assembled question set. */
module Templates {
  import opened Text

  /** The five question categories of the final set. */
  datatype Category = I | SR | N | C | R

  /** The code a category carries in the interchange text ("I", "SR", ...). */
  function CategoryCode(t: Category): (code: string)
    ensures code != [] && Trimmed(code) && SingleLine(code)
  {
    match t
    case I => "I"
    case SR => "SR"
    case N => "N"
    case C => "C"
    case R => "R"
  }

  /** The one polarity every category is drilled with: the subject answers
      "예" to I, SR and N, and "아니오" to C and R. */
  datatype Answer = Unanswered | Yes | No

  function ExpectedAnswer(t: Category): Answer {
    if t == C || t == R then No else Yes
  }

  const IQuestion: string := "당신은 오늘 검사관이 연습한 것만 질문한다는 것을 믿습니까?"
  const SRQuestion: string := "당신은 오늘 검사관이 묻는 질문에 사실대로 대답하겠습니까?"

  /** The 17-item disposition survey; its items become comparison questions. */
  const DlcqItems: seq<string> := [
    "당신은 지금까지 살면서 가족이나 친구에게 거짓말을 해본 적이 있습니까?",
    "당신은 지금까지 살면서 누군가에게 단 한 번이라도 거짓말을 한 적이 있습니까?",
    "당신은 지금까지 살면서 실수를 저지른 뒤 그것을 비밀로 한 적이 있습니까?",
    "당신은 지금까지 살면서 규칙이나 규정을 어긴 적이 있습니까?",
    "당신은 지금까지 살면서 책임을 피하기 위해 거짓말을 한 적이 있습니까?",
    "당신은 지금까지 살면서 다른 사람의 흉이나 뒷담화를 한 적이 있습니까?",
    "당신은 지금까지 살면서 본인의 잘못을 타인에게 돌린 적이 있습니까?",
    "당신은 지금까지 살면서 가족들에게 말하지 못한 비밀이 있습니까?",
    "당신은 지금까지 살면서 본인의 잘못을 숨긴 사실이 있습니까?",
    "당신은 지금까지 살면서 없는 말을 꾸며서 말한 적이 있습니까?",
    "당신은 지금까지 살면서 나쁜 행동을 해본 적이 있습니까?",
    "당신은 지금까지 살면서 주변 사람들이 알면 안 되는 행동을 한 사실이 있습니까?",
    "당신은 지금까지 살면서 잘못된 것임을 알고도 행동한 적이 있습니까?",
    "당신은 지금까지 살면서 본인을 위해 남에게 피해를 준 적이 있습니까?",
    "당신은 지금까지 살면서 다른 사람을 미워하거나 시기한 적이 있습니까?",
    "당신은 지금까지 살면서 양심에 찔리는 행동을 한 적이 있습니까?",
    "당신은 지금까지 살면서 다른 사람에게 상처 되는 말을 한 적이 있습니까?"
  ]

  /** The two section markers of the interchange text. */
  const ClaimMarker: string := "[피검자의 핵심 주장]"
  const SetMarker: string := "[최종 11문항 질문 세트]"

  /** A question text that survives the interchange file unchanged:
      non-empty, on one line and without surrounding whitespace. */
  predicate WellFormedText(s: string) {
    s != [] && Trimmed(s) && SingleLine(s)
  }

  lemma SingleLineConcat(a: string, b: string)
    ensures SingleLine(a + b) <==> SingleLine(a) && SingleLine(b)
  {
    if SingleLine(a) && SingleLine(b) {
      forall i | 0 <= i < |a + b| ensures !IsLineBreak((a + b)[i]) {
        if i >= |a| { assert (a + b)[i] == b[i - |a|]; }
      }
    }
    if SingleLine(a + b) {
      forall i | 0 <= i < |a| ensures !IsLineBreak(a[i]) {
        assert a[i] == (a + b)[i];
      }
      forall i | 0 <= i < |b| ensures !IsLineBreak(b[i]) {
        assert b[i] == (a + b)[|a| + i];
      }
    }
  }

  /** A template `front + x + back` whose fixed parts are single-line and
      start and end with a non-space is trimmed, and is single-line exactly
      when the inserted text is. */
  lemma TemplateShape(front: string, x: string, back: string)
    requires front != [] && back != [] && !IsSpace(front[0]) && !IsSpace(back[|back| - 1])
    requires SingleLine(front) && SingleLine(back)
    ensures Trimmed(front + x + back) && (front + x + back)[0] == front[0]
    ensures SingleLine(front + x + back) <==> SingleLine(x)
    ensures Contains(front + x + back, x)
  {
    SingleLineConcat(front, x);
    SingleLineConcat(front + x, back);
    ContainsMiddle(front, x, back);
  }

  /** The suspect's core claim: "I did not commit <offense>". */
  function CoreClaimSuspect(offenseText: string): string {
    "저는 " + offenseText + "한 사실이 없습니다."
  }

  /** The core claim quotes the offense text, is trimmed, starts with '저'
      and is one line exactly when the offense text is. */
  lemma CoreClaimShape(offenseText: string)
    ensures Contains(CoreClaimSuspect(offenseText), offenseText)
    ensures Trimmed(CoreClaimSuspect(offenseText))
    ensures CoreClaimSuspect(offenseText) != [] && CoreClaimSuspect(offenseText)[0] == '저'
    ensures SingleLine(CoreClaimSuspect(offenseText)) <==> SingleLine(offenseText)
  {
    TemplateShape("저는 ", offenseText, "한 사실이 없습니다.");
  }

  /** The three relevant (R) question phrasings for a suspect. */
  function RPhrasing0(offenseText: string): string {
    "당신은 그 당시 " + offenseText + "한 사실이 있습니까?"
  }

  function RPhrasing1(offenseText: string): string {
    "당신은 직접 " + offenseText + "한 적이 있습니까?"
  }

  function RPhrasing2(offenseText: string): string {
    "당신이 " + offenseText + "한 것이 사실입니까?"
  }

  /** Each phrasing is a trimmed template around the offense text. */
  lemma RPhrasing0Shape(offenseText: string)
    ensures Trimmed(RPhrasing0(offenseText)) && Contains(RPhrasing0(offenseText), offenseText)
    ensures SingleLine(RPhrasing0(offenseText)) <==> SingleLine(offenseText)
    ensures RPhrasing0(offenseText)[2] == '은' && RPhrasing0(offenseText)[4] == '그'
  {
    TemplateShape("당신은 그 당시 ", offenseText, "한 사실이 있습니까?");
  }

  lemma RPhrasing1Shape(offenseText: string)
    ensures Trimmed(RPhrasing1(offenseText)) && Contains(RPhrasing1(offenseText), offenseText)
    ensures SingleLine(RPhrasing1(offenseText)) <==> SingleLine(offenseText)
    ensures RPhrasing1(offenseText)[2] == '은' && RPhrasing1(offenseText)[4] == '직'
  {
    TemplateShape("당신은 직접 ", offenseText, "한 적이 있습니까?");
  }

  lemma RPhrasing2Shape(offenseText: string)
    ensures Trimmed(RPhrasing2(offenseText)) && Contains(RPhrasing2(offenseText), offenseText)
    ensures SingleLine(RPhrasing2(offenseText)) <==> SingleLine(offenseText)
    ensures RPhrasing2(offenseText)[2] == '이'
  {
    TemplateShape("당신이 ", offenseText, "한 것이 사실입니까?");
  }

  /** The three relevant (R) questions for a suspect. */
  function RQuestionsSuspect(offenseText: string): (qs: seq<string>)
    ensures |qs| == 3
  {
    [RPhrasing0(offenseText), RPhrasing1(offenseText), RPhrasing2(offenseText)]
  }

  /** Three different phrasings, each quoting the offense text, trimmed,
      and one line exactly when the offense text is. */
  lemma RQuestionsShape(offenseText: string)
    ensures forall j :: 0 <= j < 3 ==> Contains(RQuestionsSuspect(offenseText)[j], offenseText)
    ensures forall j :: 0 <= j < 3 ==> RQuestionsSuspect(offenseText)[j] != [] && Trimmed(RQuestionsSuspect(offenseText)[j])
    ensures forall j :: 0 <= j < 3 ==> (SingleLine(RQuestionsSuspect(offenseText)[j]) <==> SingleLine(offenseText))
    ensures Distinct3(RQuestionsSuspect(offenseText))
  {
    RPhrasing0Shape(offenseText);
    RPhrasing1Shape(offenseText);
    RPhrasing2Shape(offenseText);
  }

  predicate Distinct3(qs: seq<string>)
    requires |qs| == 3
  {
    qs[0] != qs[1] && qs[1] != qs[2] && qs[0] != qs[2]
  }

  /** The three neutral (N) questions confirming name, gender and age. */
  function NQuestions(name: string, gender: string, age: nat): (qs: seq<string>)
    ensures |qs| == 3
  {
    [ "당신의 이름은 " + name + " 입니까?",
      "당신의 성별은 " + gender + " 입니까?",
      "당신의 나이는 " + NatToString(age) + "세 입니까?" ]
  }

  /** The N questions quote the name, the gender and the age in decimal,
      are trimmed, and are one line when name and gender are. */
  lemma NQuestionsShape(name: string, gender: string, age: nat)
    ensures Contains(NQuestions(name, gender, age)[0], name)
    ensures Contains(NQuestions(name, gender, age)[1], gender)
    ensures Contains(NQuestions(name, gender, age)[2], NatToString(age))
    ensures forall j :: 0 <= j < 3 ==> NQuestions(name, gender, age)[j] != [] && Trimmed(NQuestions(name, gender, age)[j])
    ensures SingleLine(NQuestions(name, gender, age)[0]) <==> SingleLine(name)
    ensures SingleLine(NQuestions(name, gender, age)[1]) <==> SingleLine(gender)
    ensures SingleLine(NQuestions(name, gender, age)[2])
  {
    NameQuestionShape(name);
    GenderQuestionShape(gender);
    AgeQuestionShape(age);
  }

  lemma NameQuestionShape(name: string)
    ensures var q := NQuestions(name, "", 0)[0];
      Contains(q, name) && q != [] && Trimmed(q) && (SingleLine(q) <==> SingleLine(name))
  {
    TemplateShape("당신의 이름은 ", name, " 입니까?");
  }

  lemma GenderQuestionShape(gender: string)
    ensures var q := NQuestions("", gender, 0)[1];
      Contains(q, gender) && q != [] && Trimmed(q) && (SingleLine(q) <==> SingleLine(gender))
  {
    TemplateShape("당신의 성별은 ", gender, " 입니까?");
  }

  lemma AgeQuestionShape(age: nat)
    ensures var q := NQuestions("", "", age)[2];
      Contains(q, NatToString(age)) && q != [] && Trimmed(q) && SingleLine(q)
  {
    var years := NatToString(age);
    assert SingleLine(years) by {
      forall i | 0 <= i < |years| ensures !IsLineBreak(years[i]) {
        assert IsDigit(years[i]);
      }
    }
    TemplateShape("당신의 나이는 ", years, "세 입니까?");
  }

  /** The offense categories of the intake form and the subtypes each offers. */
  const OffenseCategories: seq<string> := [
    "실험참여", "성범죄", "폭력범죄", "재산범죄", "공무원범죄",
    "사이버범죄", "교통범죄", "성매매", "마약", "기타"
  ]

  const OtherSubtype: string := "기타"
  const DefaultOffense: string := "행위를"

  function SubtypeOptions(category: string): seq<string> {
    if category == "성범죄" then ["성희롱", "강제추행", "강간", "불법촬영", OtherSubtype]
    else if category == "폭력범죄" then ["폭행", "상해", "협박", "체포·감금", OtherSubtype]
    else if category == "실험참여" then ["빨간 버튼을 클릭"]
    else [OtherSubtype]
  }

  /** The offense text used in the templates: the subtype label, or for
      "기타" the stripped free text, falling back to "행위를" when none was
      typed. It is empty exactly when the free text is whitespace only. */
  function OffenseText(offenseType: string, offenseFree: string): (text: string)
    ensures offenseType != OtherSubtype ==> text == offenseType
    ensures offenseType == OtherSubtype ==> Trimmed(text)
    ensures offenseType == OtherSubtype && offenseFree != "" ==> Strip(offenseFree) == text
    ensures offenseType == OtherSubtype && offenseFree == "" ==> text == DefaultOffense
    ensures text == [] <==>
      (offenseType == [] || (offenseType == OtherSubtype && offenseFree != [] && Strip(offenseFree) == []))
  {
    if offenseType == OtherSubtype then
      (if offenseFree != "" then Strip(offenseFree) else DefaultOffense)
    else offenseType
  }

  /** The labels of the intake form's gender radio. */
  const GenderOptions: seq<string> := ["남성", "여성", "기타"]

  /** Every gender label is a non-empty, trimmed single line. */
  lemma GenderOptionsWellFormed()
    ensures forall g :: g in GenderOptions ==> WellFormedText(g)
  {
    assert WellFormedText("남성") && WellFormedText("여성") && WellFormedText("기타");
  }

  /** Every subtype label of the form is a single-line offense text. */
  lemma SubtypesWellFormed(category: string)
    ensures forall j :: 0 <= j < |SubtypeOptions(category)| ==> WellFormedText(SubtypeOptions(category)[j])
  {
    var opts := SubtypeOptions(category);
    forall j | 0 <= j < |opts| ensures WellFormedText(opts[j]) {
      if category == "성범죄" {
        assert WellFormedText("성희롱") && WellFormedText("강제추행") && WellFormedText("강간");
        assert WellFormedText("불법촬영") && WellFormedText(OtherSubtype);
      } else if category == "폭력범죄" {
        assert WellFormedText("폭행") && WellFormedText("상해") && WellFormedText("협박");
        assert WellFormedText("체포·감금") && WellFormedText(OtherSubtype);
      } else if category == "실험참여" {
        assert WellFormedText("빨간 버튼을 클릭");
      } else {
        assert WellFormedText(OtherSubtype);
      }
    }
  }

  predicate Distinct(s: seq<nat>) {
    forall i, j :: 0 <= i < j < |s| ==> s[i] != s[j]
  }

  /** The survey answers as a Python dict in insertion order: item index to
      "yes" (true) or "no" (false); unanswered items are absent. */
  type SurveyAnswers = seq<(nat, bool)>

  predicate DistinctKeys(answers: SurveyAnswers) {
    forall i, j :: 0 <= i < j < |answers| ==> answers[i].0 != answers[j].0
  }

  /** `[i for i, ans in dlcq_answers.items() if ans]`: the indices answered
      "yes", in the dict's order. */
  function YesIndices(answers: SurveyAnswers): (yes: seq<nat>)
    ensures |yes| <= |answers|
    ensures forall x :: x in yes <==> (x, true) in answers
    ensures DistinctKeys(answers) ==> Distinct(yes)
  {
    if answers == [] then []
    else
      var rest := YesIndices(answers[1..]);
      if answers[0].1 then
        assert forall x :: x in rest ==> (x, true) in answers[1..];
        [answers[0].0] + rest
      else rest
  }

  /** `pick_cq_indices(dlcq_answers, k)`: no index when nothing was answered
      "yes", all "yes" indices in order when there are at most k of them,
      and otherwise k distinct "yes" indices chosen at random (any choice of
      `random.sample` is allowed). */
  method PickCqIndices(answers: SurveyAnswers, k: nat) returns (picked: seq<nat>)
    requires DistinctKeys(answers)
    ensures YesIndices(answers) == [] ==> picked == []
    ensures |YesIndices(answers)| <= k ==> picked == YesIndices(answers)
    ensures |YesIndices(answers)| > k ==> |picked| == k
    ensures Distinct(picked)
    ensures forall x :: x in picked ==> (x, true) in answers
  {
    var yes := YesIndices(answers);
    if |yes| == 0 {
      return [];
    }
    if |yes| <= k {
      return yes;
    }
    assert |yes[..k]| == k && Distinct(yes[..k]) && forall x :: x in yes[..k] ==> x in yes;
    picked :| |picked| == k && Distinct(picked) && forall x :: x in picked ==> x in yes;
  }

  /** The finished question set of one interview. */
  datatype QuestionSet = QuestionSet(
    coreClaim: string,
    i: string,
    sr: string,
    n: seq<string>,
    c: seq<string>,
    r: seq<string>)

  /** The comparison questions: the survey items at the chosen indices, in order. */
  function ComparisonQuestions(cqIndices: seq<nat>): (cs: seq<string>)
    requires forall x :: x in cqIndices ==> x < |DlcqItems|
    ensures |cs| == |cqIndices|
    ensures forall j :: 0 <= j < |cs| ==> cqIndices[j] < |DlcqItems| && cs[j] == DlcqItems[cqIndices[j]]
  {
    assert forall j :: 0 <= j < |cqIndices| ==> cqIndices[j] in cqIndices;
    seq(|cqIndices|, j requires 0 <= j < |cqIndices| => DlcqItems[cqIndices[j]])
  }

  /** The question set stored when the N drill is passed: fixed I and SR,
      the N questions, the survey items of the chosen comparison indices and
      the stored R questions. */
  function AssembleQuestionSet(coreClaim: string, nSet: seq<string>, cqIndices: seq<nat>, rSet: seq<string>): (qs: QuestionSet)
    requires forall x :: x in cqIndices ==> x < |DlcqItems|
    ensures qs.i == IQuestion && qs.sr == SRQuestion
    ensures qs.coreClaim == coreClaim && qs.n == nSet && qs.r == rSet
    ensures qs.c == ComparisonQuestions(cqIndices)
    ensures forall q :: q in qs.c ==> q in DlcqItems
  {
    QuestionSet(coreClaim, IQuestion, SRQuestion, nSet, ComparisonQuestions(cqIndices), rSet)
  }
}
