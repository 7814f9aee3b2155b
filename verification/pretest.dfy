/** The pre-test interview of pages/1pretest.py as a state machine over the
    page's session state: fifteen steps, each rendered by one method that
    takes the widget values and the button pressed on that run, checks the
    step's gate and moves to the next step, to the previous one, or stays.
    The session invariant `Valid` records what each step may rely on, and
    every page keeps it. */
module Pretest {
  import opened Wrappers
  import opened Text
  import opened Templates
  import opened Drills

  /** The values of `st.session_state["step"]`, in interview order. */
  datatype Step =
    | Info | Principle | IsrIntro | IsrPractice | RIntro | RPractice
    | DlcqIntro | Dlcq | CIntro | CPractice | NIntro | NPractice
    | FinalIntro | FinalPractice | End

  /** Position of a step in the interview. */
  function Ord(s: Step): nat {
    match s
    case Info => 0
    case Principle => 1
    case IsrIntro => 2
    case IsrPractice => 3
    case RIntro => 4
    case RPractice => 5
    case DlcqIntro => 6
    case Dlcq => 7
    case CIntro => 8
    case CPractice => 9
    case NIntro => 10
    case NPractice => 11
    case FinalIntro => 12
    case FinalPractice => 13
    case End => 14
  }

  /** The button pressed on a run of a page ("←", "→", "home"), if any.
      A button a page does not show cannot be pressed there and acts as
      `NoPress`. */
  datatype Button = NoPress | Back | Forward | Home

  /** The error a page shows after a blocked "→". */
  datatype Notice =
    | NoNotice
    | ConsentRequired
    | IdentityRequired
    | AnswerAll
    | IsrMustBeYes
    | RAdmitted
    | SurveyNeedsYes
    | CMustBeNo
    | NMustBeYes
    | FinalRConflict
    | FinalRulesBroken
    | NoRQuestions
    | NoCqSelected
    | NoQuestionSet

  /** The values of the intake form on one run of the first page. */
  datatype IntakeForm = IntakeForm(
    category: string,
    offenseType: string,
    offenseFree: string,
    name: string,
    gender: string,
    age: nat,
    agreed: bool)

  /** `st.session_state["case_info"]` once the intake page has written it;
      the three optional entries are the keys later pages add. */
  datatype CaseInfo = CaseInfo(
    category: string,
    offenseType: string,
    offenseText: string,
    name: string,
    gender: string,
    age: nat,
    coreClaim: Option<string>,
    rQuestions: Option<seq<string>>,
    nQuestions: Option<seq<string>>)

  /** The record the intake page writes on every run, with the core claim
      added when the page moves on. */
  function IntakeRecord(form: IntakeForm, withClaim: bool): CaseInfo {
    var text := OffenseText(form.offenseType, form.offenseFree);
    CaseInfo(form.category, form.offenseType, text, form.name, form.gender, form.age,
      if withClaim then Some(CoreClaimSuspect(text)) else None, None, None)
  }

  /** The intake gate: consent given, a name and a non-empty offense text. */
  predicate IntakeAccepted(form: IntakeForm) {
    form.agreed && form.name != "" && OffenseText(form.offenseType, form.offenseFree) != ""
  }

  /** `info.get("R_questions", [])`, with an absent case record read as `{}`. */
  function RQuestionsOf(ci: Option<CaseInfo>): seq<string> {
    if ci.Some? then ci.value.rQuestions.GetOr([]) else []
  }

  /** The session keys `reset_all` deletes, in its order. */
  datatype SessionKey = StepKey | CaseInfoKey | DlcqAnswersKey | CqIndicesKey | QuestionSetKey | ShuffleOrderKey

  const ResetKeys: seq<SessionKey> :=
    [StepKey, CaseInfoKey, DlcqAnswersKey, CqIndicesKey, QuestionSetKey, ShuffleOrderKey]

  /** What holds once the intake page has let the subject through: a name,
      an offense text and the core claim are in the case record. */
  predicate IntakeDone(ci: Option<CaseInfo>) {
    && ci.Some?
    && ci.value.name != ""
    && ci.value.offenseText != ""
    && ci.value.coreClaim.Some?
  }

  /** The three R questions are stored in the case record. */
  predicate RStored(ci: Option<CaseInfo>) {
    ci.Some? && ci.value.rQuestions.Some? && |ci.value.rQuestions.value| == 3
  }

  /** One to three distinct survey items, each answered "예". */
  predicate CqSelected(indices: seq<nat>, answers: SurveyAnswers) {
    && 1 <= |indices| <= 3
    && Distinct(indices)
    && forall x :: x in indices ==> x < |DlcqItems| && (x, true) in answers
  }

  /** The stored question set is the one assembled from the core claim, the
      N and R questions stored in the case record and the chosen comparison
      items. */
  predicate SetAssembled(ci: Option<CaseInfo>, indices: seq<nat>, qs: Option<QuestionSet>) {
    && ci.Some?
    && ci.value.coreClaim.Some?
    && (forall x :: x in indices ==> x < |DlcqItems|)
    && ci.value.nQuestions.Some? && ci.value.rQuestions.Some?
    && qs == Some(AssembleQuestionSet(ci.value.coreClaim.value, ci.value.nQuestions.value,
                    indices, ci.value.rQuestions.value))
  }

  /** What every step may rely on: the intake passed before anything else,
      the R questions stored from the R drill on, the comparison items
      chosen from the C intro on, the question set assembled from the final
      intro on, and a shuffle order only during the final drill. */
  predicate SessionInv(step: Step, caseInfo: Option<CaseInfo>, dlcqAnswers: SurveyAnswers,
                       cqIndices: seq<nat>, questionSet: Option<QuestionSet>, finalShuffleOrder: Option<seq<nat>>)
  {
    && Stored(Band(step), caseInfo, dlcqAnswers, cqIndices, questionSet)
    && (finalShuffleOrder.Some? ==>
          && step == FinalPractice
          && questionSet.Some?
          && IsPermutation(finalShuffleOrder.value, |FinalItems(questionSet.value)|))
  }

  /** The keys a step past `band` thresholds relies on. */
  predicate Stored(band: nat, caseInfo: Option<CaseInfo>, dlcqAnswers: SurveyAnswers,
                   cqIndices: seq<nat>, questionSet: Option<QuestionSet>)
  {
    && (band >= 1 ==> IntakeDone(caseInfo))
    && (band >= 2 ==> RStored(caseInfo))
    && (band >= 3 ==> CqSelected(cqIndices, dlcqAnswers))
    && (band >= 4 ==> SetAssembled(caseInfo, cqIndices, questionSet))
  }

  /** How many of the invariant's step thresholds a step has passed: the
      intake, the R drill, the C intro and the final intro. */
  function Band(s: Step): nat {
    if Ord(s) >= Ord(FinalIntro) then 4
    else if Ord(s) >= Ord(CIntro) then 3
    else if Ord(s) >= Ord(RPractice) then 2
    else if s != Info then 1
    else 0
  }

  /** On the intake no shuffle order is kept. */
  lemma InfoNoOrder(caseInfo: Option<CaseInfo>, dlcqAnswers: SurveyAnswers, cqIndices: seq<nat>,
                    questionSet: Option<QuestionSet>, finalShuffleOrder: Option<seq<nat>>)
    requires SessionInv(Info, caseInfo, dlcqAnswers, cqIndices, questionSet, finalShuffleOrder)
    ensures finalShuffleOrder.None?
  {
  }

  /** Past the intake gate only the intake's record is relied on. */
  lemma AdmittedInv(caseInfo: Option<CaseInfo>, dlcqAnswers: SurveyAnswers, cqIndices: seq<nat>,
                    questionSet: Option<QuestionSet>)
    requires IntakeDone(caseInfo)
    ensures SessionInv(Principle, caseInfo, dlcqAnswers, cqIndices, questionSet, None)
  {
    assert Band(Principle) == 1;
  }

  /** Moving to a step that needs no more than the current one keeps the
      invariant, as long as a shuffle order is only kept on the final drill. */
  lemma InvMonotone(s: Step, s2: Step, caseInfo: Option<CaseInfo>, dlcqAnswers: SurveyAnswers,
                    cqIndices: seq<nat>, questionSet: Option<QuestionSet>, finalShuffleOrder: Option<seq<nat>>)
    requires SessionInv(s, caseInfo, dlcqAnswers, cqIndices, questionSet, finalShuffleOrder)
    requires Band(s2) <= Band(s)
    requires s2 == FinalPractice || s != FinalPractice || finalShuffleOrder.None?
    ensures SessionInv(s2, caseInfo, dlcqAnswers, cqIndices, questionSet, finalShuffleOrder)
  {
  }

  /** The survey runs and the move to the C intro keep the invariant: the
      survey answers matter only once comparison items are chosen. */
  lemma SurveyKeepsInv(s2: Step, caseInfo: Option<CaseInfo>, dlcqAnswers: SurveyAnswers, answers2: SurveyAnswers,
                       cqIndices: seq<nat>, cq2: seq<nat>, questionSet: Option<QuestionSet>, finalShuffleOrder: Option<seq<nat>>)
    requires SessionInv(Dlcq, caseInfo, dlcqAnswers, cqIndices, questionSet, finalShuffleOrder)
    requires s2 == Dlcq || s2 == DlcqIntro || (s2 == CIntro && CqSelected(cq2, answers2))
    ensures SessionInv(s2, caseInfo, answers2, cq2, questionSet, finalShuffleOrder)
  {
  }

  /** Leaving the final drill with the order discarded, or staying with an
      order of its items, keeps the invariant. */
  lemma FinalKeepsInv(s2: Step, caseInfo: Option<CaseInfo>, dlcqAnswers: SurveyAnswers,
                      cqIndices: seq<nat>, questionSet: Option<QuestionSet>,
                      finalShuffleOrder: Option<seq<nat>>, order2: Option<seq<nat>>)
    requires SessionInv(FinalPractice, caseInfo, dlcqAnswers, cqIndices, questionSet, finalShuffleOrder)
    requires s2 == FinalIntro || s2 == End || s2 == FinalPractice
    requires s2 != FinalPractice ==> order2.None?
    requires order2.Some? ==> questionSet.Some? && IsPermutation(order2.value, |FinalItems(questionSet.value)|)
    ensures SessionInv(s2, caseInfo, dlcqAnswers, cqIndices, questionSet, order2)
  {
  }

  /** The interchange text's lines: the claim marker, the core claim, an
      empty line, the set marker, then one `<code><n>. <text>` line per
      question, numbered from 1 within its category. */
  function NumberedLines(code: string, texts: seq<string>): (lines: seq<string>)
    ensures |lines| == |texts|
    ensures forall j :: 0 <= j < |texts| ==> lines[j] == code + NatToString(j + 1) + ". " + texts[j]
  {
    seq(|texts|, j requires 0 <= j < |texts| => code + NatToString(j + 1) + ". " + texts[j])
  }

  function SetLines(qs: QuestionSet): seq<string> {
    [ClaimMarker, qs.coreClaim, "", SetMarker, "I1. " + qs.i, "SR1. " + qs.sr]
      + NumberedLines("N", qs.n) + NumberedLines("C", qs.c) + NumberedLines("R", qs.r)
  }

  /** Appending the numbered lines of one category to `lines`. */
  method AppendNumbered(lines: seq<string>, code: string, texts: seq<string>) returns (out: seq<string>)
    ensures out == lines + NumberedLines(code, texts)
  {
    out := lines;
    for j := 0 to |texts|
      invariant out == lines + NumberedLines(code, texts[..j])
    {
      assert NumberedLines(code, texts[..j + 1]) == NumberedLines(code, texts[..j]) + [code + NatToString(j + 1) + ". " + texts[j]];
      out := out + [code + NatToString(j + 1) + ". " + texts[j]];
    }
    assert texts[..|texts|] == texts;
  }

  /** The end page's `lines` list and the text it offers for download. */
  method ExportText(qs: QuestionSet) returns (lines: seq<string>, text: string)
    ensures lines == SetLines(qs)
    ensures text == JoinLines(lines)
    ensures |lines| == 6 + |qs.n| + |qs.c| + |qs.r|
  {
    lines := [ClaimMarker, qs.coreClaim, "", SetMarker];
    lines := lines + ["I1. " + qs.i];
    lines := lines + ["SR1. " + qs.sr];
    lines := AppendNumbered(lines, "N", qs.n);
    lines := AppendNumbered(lines, "C", qs.c);
    lines := AppendNumbered(lines, "R", qs.r);
    text := JoinLines(lines);
  }

  /** The end page's offer: the exported text of a stored question set, or
      the notice that there is none. */
  method OfferDownload(questionSet: Option<QuestionSet>) returns (notice: Notice, download: Option<string>)
    ensures download == (if questionSet.Some? then Some(JoinLines(SetLines(questionSet.value))) else None)
    ensures notice == (if questionSet.None? then NoQuestionSet else NoNotice)
  {
    notice := NoNotice;
    download := None;
    if questionSet.None? {
      notice := NoQuestionSet;
    } else {
      var lines, text := ExportText(questionSet.value);
      download := Some(text);
    }
  }

  /** The intake page's "→" checks in order: consent, then a name and an
      offense text. Any other button shows no error. */
  method IntakeNotice(form: IntakeForm, button: Button) returns (notice: Notice)
    ensures notice == ConsentRequired <==> button == Forward && !form.agreed
    ensures notice == IdentityRequired <==> button == Forward && form.agreed && !IntakeAccepted(form)
    ensures notice == NoNotice <==> !(button == Forward && !IntakeAccepted(form))
  {
    notice := NoNotice;
    if button == Forward {
      var text := OffenseText(form.offenseType, form.offenseFree);
      if !form.agreed {
        notice := ConsentRequired;
      } else if form.name == "" || text == "" {
        notice := IdentityRequired;
      }
    }
  }

  /** A drill page's "→" checks in order: every item answered, then every
      item answered with `expected`; `wrong` is the page's own error. */
  method DrillNotice(answers: seq<Answer>, expected: Answer, button: Button, wrong: Notice) returns (notice: Notice)
    requires wrong != NoNotice && wrong != AnswerAll
    ensures notice == AnswerAll <==> button == Forward && !AllAnswered(answers)
    ensures notice == wrong <==> button == Forward && AllAnswered(answers) && !AllAnsweredAs(answers, expected)
    ensures notice == NoNotice <==> !(button == Forward && !AllAnsweredAs(answers, expected))
  {
    var allAnswered, allCorrect := TallyDrill(answers, expected);
    notice := NoNotice;
    if button == Forward {
      if !allAnswered {
        notice := AnswerAll;
      } else if !allCorrect {
        notice := wrong;
      }
    }
  }

  /** `st.session_state` of the interview page. A deleted key is modelled by
      the value the page's start-up block gives it on the next run. */
  class PretestSession {
    var step: Step
    var caseInfo: Option<CaseInfo>
    var dlcqAnswers: SurveyAnswers
    var cqIndices: seq<nat>
    var questionSet: Option<QuestionSet>
    var finalShuffleOrder: Option<seq<nat>>

    /** The session satisfies `SessionInv`. */
    predicate Valid()
      reads this
    {
      SessionInv(step, caseInfo, dlcqAnswers, cqIndices, questionSet, finalShuffleOrder)
    }

    /** The state right after start-up or after `reset_all`. */
    predicate Initial()
      reads this
    {
      && step == Info && caseInfo == None && dlcqAnswers == [] && cqIndices == []
      && questionSet == None && finalShuffleOrder == None
    }

    /** The page's start-up block on a fresh session. */
    constructor()
      ensures Initial() && Valid()
    {
      step := Info;
      caseInfo := None;
      dlcqAnswers := [];
      cqIndices := [];
      questionSet := None;
      finalShuffleOrder := None;
    }

    /** `goto(next_step)`: only the step changes. */
    method Goto(next: Step)
      modifies this
      ensures step == next
      ensures caseInfo == old(caseInfo) && dlcqAnswers == old(dlcqAnswers) && cqIndices == old(cqIndices)
      ensures questionSet == old(questionSet) && finalShuffleOrder == old(finalShuffleOrder)
    {
      step := next;
    }

    /** The key has its start-up value. */
    predicate Cleared(key: SessionKey)
      reads this
    {
      match key
      case StepKey => step == Info
      case CaseInfoKey => caseInfo == None
      case DlcqAnswersKey => dlcqAnswers == []
      case CqIndicesKey => cqIndices == []
      case QuestionSetKey => questionSet == None
      case ShuffleOrderKey => finalShuffleOrder == None
    }

    /** `del st.session_state[key]`: that key is back to its start-up value
        and every other key keeps its value. */
    method Delete(key: SessionKey)
      modifies this
      ensures Cleared(key)
      ensures key != StepKey ==> step == old(step)
      ensures key != CaseInfoKey ==> caseInfo == old(caseInfo)
      ensures key != DlcqAnswersKey ==> dlcqAnswers == old(dlcqAnswers)
      ensures key != CqIndicesKey ==> cqIndices == old(cqIndices)
      ensures key != QuestionSetKey ==> questionSet == old(questionSet)
      ensures key != ShuffleOrderKey ==> finalShuffleOrder == old(finalShuffleOrder)
    {
      match key
      case StepKey => step := Info;
      case CaseInfoKey => caseInfo := None;
      case DlcqAnswersKey => dlcqAnswers := [];
      case CqIndicesKey => cqIndices := [];
      case QuestionSetKey => questionSet := None;
      case ShuffleOrderKey => finalShuffleOrder := None;
    }

    /** `reset_all()`: every listed key deleted, then the step set to the
        intake page. */
    method ResetAll()
      modifies this
      ensures Initial() && Valid()
    {
      for j := 0 to |ResetKeys|
        invariant forall m :: 0 <= m < j ==> Cleared(ResetKeys[m])
      {
        Delete(ResetKeys[j]);
      }
      assert Cleared(ResetKeys[1]) && Cleared(ResetKeys[2]) && Cleared(ResetKeys[3]);
      assert Cleared(ResetKeys[4]) && Cleared(ResetKeys[5]);
      Goto(Info);
    }

    /** Step 1, the intake form. The case record is rewritten on every run;
        "→" moves on, adding the core claim, exactly when consent, a name
        and an offense text are all present; "home" resets the session. */
    method IntakePage(form: IntakeForm, button: Button) returns (notice: Notice)
      requires step == Info
      modifies this
      ensures button == Home ==> Initial()
      ensures button != Home ==> step == (if button == Forward && IntakeAccepted(form) then Principle else Info)
      ensures button != Home ==> caseInfo == Some(IntakeRecord(form, step == Principle))
      ensures button != Home ==>
        dlcqAnswers == old(dlcqAnswers) && cqIndices == old(cqIndices)
        && questionSet == old(questionSet) && finalShuffleOrder == old(finalShuffleOrder)
      ensures notice == ConsentRequired <==> button == Forward && !form.agreed
      ensures notice == IdentityRequired <==> button == Forward && form.agreed && !IntakeAccepted(form)
      ensures notice == NoNotice <==> !(button == Forward && !IntakeAccepted(form))
      ensures old(Valid()) ==> Valid()
    {
      notice := IntakeNotice(form, button);
      if button == Home {
        ResetAll();
      } else if button == Forward && notice == NoNotice {
        Admit(form);
      } else {
        Record(IntakeRecord(form, false));
      }
    }

    /** The case record rewritten while the page stays on the intake. */
    method Record(record: CaseInfo)
      requires step == Info
      modifies this
      ensures step == Info && caseInfo == Some(record)
      ensures dlcqAnswers == old(dlcqAnswers) && cqIndices == old(cqIndices)
      ensures questionSet == old(questionSet) && finalShuffleOrder == old(finalShuffleOrder)
      ensures old(Valid()) ==> Valid()
    {
      caseInfo := Some(record);
    }

    /** The intake gate passed: the record with its core claim is stored
        and the page moves to the principle explanation. */
    method Admit(form: IntakeForm)
      requires step == Info && IntakeAccepted(form)
      modifies this
      ensures step == Principle && caseInfo == Some(IntakeRecord(form, true))
      ensures dlcqAnswers == old(dlcqAnswers) && cqIndices == old(cqIndices)
      ensures questionSet == old(questionSet) && finalShuffleOrder == old(finalShuffleOrder)
      ensures old(Valid()) ==> Valid()
    {
      if old(Valid()) {
        InfoNoOrder(caseInfo, dlcqAnswers, cqIndices, questionSet, finalShuffleOrder);
      }
      var record := IntakeRecord(form, true);
      assert IntakeDone(Some(record));
      caseInfo := Some(record);
      Goto(Principle);
      if finalShuffleOrder.None? {
        AdmittedInv(caseInfo, dlcqAnswers, cqIndices, questionSet);
      }
    }

    /** The steps whose page only explains and offers "←" and "→". */
    static predicate IsExplanation(s: Step) {
      s == Principle || s == IsrIntro || s == DlcqIntro || s == NIntro || s == FinalIntro
    }

    /** Where "←" and "→" lead from an explanation step. */
    static function BackFrom(s: Step): Step {
      match s
      case Principle => Info
      case IsrIntro => Principle
      case DlcqIntro => RPractice
      case NIntro => CPractice
      case FinalIntro => NPractice
      case _ => s
    }

    static function ForwardFrom(s: Step): Step {
      match s
      case Principle => IsrIntro
      case IsrIntro => IsrPractice
      case DlcqIntro => Dlcq
      case NIntro => NPractice
      case FinalIntro => FinalPractice
      case _ => s
    }

    /** Steps 2, 3, 7, 11 and 13: "←" and "→" move without a gate. */
    method ExplanationPage(button: Button)
      requires IsExplanation(step)
      modifies this
      ensures step == (if button == Back then BackFrom(old(step))
                       else if button == Forward then ForwardFrom(old(step)) else old(step))
      ensures caseInfo == old(caseInfo) && dlcqAnswers == old(dlcqAnswers) && cqIndices == old(cqIndices)
      ensures questionSet == old(questionSet) && finalShuffleOrder == old(finalShuffleOrder)
      ensures old(Valid()) ==> Valid()
    {
      ghost var wasValid, from := Valid(), step;
      if button == Back {
        Goto(BackFrom(step));
      } else if button == Forward {
        Goto(ForwardFrom(step));
      }
      if wasValid {
        InvMonotone(from, step, caseInfo, dlcqAnswers, cqIndices, questionSet, finalShuffleOrder);
      }
    }

    /** Step 4, the I/SR drill: "→" moves on exactly when both questions
        are answered "예". */
    method IsrPracticePage(ansI: Answer, ansSR: Answer, button: Button) returns (notice: Notice)
      requires step == IsrPractice
      modifies this
      ensures step == (if button == Back then IsrIntro
                       else if button == Forward && AllAnsweredAs([ansI, ansSR], Yes) then RIntro
                       else IsrPractice)
      ensures notice == AnswerAll <==> button == Forward && !AllAnswered([ansI, ansSR])
      ensures notice == IsrMustBeYes <==>
        button == Forward && AllAnswered([ansI, ansSR]) && !AllAnsweredAs([ansI, ansSR], Yes)
      ensures notice == NoNotice <==> !(button == Forward && !AllAnsweredAs([ansI, ansSR], Yes))
      ensures caseInfo == old(caseInfo) && dlcqAnswers == old(dlcqAnswers) && cqIndices == old(cqIndices)
      ensures questionSet == old(questionSet) && finalShuffleOrder == old(finalShuffleOrder)
      ensures old(Valid()) ==> Valid()
    {
      PairDrill(ansI, ansSR, Yes);
      var allCorrect := true;
      if ansI != Yes {
        allCorrect := false;
      }
      if ansSR != Yes {
        allCorrect := false;
      }
      notice := NoNotice;
      if button == Back {
        Goto(IsrIntro);
      } else if button == Forward {
        if ansI == Unanswered || ansSR == Unanswered {
          notice := AnswerAll;
        } else if !allCorrect {
          notice := IsrMustBeYes;
        } else {
          Goto(RIntro);
        }
      }
    }

    /** Step 5, the R intro: every run stores the three R questions built
        from the offense text in the case record. */
    method RIntroPage(button: Button)
      requires step == RIntro
      requires caseInfo.Some? && caseInfo.value.coreClaim.Some?
      modifies this
      ensures caseInfo == Some(old(caseInfo).value.(rQuestions := Some(RQuestionsSuspect(old(caseInfo).value.offenseText))))
      ensures step == (if button == Back then IsrPractice else if button == Forward then RPractice else RIntro)
      ensures dlcqAnswers == old(dlcqAnswers) && cqIndices == old(cqIndices)
      ensures questionSet == old(questionSet) && finalShuffleOrder == old(finalShuffleOrder)
      ensures old(Valid()) ==> Valid()
    {
      var info := caseInfo.value;
      caseInfo := Some(info.(rQuestions := Some(RQuestionsSuspect(info.offenseText))));
      if button == Back {
        Goto(IsrPractice);
      } else if button == Forward {
        Goto(RPractice);
      }
    }

    /** Step 6, the R drill: "→" moves on exactly when every R question is
        answered "아니오"; an answered "예" shows the admission error. With
        no stored R questions only "←" is offered. */
    method RPracticePage(answers: seq<Answer>, button: Button) returns (notice: Notice)
      requires step == RPractice
      requires |answers| == |RQuestionsOf(caseInfo)|
      modifies this
      ensures RQuestionsOf(caseInfo) == [] ==>
        notice == NoRQuestions && step == (if button == Back then RIntro else RPractice)
      ensures RQuestionsOf(caseInfo) != [] ==>
        step == (if button == Back then RIntro
                 else if button == Forward && AllAnsweredAs(answers, No) then DlcqIntro
                 else RPractice)
      ensures RQuestionsOf(caseInfo) != [] ==>
        (notice == AnswerAll <==> button == Forward && !AllAnswered(answers))
      ensures RQuestionsOf(caseInfo) != [] ==>
        (notice == RAdmitted <==> button == Forward && AllAnswered(answers) && !AllAnsweredAs(answers, No))
      ensures RQuestionsOf(caseInfo) != [] ==>
        (notice == NoNotice <==> !(button == Forward && !AllAnsweredAs(answers, No)))
      ensures caseInfo == old(caseInfo) && dlcqAnswers == old(dlcqAnswers) && cqIndices == old(cqIndices)
      ensures questionSet == old(questionSet) && finalShuffleOrder == old(finalShuffleOrder)
      ensures old(Valid()) ==> Valid() && notice != NoRQuestions
    {
      var rQuestions := RQuestionsOf(caseInfo);
      if rQuestions == [] {
        notice := NoRQuestions;
        if button == Back {
          Goto(RIntro);
        }
        return;
      }
      var allAnswered, rConflict := TallyRDrill(answers, No);
      notice := NoNotice;
      if button == Back {
        Goto(RIntro);
      } else if button == Forward {
        if !allAnswered {
          notice := AnswerAll;
        } else if rConflict {
          notice := RAdmitted;
        } else {
          Goto(DlcqIntro);
        }
      }
    }

    /** Step 8, the survey: every run stores the answers; "→" needs at
        least one "예" and then stores one to three "예" items, all of them
        when there are at most three. */
    method DlcqPage(radios: seq<Answer>, button: Button) returns (notice: Notice)
      requires step == Dlcq
      requires |radios| == |DlcqItems|
      modifies this
      ensures DistinctKeys(dlcqAnswers)
      ensures forall i, j :: 0 <= i < j < |dlcqAnswers| ==> dlcqAnswers[i].0 < dlcqAnswers[j].0
      ensures forall x: nat :: (x, true) in dlcqAnswers <==> x < |radios| && radios[x] == Yes
      ensures forall x: nat :: (x, false) in dlcqAnswers <==> x < |radios| && radios[x] == No
      ensures step == (if button == Back then DlcqIntro
                       else if button == Forward && Yes in radios then CIntro
                       else Dlcq)
      ensures notice == SurveyNeedsYes <==> button == Forward && Yes !in radios
      ensures notice == NoNotice <==> notice != SurveyNeedsYes
      ensures step == CIntro ==> CqSelected(cqIndices, dlcqAnswers)
      ensures step == CIntro && |YesIndices(dlcqAnswers)| <= 3 ==> cqIndices == YesIndices(dlcqAnswers)
      ensures step == CIntro && |YesIndices(dlcqAnswers)| > 3 ==> |cqIndices| == 3
      ensures step != CIntro ==> cqIndices == old(cqIndices)
      ensures caseInfo == old(caseInfo) && questionSet == old(questionSet) && finalShuffleOrder == old(finalShuffleOrder)
      ensures old(Valid()) ==> Valid()
    {
      ghost var wasValid := Valid();
      ghost var answers0, cq0 := dlcqAnswers, cqIndices;
      var answers := CollectSurvey(radios);
      dlcqAnswers := answers;
      notice := NoNotice;
      if button == Back {
        Goto(DlcqIntro);
      } else if button == Forward {
        if YesIndices(answers) == [] {
          notice := SurveyNeedsYes;
        } else {
          var picked := PickCqIndices(answers, 3);
          cqIndices := picked;
          Goto(CIntro);
        }
      }
      if wasValid {
        SurveyKeepsInv(step, caseInfo, answers0, dlcqAnswers, cq0, cqIndices, questionSet, finalShuffleOrder);
      }
    }

    /** Step 9, the C intro: both "←" buttons lead back to the survey; "→"
        is offered only when comparison items were chosen. */
    method CIntroPage(button: Button) returns (notice: Notice)
      requires step == CIntro
      modifies this
      ensures notice == (if cqIndices == [] then NoCqSelected else NoNotice)
      ensures step == (if button == Back then Dlcq
                       else if button == Forward && cqIndices != [] then CPractice
                       else CIntro)
      ensures caseInfo == old(caseInfo) && dlcqAnswers == old(dlcqAnswers) && cqIndices == old(cqIndices)
      ensures questionSet == old(questionSet) && finalShuffleOrder == old(finalShuffleOrder)
      ensures old(Valid()) ==> Valid() && notice == NoNotice
    {
      if cqIndices == [] {
        notice := NoCqSelected;
        if button == Back {
          Goto(Dlcq);
        }
        return;
      }
      notice := NoNotice;
      if button == Back {
        Goto(Dlcq);
      } else if button == Forward {
        Goto(CPractice);
      }
    }

    /** Step 10, the C drill: "→" moves on exactly when every chosen item is
        answered "아니오". */
    method CPracticePage(answers: seq<Answer>, button: Button) returns (notice: Notice)
      requires step == CPractice
      requires forall x :: x in cqIndices ==> x < |DlcqItems|
      requires |answers| == |cqIndices|
      modifies this
      ensures cqIndices == [] ==>
        notice == NoCqSelected && step == (if button == Back then Dlcq else CPractice)
      ensures cqIndices != [] ==>
        step == (if button == Back then CIntro
                 else if button == Forward && AllAnsweredAs(answers, No) then NIntro
                 else CPractice)
      ensures cqIndices != [] ==>
        (notice == AnswerAll <==> button == Forward && !AllAnswered(answers))
      ensures cqIndices != [] ==>
        (notice == CMustBeNo <==> button == Forward && AllAnswered(answers) && !AllAnsweredAs(answers, No))
      ensures cqIndices != [] ==>
        (notice == NoNotice <==> !(button == Forward && !AllAnsweredAs(answers, No)))
      ensures caseInfo == old(caseInfo) && dlcqAnswers == old(dlcqAnswers) && cqIndices == old(cqIndices)
      ensures questionSet == old(questionSet) && finalShuffleOrder == old(finalShuffleOrder)
      ensures old(Valid()) ==> Valid() && notice != NoCqSelected
    {
      if cqIndices == [] {
        notice := NoCqSelected;
        if button == Back {
          Goto(Dlcq);
        }
        return;
      }
      var allAnswered, allCorrect := TallyDrill(answers, No);
      notice := NoNotice;
      if button == Back {
        Goto(CIntro);
      } else if button == Forward {
        if !allAnswered {
          notice := AnswerAll;
        } else if !allCorrect {
          notice := CMustBeNo;
        } else {
          Goto(NIntro);
        }
      }
    }

    /** Step 12, the N drill: every run stores the three N questions; "→"
        moves on exactly when all three are answered "예", and then stores
        the assembled question set. */
    method NPracticePage(answers: seq<Answer>, button: Button) returns (notice: Notice)
      requires step == NPractice
      requires caseInfo.Some?
      requires |answers| == 3
      requires button == Forward ==>
        caseInfo.value.coreClaim.Some? && forall x :: x in cqIndices ==> x < |DlcqItems|
      modifies this
      ensures dlcqAnswers == old(dlcqAnswers) && cqIndices == old(cqIndices)
      ensures finalShuffleOrder == old(finalShuffleOrder)
      ensures caseInfo == Some(old(caseInfo).value.(nQuestions :=
        Some(NQuestions(old(caseInfo).value.name, old(caseInfo).value.gender, old(caseInfo).value.age))))
      ensures step == (if button == Back then NIntro
                       else if button == Forward && AllAnsweredAs(answers, Yes) then FinalIntro
                       else NPractice)
      ensures notice == AnswerAll <==> button == Forward && !AllAnswered(answers)
      ensures notice == NMustBeYes <==> button == Forward && AllAnswered(answers) && !AllAnsweredAs(answers, Yes)
      ensures notice == NoNotice <==> !(button == Forward && !AllAnsweredAs(answers, Yes))
      ensures step == FinalIntro ==>
        questionSet == Some(AssembleQuestionSet(caseInfo.value.coreClaim.value,
          NQuestions(caseInfo.value.name, caseInfo.value.gender, caseInfo.value.age),
          cqIndices, RQuestionsOf(caseInfo)))
      ensures step != FinalIntro ==> questionSet == old(questionSet)
      ensures old(Valid()) ==> Valid()
    {
      var info := caseInfo.value;
      StoreN(NQuestions(info.name, info.gender, info.age));
      notice := DrillNotice(answers, Yes, button, NMustBeYes);
      if button == Back {
        Goto(NIntro);
      } else if button == Forward && notice == NoNotice {
        Assemble();
      }
    }

    /** The N questions written into the case record. */
    method StoreN(nQuestions: seq<string>)
      requires step == NPractice && caseInfo.Some?
      modifies this
      ensures caseInfo == Some(old(caseInfo).value.(nQuestions := Some(nQuestions)))
      ensures step == old(step) && dlcqAnswers == old(dlcqAnswers) && cqIndices == old(cqIndices)
      ensures questionSet == old(questionSet) && finalShuffleOrder == old(finalShuffleOrder)
      ensures old(Valid()) ==> Valid()
    {
      caseInfo := Some(caseInfo.value.(nQuestions := Some(nQuestions)));
    }

    /** The N drill passed: the question set is assembled from the stored
        core claim, N questions, comparison items and R questions, and the
        page moves to the final intro. */
    method Assemble()
      requires step == NPractice
      requires caseInfo.Some? && caseInfo.value.coreClaim.Some? && caseInfo.value.nQuestions.Some?
      requires forall x :: x in cqIndices ==> x < |DlcqItems|
      modifies this
      ensures caseInfo == old(caseInfo) && dlcqAnswers == old(dlcqAnswers) && cqIndices == old(cqIndices)
      ensures questionSet == Some(AssembleQuestionSet(caseInfo.value.coreClaim.value,
        caseInfo.value.nQuestions.value, cqIndices, RQuestionsOf(caseInfo)))
      ensures step == FinalIntro
      ensures finalShuffleOrder == old(finalShuffleOrder)
      ensures old(Valid()) ==> Valid()
    {
      var rSet := RQuestionsOf(caseInfo);
      questionSet := Some(AssembleQuestionSet(caseInfo.value.coreClaim.value, caseInfo.value.nQuestions.value, cqIndices, rSet));
      Goto(FinalIntro);
    }

    /** Step 14, the final drill over all questions of the set in a shuffled
        order that is drawn once and kept across runs. "→" moves on exactly
        when every item is answered as expected; a wrong R answer shows the
        R error and any other wrong answer the generic one. Leaving the page
        either way discards the order. */
    method FinalPracticePage(answers: seq<Answer>, button: Button) returns (notice: Notice)
      requires step == FinalPractice
      requires questionSet.Some? ==> |answers| == |FinalItems(questionSet.value)|
      requires finalShuffleOrder.Some? ==>
        questionSet.Some? && IsPermutation(finalShuffleOrder.value, |FinalItems(questionSet.value)|)
      modifies this
      ensures caseInfo == old(caseInfo) && dlcqAnswers == old(dlcqAnswers) && cqIndices == old(cqIndices)
      ensures questionSet == old(questionSet)
      ensures questionSet.None? ==>
        notice == NoQuestionSet && step == (if button == Back then FinalIntro else FinalPractice)
      ensures questionSet.Some? ==>
        step == (if button == Back then FinalIntro
                 else if button == Forward && FinalCorrect(FinalItems(questionSet.value), answers) then End
                 else FinalPractice)
      ensures questionSet.Some? ==>
        (notice == AnswerAll <==> button == Forward && !AllAnswered(answers))
      ensures questionSet.Some? && button == Forward && AllAnswered(answers) ==>
        notice == (if FinalCorrect(FinalItems(questionSet.value), answers) then NoNotice
                   else if RMismatch(FinalItems(questionSet.value), answers) then FinalRConflict
                   else FinalRulesBroken)
      ensures questionSet.Some? && button != Forward ==> notice == NoNotice
      ensures step == FinalPractice && questionSet.Some? ==>
        finalShuffleOrder.Some? && IsPermutation(finalShuffleOrder.value, |FinalItems(questionSet.value)|)
      ensures step == FinalPractice && old(finalShuffleOrder).Some? ==> finalShuffleOrder == old(finalShuffleOrder)
      ensures step != FinalPractice ==> finalShuffleOrder == None
      ensures questionSet.None? ==> finalShuffleOrder == old(finalShuffleOrder)
      ensures old(Valid()) ==> Valid() && notice != NoQuestionSet
    {
      if questionSet.None? {
        notice := NoQuestionSet;
        if button == Back {
          Goto(FinalIntro);
        }
        return;
      }
      ghost var wasValid := Valid();
      ghost var order0 := finalShuffleOrder;
      var items := BuildFinalItems(questionSet.value);
      if finalShuffleOrder.None? {
        var drawn := Shuffle(|items|);
        finalShuffleOrder := Some(drawn);
      }
      var allAnswered, allCorrect, rConflict := TallyFinal(items, finalShuffleOrder.value, answers);
      notice := NoNotice;
      if button == Back {
        finalShuffleOrder := None;
        Goto(FinalIntro);
      } else if button == Forward {
        if !allAnswered {
          notice := AnswerAll;
        } else if !allCorrect {
          notice := if rConflict then FinalRConflict else FinalRulesBroken;
        } else {
          finalShuffleOrder := None;
          Goto(End);
        }
      }
      if wasValid {
        FinalKeepsInv(step, caseInfo, dlcqAnswers, cqIndices, questionSet, order0, finalShuffleOrder);
      }
    }

    /** Step 15, the end page: offers the question set as text, "←" returns
        to the final drill and "home" resets the session. */
    method EndPage(button: Button) returns (notice: Notice, download: Option<string>)
      requires step == End
      modifies this
      ensures download == (if old(questionSet).Some? then Some(JoinLines(SetLines(old(questionSet).value))) else None)
      ensures notice == (if old(questionSet).None? then NoQuestionSet else NoNotice)
      ensures button == Home ==> Initial()
      ensures button != Home ==> step == (if button == Back then FinalPractice else End)
      ensures button != Home ==>
        caseInfo == old(caseInfo) && dlcqAnswers == old(dlcqAnswers) && cqIndices == old(cqIndices)
        && questionSet == old(questionSet) && finalShuffleOrder == old(finalShuffleOrder)
      ensures old(Valid()) ==> Valid() && download.Some?
    {
      notice, download := OfferDownload(questionSet);
      if button == Back {
        Goto(FinalPractice);
      } else if button == Home {
        ResetAll();
      }
    }
  }
}
