# Ophtheon pre-test interview and exam sequencer

Ophtheon is a Streamlit application that prepares and runs a polygraph
examination. This project models its two central pages:

- `pages/1pretest.py`, the **pre-test interview**. This page walks the
  examinee through fifteen steps:
  - an intake form: consent, identity and the offence under investigation;
  - a series of explanation pages;
  - drills on the I and SR questions, the relevant (R)
    questions about the offence, the comparison (C) questions and the
    neutral (N) identity questions;
  - a survey of directed-lie comparison items (DLCQ), from which up to
    three C questions are drawn;
  - a final drill over the whole question set, in a shuffled order;
  - the export of the set as a numbered text file.
- `pages/2test.py`, the **exam sequencer**. This page:
  - reads such a text file back;
  - finds the examinee's core claim and the numbered questions of each
    category;
  - lays out the eleven-slot exam I, SR, N, C, R, N, C, R, N, C, R, with a
    placeholder wherever a category runs short;
  - schedules the questions to be spoken 30 s after the start and 15 s
    apart.

## How the model is laid out

The Dafny modules follow the program's structure.

- `Text`: the Python string operations the pages rely on:
  - `str.strip`;
  - `str.splitlines`;
  - `"\n".join`;
  - `str(n)` for a natural number.
- `Templates`: the fixed texts and the pure helpers of `pages/1pretest.py`:
  - the I/SR questions and the DLCQ items;
  - the offence subtypes and the offence text;
  - the core-claim and R-question templates and the N questions;
  - `pick_cq_indices`;
  - assembling the final question set.
- `Drills`: the answer-checking loops of the practice steps:
  - the survey;
  - the R, C and N drills;
  - the final drill over the shuffled items.
- `Pretest`: the interview's session state as the class `PretestSession`.
  - Its six fields mirror the keys of Streamlit's `session_state`.
  - Each `elif step == ...` branch is one method, taking the widgets' values
    and the button pressed as inputs.
  - The invariant `SessionInv` holds across every step. It states which keys
    each step may rely on.
- `Exam`: the question-set parser, the exam layout and the cue schedule of
  `pages/2test.py`, and that page's session state as the class
  `ExamSession`.
- `RoundTrip`: relates the two pages. Reading back the text the interview
  exports yields exactly the interview's core claim and questions (as long
  as no question text contains a line break or leading or trailing spaces),
  so the exam built from it is I, SR, N1, C1, R1, … R3 of that set.

Randomness is not modelled as a probability:
- `random.sample` is modelled as any choice of `k` distinct yes-answered
  indices;
- `random.shuffle` is modelled as any permutation.

A Python dict that the code builds by inserting keys in order is a sequence
of key/value pairs with distinct keys. A deleted session key reads as the
default that the page's start-up block would give it.

The DLCQ survey's gate moves on once one item is answered "예", although its
message asks for at least three. The model follows the code.

## Model

| member | source | states |
|---|---|---|
| Text.Strip | pages/2test.py:81 | the result has no leading or trailing whitespace; an already trimmed string is unchanged; stripping keeps a single line a single line |
| Text.StripAfterSpace | pages/2test.py:94-101 | any run of whitespace in front of a trimmed, non-empty text, such as the one `\s*` may leave to group 2, is all that `strip` removes |
| Text.SplitLines | pages/2test.py:81 | every line produced by `splitlines` is free of line breaks |
| Text.SplitJoin | pages/1pretest.py:813 | splitting the `"\n"`-joined text of single-line lines, the last one non-empty, gives back exactly those lines |
| Text.NatToStringValue | pages/1pretest.py:806-811 | the decimal numeral written for a number reads back as that number |
| Templates.CategoryCode | pages/2test.py:94 | each category code is a non-empty, trimmed, single-line prefix |
| Templates.CoreClaimShape | pages/1pretest.py:98-99 | the core claim contains the offence text, is trimmed, opens with "저" and is a single line exactly when the offence text is |
| Templates.RQuestionsSuspect | pages/1pretest.py:102-107 | the suspect template yields three R questions |
| Templates.RQuestionsShape | pages/1pretest.py:102-107 | each R question contains the offence text, is non-empty and trimmed, is single-line exactly when the offence text is, and the three are pairwise distinct |
| Templates.NQuestions | pages/1pretest.py:601-606 | the identity drill has three N questions |
| Templates.NQuestionsShape | pages/1pretest.py:601-606 | the N questions mention the name, the gender and the age numeral in turn; each is non-empty and trimmed |
| Templates.OffenseText | pages/1pretest.py:202-205 | a listed subtype is its own offence text; for "기타" the free text is stripped, and an empty free text falls back to "행위를"; the result is empty exactly when no subtype is chosen or the free text is all whitespace |
| Templates.GenderOptionsWellFormed | pages/1pretest.py:211 | each of the three gender labels is a non-empty, trimmed single line |
| Templates.SubtypesWellFormed | pages/1pretest.py:174-193 | every offered subtype is a non-empty, trimmed, single-line text |
| Templates.YesIndices | pages/1pretest.py:136 | the yes indices are exactly the keys answered true, without repeats when the keys are distinct |
| Templates.PickCqIndices | pages/1pretest.py:135-141 | no yes answers give none; at most `k` give all of them in order; more give `k` distinct ones, each answered yes |
| Templates.ComparisonQuestions | pages/1pretest.py:638 | the C questions are the DLCQ items at the chosen indices, in order |
| Templates.AssembleQuestionSet | pages/1pretest.py:635-647 | the set carries the core claim, the fixed I/SR questions, the N and R lists as given, and as C questions the DLCQ items at the chosen indices, in that order (`ComparisonQuestions`) |
| Drills.PairDrill | pages/1pretest.py:333-357 | a two-item drill is answered, or answered as expected, exactly when both items are |
| Drills.TallyRDrill | pages/1pretest.py:408-423 | the loop reports whether every item was answered and whether some answered item contradicts the expected "아니오"; both pass exactly when all answers are "아니오" |
| Drills.TallyDrill | pages/1pretest.py:540-555 | the C and N loops report whether every item was answered and whether every item got the expected answer |
| Drills.CollectSurvey | pages/1pretest.py:469-482 | the survey dict holds exactly the answered items, "예" as true and "아니오" as false, with distinct keys in order; it has a yes entry exactly when some item was answered "예" |
| Drills.FinalItemsShape | pages/1pretest.py:690-727 | the final drill has 2 + N + C + R items, each expecting its category's answer, and its R items are exactly the last ones |
| Drills.BuildFinalItems | pages/1pretest.py:690-727 | the append loops build I, SR, then the N, C and R items in list order |
| Drills.PermutationCovers | pages/1pretest.py:729-741 | a shuffle order has one entry per item, each in range, and visits every item |
| Drills.Shuffle | pages/1pretest.py:729-734 | the stored order is a permutation of the item indices |
| Drills.TallyFinal | pages/1pretest.py:736-755 | visiting the items in the shuffled order, the verdicts are those over all items in any order: all answered, all as expected, some R item answered against its expected answer (the order-free `FinalCorrect` and `RMismatch`) |
| Pretest.InvMonotone | pages/1pretest.py:76-78 | moving back to an earlier step keeps the session invariant |
| Pretest.SurveyKeepsInv | pages/1pretest.py:482-495 | storing new survey answers keeps the invariant, and so does moving on to the C intro with a valid choice of C items |
| Pretest.FinalKeepsInv | pages/1pretest.py:757-778 | leaving the final drill, which drops the shuffle order, keeps the invariant |
| Pretest.AppendNumbered | pages/1pretest.py:806-811 | the `enumerate(..., start=1)` loop appends one line per question, numbered from 1 |
| Pretest.ExportText | pages/1pretest.py:799-813 | the exported text joins the export lines, six header and I/SR lines plus one per N, C and R question |
| Pretest.OfferDownload | pages/1pretest.py:782-821 | with a question set, its exported text is offered for download; without one, the "no question set" error is shown instead |
| Pretest.IntakeNotice | pages/1pretest.py:255-259 | "→" without consent gives the missing-consent error; with consent but an empty name or offence text, the missing-identity error; otherwise no error |
| Pretest.DrillNotice | pages/1pretest.py:629-633 | a drill's "→" reports an unanswered item first, then the page's own error when some item differs from the expected answer, and no error exactly when every item has the expected answer |
| Pretest.AdmittedInv | pages/1pretest.py:260-263 | a session holding an accepted intake record, at the step after the intake, satisfies the invariant |
| Pretest.PretestSession.constructor | pages/1pretest.py:56-69 | a fresh session starts at the intake with nothing stored and satisfies the invariant |
| Pretest.PretestSession.Goto | pages/1pretest.py:76-78 | `goto` changes the step and nothing else |
| Pretest.PretestSession.Delete | pages/1pretest.py:90-91 | deleting a key resets that key only |
| Pretest.PretestSession.ResetAll | pages/1pretest.py:81-93 | `reset_all` returns to the initial session |
| Pretest.PretestSession.IntakePage | pages/1pretest.py:148-263 | the case record is stored on every run; "→" moves on exactly when consent is given and the name and offence text are non-empty, with the missing-consent or missing-identity error otherwise; the core claim is stored only when moving on; "home" resets |
| Pretest.PretestSession.ExplanationPage | pages/1pretest.py:266-322 | the explanation steps move back or forward along the fixed order and change nothing else |
| Pretest.PretestSession.IsrPracticePage | pages/1pretest.py:325-359 | the I/SR drill moves on exactly when both are answered "예", with the unanswered or must-be-yes error otherwise |
| Pretest.PretestSession.RIntroPage | pages/1pretest.py:362-394 | the three R questions are built from the offence text and stored |
| Pretest.PretestSession.RPracticePage | pages/1pretest.py:397-439 | the R drill moves on exactly when every R question is answered "아니오"; no stored R questions show an error, which the invariant rules out |
| Pretest.PretestSession.DlcqPage | pages/1pretest.py:466-495 | the survey answers are stored on every run, with distinct keys in ascending item order, so the chosen C items keep that order; "→" moves on exactly when some item is "예", with up to three distinct yes-answered items chosen as C items |
| Pretest.PretestSession.CIntroPage | pages/1pretest.py:498-528 | no chosen C items show an error and block "→", which the invariant rules out |
| Pretest.PretestSession.CPracticePage | pages/1pretest.py:531-568 | the C drill moves on exactly when every C question is answered "아니오" |
| Pretest.PretestSession.NPracticePage | pages/1pretest.py:593-648 | the N questions are stored; the drill moves on exactly when all three are "예", and then the final question set is assembled from the stored claim, N, C and R questions |
| Pretest.PretestSession.FinalPracticePage | pages/1pretest.py:672-778 | the final drill moves on exactly when every item has its expected answer; otherwise it reports an unanswered item, an R mismatch or a broken rule, in that order; a shuffle order is kept while the drill lasts and dropped on leaving |
| Pretest.PretestSession.Record | pages/1pretest.py:230-245 | the intake's case record replaces the stored one, nothing else changes, and the invariant is kept |
| Pretest.PretestSession.Admit | pages/1pretest.py:260-263 | an accepted intake is stored with its core claim, the session moves to the principle page, and the invariant is kept |
| Pretest.PretestSession.StoreN | pages/1pretest.py:601-606 | the N questions are written into the case record, nothing else changes, and the invariant is kept |
| Pretest.PretestSession.Assemble | pages/1pretest.py:634-648 | the question set is assembled from the stored claim, N and R questions and the chosen C items, the session moves to the final intro, and the invariant is kept |
| Pretest.PretestSession.EndPage | pages/1pretest.py:781-830 | the exported text of the stored set is offered; a valid session always has a set to export; "←" and "home" navigate |
| Exam.DigitRun | pages/2test.py:94 | `\d+` matches the longest run of leading digits |
| Exam.CodeOf | pages/2test.py:94 | a recognised code is a prefix of the line; a line has none exactly when it does not start with I, S, N, C or R, or starts with S but not SR |
| Exam.ParseQuestionLine | pages/2test.py:94-106 | a recognised line starts with the category's code, and the question text is trimmed |
| Exam.ParsedLineForm | pages/2test.py:94-106 | a line is read as a question only when it is the code, one or more digits, a "." and a non-empty tail, and the question is that tail stripped |
| Exam.ParseQuestionForm | pages/2test.py:94-106 | every line of that form is read, as its code's category and its tail stripped; with `ParsedLineForm`, a line is a question exactly when it matches the pattern |
| Exam.ParseNumberedLine | pages/2test.py:94-106 | a line "code number. text" of well-formed text parses to that category and text |
| Exam.NonQuestionLine | pages/2test.py:96-99 | an empty line, or one not starting with a category letter, is skipped |
| Exam.FirstMarker | pages/2test.py:87-91 | the claim marker's first occurrence is found, or none is |
| Exam.QuestionLists.Add | pages/2test.py:108 | appending a question extends its own category's list and no other |
| Exam.ParsedListsStep | pages/2test.py:96-108 | each further line adds its question, if any, to the end of its category's list |
| Exam.ClaimAtMarker | pages/2test.py:86-91 | the core claim is the stripped line after the first marker, or empty when the marker is last |
| Exam.FindCoreClaim | pages/2test.py:83-91 | the search loop returns the claim defined by the first marker |
| Exam.CollectQuestions | pages/2test.py:84-108 | the regex loop collects, per category and in file order, the question of every matching line |
| Exam.ParseQuestionSetTxt | pages/2test.py:75-110 | the parser returns the claim and the question lists of the stripped lines of the text |
| Exam.Placeholder | pages/2test.py:134 | a missing question is shown as a bracketed notice |
| Exam.ExamSequence | pages/2test.py:125-139 | the exam has one entry per slot of the eleven-slot pattern |
| Exam.ExamSlots | pages/2test.py:125-137 | the eleven entries follow the pattern of kinds, and each takes its category's next question or a placeholder |
| Exam.CounterStep | pages/2test.py:126-137 | the per-category counter at each slot is the number of earlier slots of that category, and only that counter advances |
| Exam.BuildExamSequence | pages/2test.py:113-139 | the counter loop builds the layout defined slot by slot |
| Exam.ExamByKind | pages/2test.py:125-137 | the entries of a category are, in order, its first one or three questions numbered from 1, with placeholders where the list runs short |
| Exam.RoundsByKind | pages/2test.py:125-137 | N, C and R each fill three slots, with their questions 1, 2, 3 |
| Exam.OpeningByKind | pages/2test.py:125-137 | I and SR each fill one slot, with their first question |
| Exam.ExamComplete | pages/2test.py:125-139 | with enough questions, the exam reads I1, SR1, N1, C1, R1, N2, C2, R2, N3, C3, R3 and contains no placeholder |
| Exam.LoadExam | pages/2test.py:161-163 | an upload yields the parsed claim and an eleven-entry exam built from the parsed questions |
| Exam.ScheduleQuestions | pages/2test.py:312-337 | one cue per question, in order, the first at the 30 s baseline and each 15 s after the one before |
| Exam.ExamSession.constructor | pages/2test.py:59-69 | a fresh session is at the upload step with nothing loaded |
| Exam.ExamSession.UploadPage | pages/2test.py:148-168 | an uploaded file's claim and exam are stored and the page moves to the preview; without a file nothing changes |
| Exam.ExamSession.Store | pages/2test.py:164-167 | the claim, the exam and the preview step are stored |
| Exam.ExamSession.PreviewPage | pages/2test.py:171-210 | the preview moves back to the upload, or on to an unstarted run when an exam is loaded |
| Exam.ExamSession.RunPage | pages/2test.py:214-337 | a run with nothing loaded can only return to the upload; the return button goes back to the preview, "검사 시작" starts the exam, and a started exam schedules one cue per question |
| RoundTrip.NumberedLineShape | pages/1pretest.py:806-811 | a numbered export line of a well-formed text is itself well formed |
| RoundTrip.SetLinesShape | pages/1pretest.py:799-811 | the export lines of a well-formed set are trimmed single lines, the last one non-empty |
| RoundTrip.StrippedJoin | pages/2test.py:81 | reading back joined clean lines gives the same lines |
| RoundTrip.ExportLines | pages/2test.py:81 | the exam page reads back exactly the lines the interview exported |
| RoundTrip.ExportClaim | pages/2test.py:86-91 | the claim found in the export lines is the set's core claim |
| RoundTrip.NumberedParses | pages/2test.py:94-106 | every numbered line of a category parses to that category and its text |
| RoundTrip.PreambleParses | pages/2test.py:96-99 | the marker, claim and blank header lines contain no question |
| RoundTrip.SetLinesParse | pages/2test.py:94-106 | the export lines parse to the I, SR, N, C and R questions, tagged with their categories |
| RoundTrip.CollectTagged | pages/2test.py:103-108 | collecting a category from tagged lines keeps exactly that category's texts, in order |
| RoundTrip.CollectExport | pages/2test.py:103-108 | collecting each category from the parsed export yields that category's questions |
| RoundTrip.ExportParses | pages/2test.py:75-110 | parsing the exported text of a well-formed set gives back its core claim and exactly its I, SR, N, C and R questions |
| RoundTrip.CoreClaimNotQuestion | pages/1pretest.py:98-99 | the interview's core claim never parses as a question line |
| RoundTrip.IQuestionWellFormed | pages/1pretest.py:111 | the I question is a trimmed, non-empty single line |
| RoundTrip.SRQuestionWellFormed | pages/1pretest.py:112 | the SR question is a trimmed, non-empty single line |
| RoundTrip.InterviewSetWellFormed | pages/1pretest.py:634-647 | the set the interview assembles from single-line intake answers and well-formed survey items satisfies the export's well-formedness condition, for any gender label of the radio |
| RoundTrip.InterviewExam | pages/2test.py:113-139 | the exam built from the interview's export with three C items is I, SR, then N, C and R in turn, with the interview's own texts in every slot |
| RoundTrip.ExportedExam | pages/2test.py:113-139 | the exam built from an export with three N, C and R questions is that set's questions in the slot order, with no placeholder |

## Left out

- Rendering is out of scope: Streamlit layout, markdown, info/success texts
  and `st.rerun`. Button presses and widget values are inputs to the step
  methods. Error and warning messages are the `Notice` values.
- Reading the upload is out of scope: `uploaded.read().decode("utf-8")`,
  `io.BytesIO` and `st.download_button`. The upload is modelled as a text,
  and the download as the text offered.
- The browser-side speech and timers of `pages/2test.py` (lines 301-337) are
  left out. Only the offsets at which each question is cued are modelled.
- The distributions of `random.sample` and `random.shuffle` are not
  modelled, only the sets of results they can return.
- Pretest.IntakeRecord stores only some of the intake's fields:
  - kept: name, gender, age, offence category, offence subtype, offence
    text and core claim;
  - left out: role, role label, and the sleep, medication, alcohol, smoking
    and caffeine covariates.
  The page stores the left-out fields without using them.
- Pretest.PretestSession.IntakePage: the 18–80 bounds of the age widget are
  not modelled (any natural number is accepted), since the widget enforces
  them.
- Pretest.SessionInv does not state the wording of the stored templates
  beyond what `SetAssembled` relates.
- Pretest.OfferDownload: the fallback to `case_info["core_claim"]` at
  `pages/1pretest.py:788` is not modelled, because a stored question set
  always has a core claim.
- RoundTrip.InterviewSetWellFormed and RoundTrip.InterviewExam assume that
  the typed name and offence text hold no character that `splitlines`
  breaks on. A browser text input drops only `\n` and `\r`. A pasted
  `\x0b`, `\x0c`, `\x1c`-`\x1e`, `\x85`, U+2028 or U+2029 would still
  split an exported line, and that case is not modelled.
- RoundTrip.InterviewSetWellFormed and RoundTrip.InterviewExam also take the
  well-formedness of the chosen survey items as a precondition. Proving it
  for each of the seventeen literal survey texts costs about as much as the
  verifier's resource budget allows for a single proof.
- Exam.DigitRun: `\d` is taken as the ASCII digits only. Python's `re` also
  accepts other Unicode decimal digits.
- Exam.ParseQuestionLine and Exam.QuestionForm let the tail hold any
  character, whereas the pattern's `.` refuses `\n`. Only the lines of
  `StrippedLines`, which hold no line break, are ever parsed.
- Exam.ParseQuestionSetTxt: each element of `StrippedLines` is already
  free of line breaks, so `$` never meets a break inside a line.
- `app.py`, `pages/3score.py` and the rest of the repository are not part of
  this model.
