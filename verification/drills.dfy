/** The answer-checking loops of the interview's practice stages
    (pages/1pretest.py): the survey collection, the per-category drills and
    the final drill over all questions in a shuffled order. */
module Drills {
  import opened Templates

  predicate AllAnswered(answers: seq<Answer>) {
    forall j :: 0 <= j < |answers| ==> answers[j] != Unanswered
  }

  /** Every item answered, and answered with `expected`. */
  predicate AllAnsweredAs(answers: seq<Answer>, expected: Answer) {
    forall j :: 0 <= j < |answers| ==> answers[j] != Unanswered && answers[j] == expected
  }

  /** A drill of two items, such as the I/SR drill. */
  lemma PairDrill(a: Answer, b: Answer, expected: Answer)
    ensures AllAnswered([a, b]) <==> a != Unanswered && b != Unanswered
    ensures AllAnsweredAs([a, b], expected) <==> a != Unanswered && a == expected && b != Unanswered && b == expected
  {
    var pair := [a, b];
    assert pair[0] == a && pair[1] == b;
  }

  /** The R drill loop: whether every item was answered, and whether some
      answered item contradicts the expected polarity (the code fixes
      "아니오"; the model takes it as a parameter). */
  method TallyRDrill(answers: seq<Answer>, expected: Answer) returns (allAnswered: bool, rConflict: bool)
    ensures allAnswered <==> AllAnswered(answers)
    ensures rConflict <==> exists j :: 0 <= j < |answers| && answers[j] != Unanswered && answers[j] != expected
    ensures allAnswered && !rConflict <==> AllAnsweredAs(answers, expected)
  {
    allAnswered, rConflict := true, false;
    for m := 0 to |answers|
      invariant allAnswered <==> AllAnswered(answers[..m])
      invariant rConflict <==> exists j :: 0 <= j < m && answers[j] != Unanswered && answers[j] != expected
    {
      if answers[m] == Unanswered {
        allAnswered := false;
      } else if answers[m] != expected {
        rConflict := true;
      }
    }
    assert answers[..|answers|] == answers;
  }

  /** The C and N drill loops: whether every item was answered, and whether
      every item was answered with `expected`. */
  method TallyDrill(answers: seq<Answer>, expected: Answer) returns (allAnswered: bool, allCorrect: bool)
    ensures allAnswered <==> AllAnswered(answers)
    ensures allCorrect <==> AllAnsweredAs(answers, expected)
  {
    allAnswered, allCorrect := true, true;
    for m := 0 to |answers|
      invariant allAnswered <==> AllAnswered(answers[..m])
      invariant allCorrect <==> AllAnsweredAs(answers[..m], expected)
    {
      if answers[m] == Unanswered {
        allAnswered, allCorrect := false, false;
      } else if answers[m] != expected {
        allCorrect := false;
      }
    }
    assert answers[..|answers|] == answers;
  }

  /** The survey loop: the dict of answered items in index order, "예" as
      true and "아니오" as false, unanswered items left out. */
  method CollectSurvey(radios: seq<Answer>) returns (answers: SurveyAnswers)
    ensures DistinctKeys(answers)
    ensures forall p :: p in answers ==> p.0 < |radios|
    ensures forall x: nat :: (x, true) in answers <==> x < |radios| && radios[x] == Yes
    ensures forall x: nat :: (x, false) in answers <==> x < |radios| && radios[x] == No
    ensures forall i, j :: 0 <= i < j < |answers| ==> answers[i].0 < answers[j].0
    ensures YesIndices(answers) != [] <==> Yes in radios
  {
    answers := [];
    for idx := 0 to |radios|
      invariant forall i, j :: 0 <= i < j < |answers| ==> answers[i].0 < answers[j].0
      invariant forall p :: p in answers ==> p.0 < idx
      invariant forall x: nat :: (x, true) in answers <==> x < idx && radios[x] == Yes
      invariant forall x: nat :: (x, false) in answers <==> x < idx && radios[x] == No
    {
      if radios[idx] == Yes {
        answers := answers + [(idx, true)];
      } else if radios[idx] == No {
        answers := answers + [(idx, false)];
      }
    }
    if Yes in radios {
      var x :| 0 <= x < |radios| && radios[x] == Yes;
      assert (x, true) in answers;
      assert x in YesIndices(answers);
    }
    if YesIndices(answers) != [] {
      var x := YesIndices(answers)[0];
      assert (x, true) in answers;
      assert radios[x] == Yes;
    }
  }

  /** One question of the final drill and the answer it must get. */
  datatype DrillItem = DrillItem(kind: Category, question: string, expected: Answer)

  function Block(kind: Category, questions: seq<string>): (items: seq<DrillItem>)
    ensures |items| == |questions|
    ensures forall j :: 0 <= j < |items| ==> items[j] == DrillItem(kind, questions[j], ExpectedAnswer(kind))
  {
    seq(|questions|, j requires 0 <= j < |questions| => DrillItem(kind, questions[j], ExpectedAnswer(kind)))
  }

  /** The final drill's questions: I, SR, then the N, C and R lists. */
  function FinalItems(qs: QuestionSet): seq<DrillItem> {
    [DrillItem(I, qs.i, Yes), DrillItem(SR, qs.sr, Yes)]
      + Block(N, qs.n) + Block(C, qs.c) + Block(R, qs.r)
  }

  /** The final drill has 2 + |N| + |C| + |R| items; I, SR and N expect
      "예", C and R expect "아니오"; the R items are the last |R| ones. */
  lemma FinalItemsShape(qs: QuestionSet)
    ensures |FinalItems(qs)| == 2 + |qs.n| + |qs.c| + |qs.r|
    ensures forall j :: 0 <= j < |FinalItems(qs)| ==>
      FinalItems(qs)[j].expected == ExpectedAnswer(FinalItems(qs)[j].kind)
    ensures forall j :: 0 <= j < |FinalItems(qs)| ==>
      (FinalItems(qs)[j].kind == R <==> j >= 2 + |qs.n| + |qs.c|)
  {
    var items := FinalItems(qs);
    var front := [DrillItem(I, qs.i, Yes), DrillItem(SR, qs.sr, Yes)] + Block(N, qs.n) + Block(C, qs.c);
    assert items == front + Block(R, qs.r);
    forall j | 0 <= j < |items|
      ensures items[j].expected == ExpectedAnswer(items[j].kind)
      ensures items[j].kind == R <==> j >= 2 + |qs.n| + |qs.c|
    {
      if j >= |front| {
        assert items[j] == Block(R, qs.r)[j - |front|];
      } else {
        assert items[j] == front[j];
      }
    }
  }

  /** Building `question_items` by appending I, SR and one item per N, C
      and R question. */
  method BuildFinalItems(qs: QuestionSet) returns (items: seq<DrillItem>)
    ensures items == FinalItems(qs)
  {
    items := [DrillItem(I, qs.i, Yes), DrillItem(SR, qs.sr, Yes)];
    ghost var head := items;
    for j := 0 to |qs.n|
      invariant items == head + Block(N, qs.n[..j])
    {
      items := items + [DrillItem(N, qs.n[j], Yes)];
    }
    assert qs.n[..|qs.n|] == qs.n;
    head := items;
    for j := 0 to |qs.c|
      invariant items == head + Block(C, qs.c[..j])
    {
      items := items + [DrillItem(C, qs.c[j], No)];
    }
    assert qs.c[..|qs.c|] == qs.c;
    head := items;
    for j := 0 to |qs.r|
      invariant items == head + Block(R, qs.r[..j])
    {
      items := items + [DrillItem(R, qs.r[j], No)];
    }
    assert qs.r[..|qs.r|] == qs.r;
  }

  function Range(n: nat): (s: seq<nat>)
    ensures |s| == n && forall i :: 0 <= i < n ==> s[i] == i
  {
    seq(n, i requires 0 <= i < n => i)
  }

  /** An order of the indices 0..n-1 in which each appears once. */
  predicate IsPermutation(order: seq<nat>, n: nat) {
    multiset(order) == multiset(Range(n))
  }

  lemma PermutationCovers(order: seq<nat>, n: nat)
    requires IsPermutation(order, n)
    ensures |order| == n
    ensures forall m :: 0 <= m < |order| ==> order[m] < n
    ensures forall i :: 0 <= i < n ==> i in order
  {
    assert |multiset(order)| == |multiset(Range(n))|;
    forall m | 0 <= m < |order| ensures order[m] < n {
      assert order[m] in multiset(Range(n));
    }
    forall i | 0 <= i < n ensures i in order {
      assert Range(n)[i] == i;
      assert i in multiset(Range(n));
    }
  }

  /** `order = list(range(n)); random.shuffle(order)`: any order of 0..n-1. */
  method Shuffle(n: nat) returns (order: seq<nat>)
    ensures IsPermutation(order, n)
  {
    order := Range(n);
    assert IsPermutation(order, n);
    order :| IsPermutation(order, n);
  }

  /** Every item of the final drill answered with the answer it expects. */
  predicate FinalCorrect(items: seq<DrillItem>, answers: seq<Answer>)
    requires |answers| == |items|
  {
    forall j :: 0 <= j < |items| ==> answers[j] != Unanswered && answers[j] == items[j].expected
  }

  /** Some R item of the final drill answered against its polarity. */
  predicate RMismatch(items: seq<DrillItem>, answers: seq<Answer>)
    requires |answers| == |items|
  {
    exists j :: 0 <= j < |items| && items[j].kind == R && answers[j] != Unanswered && answers[j] != items[j].expected
  }

  /** The final drill loop, visiting the items in the shuffled order. The
      verdicts do not depend on the order: every item is visited once. */
  method TallyFinal(items: seq<DrillItem>, order: seq<nat>, answers: seq<Answer>)
    returns (allAnswered: bool, allCorrect: bool, rConflict: bool)
    requires |answers| == |items|
    requires IsPermutation(order, |items|)
    ensures allAnswered <==> AllAnswered(answers)
    ensures allCorrect <==> FinalCorrect(items, answers)
    ensures rConflict <==> RMismatch(items, answers)
  {
    PermutationCovers(order, |items|);
    allAnswered, allCorrect, rConflict := true, true, false;
    for m := 0 to |order|
      invariant allAnswered <==> forall p :: 0 <= p < m ==> answers[order[p]] != Unanswered
      invariant allCorrect <==> forall p :: 0 <= p < m ==>
        answers[order[p]] != Unanswered && answers[order[p]] == items[order[p]].expected
      invariant rConflict <==> exists p :: (0 <= p < m && items[order[p]].kind == R &&
        answers[order[p]] != Unanswered && answers[order[p]] != items[order[p]].expected)
    {
      var idx := order[m];
      var item := items[idx];
      var ans := answers[idx];
      if ans == Unanswered {
        allAnswered, allCorrect := false, false;
      } else if ans != item.expected {
        allCorrect := false;
        if item.kind == R {
          rConflict := true;
        }
      }
    }
    if allAnswered {
      forall j | 0 <= j < |answers| ensures answers[j] != Unanswered {
        assert j in order;
        var p :| 0 <= p < |order| && order[p] == j;
      }
    }
    if allCorrect {
      forall j | 0 <= j < |items| ensures answers[j] != Unanswered && answers[j] == items[j].expected {
        assert j in order;
        var p :| 0 <= p < |order| && order[p] == j;
      }
    }
    if j :| 0 <= j < |items| && items[j].kind == R && answers[j] != Unanswered && answers[j] != items[j].expected {
      assert j in order;
      var p :| 0 <= p < |order| && order[p] == j;
      assert items[order[p]].kind == R;
    }
  }
}
