/** The classification of each question of an attempt as correct, incorrect or
    unattempted, which the store, the vanilla script and the typed quiz page all
    perform with the same `===` / `!== null` test, and the counters built on it. */
module Scoring {
  import opened Common
  import opened QuizModel

  datatype Outcome = Correct | Incorrect | Unattempted

  /** A question is correct when its answer strictly equals the correct option,
      incorrect when some other option was chosen, and unattempted when the
      answer is still null. */
  function Classify(answer: Answer, correctAnswer: int): (o: Outcome)
    ensures o == Correct <==> answer == Some(correctAnswer)
    ensures o == Incorrect <==> answer.Some? && answer.value != correctAnswer
    ensures o == Unattempted <==> answer == None
  {
    match answer
    case Some(chosen) => if chosen == correctAnswer then Correct else Incorrect
    case None => Unattempted
  }

  /** The number of questions among the first `k` whose answer classifies as `o`. */
  function CountUpTo(questions: seq<Question>, answers: seq<Answer>, o: Outcome, k: nat): (c: nat)
    requires k <= |questions| && k <= |answers|
    ensures c <= k
  {
    if k == 0 then 0
    else CountUpTo(questions, answers, o, k - 1)
         + (if Classify(answers[k - 1], questions[k - 1].correctAnswer) == o then 1 else 0)
  }

  datatype Tally = Tally(correct: nat, incorrect: nat, unattempted: nat)

  /** The three counters of a whole attempt. */
  function TallyOf(questions: seq<Question>, answers: seq<Answer>): Tally
    requires |questions| <= |answers|
  {
    var n := |questions|;
    Tally(CountUpTo(questions, answers, Correct, n),
          CountUpTo(questions, answers, Incorrect, n),
          CountUpTo(questions, answers, Unattempted, n))
  }

  /** Every question falls into exactly one of the three classes. */
  lemma {:induction false} CountsPartition(questions: seq<Question>, answers: seq<Answer>, k: nat)
    requires k <= |questions| && k <= |answers|
    ensures CountUpTo(questions, answers, Correct, k)
            + CountUpTo(questions, answers, Incorrect, k)
            + CountUpTo(questions, answers, Unattempted, k) == k
  {
    if k > 0 {
      CountsPartition(questions, answers, k - 1);
    }
  }

  lemma TallyPartition(questions: seq<Question>, answers: seq<Answer>)
    requires |questions| <= |answers|
    ensures var t := TallyOf(questions, answers);
            t.correct + t.incorrect + t.unattempted == |questions|
  {
    CountsPartition(questions, answers, |questions|);
  }

  /** The running count only grows as the cursor moves right. */
  lemma {:induction false} CountMonotone(questions: seq<Question>, answers: seq<Answer>, o: Outcome, j: nat, k: nat)
    requires j <= k <= |questions| && k <= |answers|
    ensures CountUpTo(questions, answers, o, j) <= CountUpTo(questions, answers, o, k)
  {
    if j < k {
      CountMonotone(questions, answers, o, j, k - 1);
    }
  }

  /** Only the first `k` answers matter to the count over the first `k` questions. */
  lemma {:induction false} CountPrefix(questions: seq<Question>, a: seq<Answer>, b: seq<Answer>, o: Outcome, k: nat)
    requires k <= |questions| && k <= |a| && k <= |b|
    requires a[..k] == b[..k]
    ensures CountUpTo(questions, a, o, k) == CountUpTo(questions, b, o, k)
  {
    if k > 0 {
      assert a[k - 1] == a[..k][k - 1] == b[..k][k - 1] == b[k - 1];
      assert a[..k - 1] == a[..k][..k - 1];
      assert b[..k - 1] == b[..k][..k - 1];
      CountPrefix(questions, a, b, o, k - 1);
    }
  }

  /** A fresh attempt with every answer `null` scores nothing and attempts nothing. */
  lemma {:induction false} UnansweredTally(questions: seq<Question>, k: nat)
    requires k <= |questions|
    ensures CountUpTo(questions, Filled(|questions|, None), Unattempted, k) == k
    ensures CountUpTo(questions, Filled(|questions|, None), Correct, k) == 0
    ensures CountUpTo(questions, Filled(|questions|, None), Incorrect, k) == 0
  {
    if k > 0 {
      UnansweredTally(questions, k - 1);
    }
  }

  /** One pass over the questions that bumps exactly one of three counters per
      question (src/store/quizStore.js:89-101, script.js:384-396,
      src/pages/QuizPage.tsx:78-90). */
  method CountOutcomes(questions: seq<Question>, answers: seq<Answer>) returns (t: Tally)
    requires |questions| <= |answers|
    ensures t == TallyOf(questions, answers)
  {
    var correct, incorrect, unattempted := 0, 0, 0;
    var index := 0;
    while index < |questions|
      invariant 0 <= index <= |questions|
      invariant correct == CountUpTo(questions, answers, Correct, index)
      invariant incorrect == CountUpTo(questions, answers, Incorrect, index)
      invariant unattempted == CountUpTo(questions, answers, Unattempted, index)
    {
      if answers[index] == Some(questions[index].correctAnswer) {
        correct := correct + 1;
      } else if answers[index] != None {
        incorrect := incorrect + 1;
      } else {
        unattempted := unattempted + 1;
      }
      index := index + 1;
    }
    t := Tally(correct, incorrect, unattempted);
  }

  /** The review page's running score: the correct answers at indices 0 up to and
      including the cursor (script.js:446-451). */
  method RunningScore(questions: seq<Question>, answers: seq<Answer>, cursor: nat) returns (count: nat)
    requires cursor < |questions| && cursor < |answers|
    ensures count == CountUpTo(questions, answers, Correct, cursor + 1)
    ensures count <= cursor + 1
  {
    count := 0;
    var i := 0;
    while i <= cursor
      invariant 0 <= i <= cursor + 1
      invariant count == CountUpTo(questions, answers, Correct, i)
    {
      if answers[i] == Some(questions[i].correctAnswer) {
        count := count + 1;
      }
      i := i + 1;
    }
  }

  /** Correct answers as a rounded percentage of the attempted ones, and 0 when
      nothing was attempted (src/store/quizStore.js:105). */
  function Accuracy(correct: nat, incorrect: nat): (a: int)
    ensures correct + incorrect == 0 ==> a == 0
    ensures 0 <= a <= 100
    ensures correct + incorrect > 0 ==> a == RoundHalfUp(100 * correct, correct + incorrect)
  {
    if correct + incorrect > 0 then
      PercentInRange(correct, correct + incorrect);
      RoundHalfUp(100 * correct, correct + incorrect)
    else 0
  }
}
