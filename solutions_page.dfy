/** The solutions review page (src/pages/SolutionsPage.jsx): a cursor over the
    questions of the last completed attempt, the marking of options against the
    correct answer, the status in the header and the row of navigation dots.
    The page only reads the store. */
module SolutionsPage {
  import opened Common
  import opened QuizModel
  import opened OptionView
  import Scoring
  import opened QuizStore

  /** The header status of a question under review. */
  datatype Status = StatusCorrect | StatusIncorrect | Skipped

  /** The colour class of one navigation dot. */
  datatype Dot = DotCurrent | DotCorrect | DotIncorrect | DotSkipped

  /** An option of a reviewed question: the correct option is always marked
      correct, whatever was chosen; only a wrong chosen option is marked
      incorrect (src/pages/SolutionsPage.jsx:54-62). */
  function GetOptionStatus(userAnswer: Answer, option: int, correctAnswer: int): (v: Variant)
    ensures v == CorrectOption <==> option == correctAnswer
    ensures v == IncorrectOption <==> userAnswer == Some(option) && option != correctAnswer
    ensures v != Selected
    ensures v == OptionVariant(true, userAnswer, option, correctAnswer)
  {
    if option == correctAnswer then CorrectOption
    else if userAnswer == Some(option) && option != correctAnswer then IncorrectOption
    else Default
  }

  /** At most one option is marked incorrect, and none when the question was skipped. */
  lemma AtMostOneIncorrect(userAnswer: Answer, i: int, j: int, correctAnswer: int)
    ensures (GetOptionStatus(userAnswer, i, correctAnswer) == IncorrectOption
            && GetOptionStatus(userAnswer, j, correctAnswer) == IncorrectOption) ==> i == j
    ensures userAnswer == None ==> GetOptionStatus(userAnswer, i, correctAnswer) != IncorrectOption
  {
  }

  /** The header: correct on a strict match, incorrect for any other non-null
      answer, skipped for a null one (src/pages/SolutionsPage.jsx:89-111). It
      agrees with the classification the score was computed with. */
  function HeaderStatus(userAnswer: Answer, correctAnswer: int): (s: Status)
    ensures s == StatusCorrect <==> Scoring.Classify(userAnswer, correctAnswer) == Scoring.Correct
    ensures s == StatusIncorrect <==> Scoring.Classify(userAnswer, correctAnswer) == Scoring.Incorrect
    ensures s == Skipped <==> Scoring.Classify(userAnswer, correctAnswer) == Scoring.Unattempted
  {
    if userAnswer == Some(correctAnswer) then StatusCorrect
    else if userAnswer != None then StatusIncorrect
    else Skipped
  }

  /** A dot: the current question first, then correct, incorrect and skipped, the
      last three as the header would say (src/pages/SolutionsPage.jsx:254-262). */
  function DotColor(index: nat, currentIndex: nat, userAnswer: Answer, correctAnswer: int): (d: Dot)
    ensures d == DotCurrent <==> index == currentIndex
    ensures index != currentIndex ==>
              (d == DotCorrect <==> HeaderStatus(userAnswer, correctAnswer) == StatusCorrect)
              && (d == DotIncorrect <==> HeaderStatus(userAnswer, correctAnswer) == StatusIncorrect)
              && (d == DotSkipped <==> HeaderStatus(userAnswer, correctAnswer) == Skipped)
  {
    if index == currentIndex then DotCurrent
    else if userAnswer == Some(correctAnswer) then DotCorrect
    else if userAnswer != None then DotIncorrect
    else DotSkipped
  }

  /** The page over a store. Its only state is the cursor. */
  class Review {
    const store: Store
    var currentIndex: nat

    /** The page draws when the store holds a quiz, an answer per question and a
        result, and the cursor is on a question (src/pages/SolutionsPage.jsx:33-37). */
    predicate Showing()
      reads this, store
    {
      && store.currentQuiz.Some?
      && store.results.Some?
      && |store.userAnswers| == |store.currentQuiz.value.questions|
      && currentIndex < |store.currentQuiz.value.questions|
    }

    function QuestionCount(): nat
      reads this, store
      requires store.currentQuiz.Some?
    {
      |store.currentQuiz.value.questions|
    }

    constructor (store: Store)
      ensures this.store == store && currentIndex == 0
    {
      this.store := store;
      currentIndex := 0;
    }

    /** Forward, but not past the last question (src/pages/SolutionsPage.jsx:42-46). */
    method NextQuestion()
      requires Showing()
      modifies this
      ensures Showing()
      ensures currentIndex == if old(currentIndex) < QuestionCount() - 1 then old(currentIndex) + 1 else old(currentIndex)
      ensures store.State() == old(store.State())
    {
      if currentIndex < |store.currentQuiz.value.questions| - 1 {
        currentIndex := currentIndex + 1;
      }
    }

    /** Back, but not below the first question (src/pages/SolutionsPage.jsx:48-52). */
    method PreviousQuestion()
      requires Showing()
      modifies this
      ensures Showing()
      ensures currentIndex == if old(currentIndex) > 0 then old(currentIndex) - 1 else 0
      ensures store.State() == old(store.State())
    {
      if currentIndex > 0 {
        currentIndex := currentIndex - 1;
      }
    }

    /** A click on the dot of question `index` (src/pages/SolutionsPage.jsx:253). */
    method Jump(index: nat)
      requires Showing() && index < QuestionCount()
      modifies this
      ensures Showing() && currentIndex == index
      ensures store.State() == old(store.State())
    {
      currentIndex := index;
    }

    /** The header of the question under the cursor. */
    function CurrentStatus(): (s: Status)
      reads this, store
      requires Showing()
      ensures s == HeaderStatus(store.userAnswers[currentIndex], store.currentQuiz.value.questions[currentIndex].correctAnswer)
    {
      var q := store.currentQuiz.value.questions[currentIndex];
      HeaderStatus(store.userAnswers[currentIndex], q.correctAnswer)
    }
  }

  /** After a completion the number of dots that would be green when the cursor
      sits elsewhere is the result's correct count: dots and score agree. */
  lemma {:induction false} DotsAgreeWithScore(questions: seq<Question>, answers: seq<Answer>, current: nat, k: nat)
    requires k <= |questions| <= |answers| && current >= k
    ensures |set i | 0 <= i < k && DotColor(i, current, answers[i], questions[i].correctAnswer) == DotCorrect|
            == Scoring.CountUpTo(questions, answers, Scoring.Correct, k)
  {
    if k > 0 {
      DotsAgreeWithScore(questions, answers, current, k - 1);
      var prev := set i | 0 <= i < k - 1 && DotColor(i, current, answers[i], questions[i].correctAnswer) == DotCorrect;
      var all := set i | 0 <= i < k && DotColor(i, current, answers[i], questions[i].correctAnswer) == DotCorrect;
      if DotColor(k - 1, current, answers[k - 1], questions[k - 1].correctAnswer) == DotCorrect {
        assert all == prev + {k - 1};
      } else {
        assert all == prev;
      }
    }
  }
}
