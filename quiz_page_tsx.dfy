/** The typed quiz page (src/pages/QuizPage.tsx), which keeps its own attempt in
    component state instead of the store: the index, the answers, the selected
    option, the feedback flag and the clock the attempt started at. The delayed
    advance after an answer is the pending step `FeedbackElapsed` performs; the
    results handed to the caller are kept in `completed`. */
module QuizPageTsx {
  import opened Common
  import opened QuizModel
  import opened Scoring
  import QuizStore

  /** The result object passed to the completion callback. */
  datatype TsxResults = TsxResults(
    correct: nat,
    incorrect: nat,
    unattempted: nat,
    totalQuestions: nat,
    percentage: int,
    totalTime: int,
    userAnswers: seq<Answer>)

  /** What the feedback timer captured when it was set: the answers with the new
      one, the index it was given on and whether that was the last question. */
  datatype Pending = Pending(answers: seq<Answer>, index: nat, wasLast: bool)

  /** The result of an attempt over `answers` ending `totalTime` seconds after it
      began (src/pages/QuizPage.tsx:74-103). */
  function TsxScore(quiz: Quiz, answers: seq<Answer>, totalTime: int): TsxResults
    requires 0 < |quiz.questions| <= |answers|
  {
    var t := TallyOf(quiz.questions, answers);
    var n := |quiz.questions|;
    TsxResults(t.correct, t.incorrect, t.unattempted, n, RoundHalfUp(100 * t.correct, n), totalTime, answers)
  }

  /** The counters partition the questions, the percentage is in [0, 100] and is
      the one the store computes for the same answers, and the time is the one
      given, whatever the per-question times were. */
  lemma TsxScoreProperties(quiz: Quiz, answers: seq<Answer>, totalTime: int, times: seq<int>, now: int)
    requires 0 < |quiz.questions| <= |answers|
    ensures var r := TsxScore(quiz, answers, totalTime);
            && r.correct + r.incorrect + r.unattempted == r.totalQuestions == |quiz.questions|
            && 0 <= r.percentage <= 100
            && Finite(r.percentage) == QuizStore.Score(quiz, answers, times, now).percentage
            && r.correct == QuizStore.Score(quiz, answers, times, now).correct
            && r.totalTime == totalTime
            && r.userAnswers == answers
  {
    TallyPartition(quiz.questions, answers);
    PercentInRange(TallyOf(quiz.questions, answers).correct, |quiz.questions|);
  }

  /** Whole seconds between two clock readings, rounded half up. */
  function WallSeconds(startTime: int, endTime: int): (s: int)
    ensures 2000 * s <= 2 * (endTime - startTime) + 1000 < 2000 * s + 2000
  {
    RoundHalfUp(endTime - startTime, 1000)
  }

  class QuizAttempt {
    const quiz: Quiz
    const startTime: int
    var currentQuestionIndex: nat
    var userAnswers: seq<Answer>
    var selectedAnswer: Answer
    var showFeedback: bool
    var pending: Option<Pending>
    var completed: Option<TsxResults>

    /** The state the page keeps consistent: one answer per question, the index on
        a question, the selection showing the current answer, and the captured
        step present exactly while feedback is shown. */
    predicate Valid()
      reads this
    {
      && |userAnswers| == |quiz.questions|
      && currentQuestionIndex < |quiz.questions|
      && selectedAnswer == userAnswers[currentQuestionIndex]
      && (showFeedback <==> pending.Some?)
      && (pending.Some? ==>
            && pending.value.answers == userAnswers
            && pending.value.index == currentQuestionIndex
            && pending.value.wasLast == (currentQuestionIndex == |quiz.questions| - 1))
    }

    /** The page renders its questions only for a quiz with at least one
        (src/pages/QuizPage.tsx:36-50), and it is left once results are handed on. */
    predicate Showing()
      reads this
    {
      |quiz.questions| > 0 && Valid() && completed.None?
    }

    /** A fresh attempt: index 0, every answer null, nothing selected, the clock
        started (src/pages/QuizPage.tsx:26-30). */
    constructor (quiz: Quiz, now: int)
      ensures this.quiz == quiz && startTime == now
      ensures currentQuestionIndex == 0 && userAnswers == Filled(|quiz.questions|, None)
      ensures selectedAnswer == None && !showFeedback && pending == None && completed == None
      ensures |quiz.questions| > 0 ==> Showing()
    {
      this.quiz := quiz;
      startTime := now;
      currentQuestionIndex := 0;
      userAnswers := Filled(|quiz.questions|, None);
      selectedAnswer := None;
      showFeedback := false;
      pending := None;
      completed := None;
    }

    /** Hands the result of `answers` at clock `now` to the caller. */
    method CompleteQuiz(answers: seq<Answer>, now: int)
      requires |quiz.questions| > 0 && |answers| >= |quiz.questions|
      modifies this
      ensures completed == Some(TsxScore(quiz, answers, WallSeconds(startTime, now)))
      ensures currentQuestionIndex == old(currentQuestionIndex) && userAnswers == old(userAnswers)
      ensures selectedAnswer == old(selectedAnswer) && showFeedback == old(showFeedback) && pending == old(pending)
    {
      var endTime := now;
      var totalTime := WallSeconds(startTime, endTime);
      var t := CountOutcomes(quiz.questions, answers);
      var n := |quiz.questions|;
      completed := Some(TsxResults(t.correct, t.incorrect, t.unattempted, n, RoundHalfUp(100 * t.correct, n), totalTime, answers));
    }

    /** Choosing an option writes it into a copy of the answers at the current
        index only, selects it, shows the feedback and captures the step to take
        when the delay is over (src/pages/QuizPage.tsx:56-72, 184). */
    method HandleAnswerSelect(answerIndex: int)
      requires Showing() && !showFeedback
      modifies this
      ensures Showing() && showFeedback
      ensures userAnswers == old(userAnswers)[old(currentQuestionIndex) := Some(answerIndex)]
      ensures selectedAnswer == Some(answerIndex) && currentQuestionIndex == old(currentQuestionIndex)
      ensures pending == Some(Pending(userAnswers, currentQuestionIndex, currentQuestionIndex == |quiz.questions| - 1))
    {
      var newAnswers := userAnswers;
      newAnswers := newAnswers[currentQuestionIndex := Some(answerIndex)];
      userAnswers := newAnswers;
      selectedAnswer := Some(answerIndex);
      showFeedback := true;
      pending := Some(Pending(newAnswers, currentQuestionIndex, currentQuestionIndex == |quiz.questions| - 1));
    }

    /** The delayed step: feedback is hidden; on the last question the captured
        answers complete the attempt, elsewhere the index moves on by one and the
        selection follows it. */
    method FeedbackElapsed(now: int)
      requires Showing() && showFeedback
      modifies this
      ensures !showFeedback && pending == None && userAnswers == old(userAnswers)
      ensures old(pending.value.wasLast) ==>
                completed == Some(TsxScore(quiz, old(pending.value.answers), WallSeconds(startTime, now)))
                && currentQuestionIndex == old(currentQuestionIndex)
      ensures !old(pending.value.wasLast) ==>
                Showing() && currentQuestionIndex == old(currentQuestionIndex) + 1
    {
      var p := pending.value;
      showFeedback := false;
      pending := None;
      if p.wasLast {
        CompleteQuiz(p.answers, now);
      } else {
        currentQuestionIndex := p.index + 1;
        selectedAnswer := userAnswers[currentQuestionIndex];
      }
    }

    /** Previous: one back, never below 0 (src/pages/QuizPage.tsx:246). */
    method Previous()
      requires Showing() && !showFeedback
      modifies this
      ensures Showing()
      ensures currentQuestionIndex == if old(currentQuestionIndex) >= 1 then old(currentQuestionIndex) - 1 else 0
      ensures userAnswers == old(userAnswers) && completed == old(completed)
    {
      var target := currentQuestionIndex - 1;
      currentQuestionIndex := if 0 > target then 0 else target;
      selectedAnswer := userAnswers[currentQuestionIndex];
    }

    /** Next / Finish, enabled only with an option selected: on the last question
        it completes with the current answers, elsewhere it moves on by one
        (src/pages/QuizPage.tsx:263-276). */
    method Next(now: int)
      requires Showing() && !showFeedback && selectedAnswer != None
      modifies this
      ensures userAnswers == old(userAnswers)
      ensures old(currentQuestionIndex) == |quiz.questions| - 1 ==>
                completed == Some(TsxScore(quiz, userAnswers, WallSeconds(startTime, now)))
      ensures old(currentQuestionIndex) < |quiz.questions| - 1 ==>
                Showing() && currentQuestionIndex == old(currentQuestionIndex) + 1
    {
      if currentQuestionIndex == |quiz.questions| - 1 {
        CompleteQuiz(userAnswers, now);
      } else {
        currentQuestionIndex := currentQuestionIndex + 1;
        selectedAnswer := userAnswers[currentQuestionIndex];
      }
    }

    /** Submit: complete with the current answers wherever the index is
        (src/pages/QuizPage.tsx:257). */
    method Submit(now: int)
      requires Showing() && !showFeedback
      modifies this
      ensures userAnswers == old(userAnswers) && |userAnswers| == |quiz.questions|
      ensures completed == Some(TsxScore(quiz, userAnswers, WallSeconds(startTime, now)))
    {
      CompleteQuiz(userAnswers, now);
    }
  }

  /** An attempt answered from the first question to the last, one option each,
      scores the answers given: a caller's view of the page's methods. */
  method AnswerEveryQuestion(quiz: Quiz, choices: seq<int>, now: int) returns (r: TsxResults)
    requires |quiz.questions| > 0 && |choices| == |quiz.questions|
    ensures r.totalQuestions == |quiz.questions|
    ensures r.userAnswers == seq(|choices|, i requires 0 <= i < |choices| => Some(choices[i]))
    ensures r.correct + r.incorrect == |quiz.questions| && r.unattempted == 0
  {
    var page := new QuizAttempt(quiz, now);
    var k := 0;
    while k < |choices|
      invariant 0 <= k <= |choices|
      invariant page.quiz == quiz
      invariant k < |choices| ==> page.Showing() && !page.showFeedback && page.currentQuestionIndex == k
      invariant k == |choices| ==> page.completed.Some?
      invariant k == |choices| ==>
                  page.completed.value == TsxScore(quiz, seq(|choices|, i requires 0 <= i < |choices| => Some(choices[i])), WallSeconds(now, now))
      invariant k < |choices| ==>
                  |page.userAnswers| == |choices|
                  && (forall i :: 0 <= i < k ==> page.userAnswers[i] == Some(choices[i]))
                  && (forall i :: k <= i < |choices| ==> page.userAnswers[i] == None)
      modifies page
    {
      page.HandleAnswerSelect(choices[k]);
      page.FeedbackElapsed(now);
      if k + 1 == |choices| {
        assert page.userAnswers == seq(|choices|, i requires 0 <= i < |choices| => Some(choices[i]));
      }
      k := k + 1;
    }
    r := page.completed.value;
    var answers := seq(|choices|, i requires 0 <= i < |choices| => Some(choices[i]));
    TsxScoreProperties(quiz, answers, WallSeconds(now, now), [], now);
    NoneUnattempted(quiz.questions, answers, |quiz.questions|);
  }

  /** With every question answered nothing counts as unattempted. */
  lemma {:induction false} NoneUnattempted(questions: seq<Question>, answers: seq<Answer>, k: nat)
    requires k <= |questions| && k <= |answers|
    requires forall i :: 0 <= i < |answers| ==> answers[i].Some?
    ensures CountUpTo(questions, answers, Unattempted, k) == 0
  {
    if k > 0 {
      NoneUnattempted(questions, answers, k - 1);
    }
  }
}
