/** The quiz definition as the engine sees it once a file, a sample or a share
    link has been parsed, and the answer a user gives to one question. */
module QuizModel {
  import opened Common

  /** `null` for a question not answered yet, otherwise the chosen option's index. */
  type Answer = Option<int>

  datatype Question = Question(
    text: string,
    options: seq<string>,
    correctAnswer: int,
    explanation: Option<string>)

  /** `timeLimit` is the optional minutes field; `None` is an absent field. */
  datatype Quiz = Quiz(
    title: string,
    description: Option<string>,
    timeLimit: Option<int>,
    questions: seq<Question>)

  /** The time limit is truthy: present and not zero. */
  predicate IsTimed(quiz: Quiz) {
    quiz.timeLimit.Some? && quiz.timeLimit.value != 0
  }

  /** The countdown length in seconds: sixty per minute of a truthy time limit,
      and 0 for an untimed quiz (src/store/quizStore.js:34). */
  function TimeLimitSeconds(quiz: Quiz): (s: int)
    ensures IsTimed(quiz) ==> s == quiz.timeLimit.value * 60
    ensures !IsTimed(quiz) ==> s == 0
    ensures s == 0 <==> !IsTimed(quiz)
  {
    if IsTimed(quiz) then quiz.timeLimit.value * 60 else 0
  }

  /** A question whose correct answer names one of its options. */
  predicate QuestionWellFormed(q: Question) {
    0 <= q.correctAnswer < |q.options|
  }

  /** Every question's correct answer names one of its options. */
  predicate WellFormed(quiz: Quiz) {
    forall i :: 0 <= i < |quiz.questions| ==> QuestionWellFormed(quiz.questions[i])
  }

  /** Every question offers exactly `k` options. */
  predicate OptionsPerQuestion(quiz: Quiz, k: nat) {
    forall i :: 0 <= i < |quiz.questions| ==> |quiz.questions[i].options| == k
  }
}
