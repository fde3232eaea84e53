/** How an answer option is drawn while a question is on screen. The typed and
    the untyped quiz pages use the same rules (src/pages/QuizPage.tsx:105-119,
    src/pages/QuizPage.jsx:84-98). */
module OptionView {
  import opened Common
  import opened QuizModel

  datatype Variant = Default | Selected | CorrectOption | IncorrectOption

  /** Before feedback only the selected option stands out; once feedback shows,
      the correct option is marked correct, a wrong selection incorrect, and
      everything else is drawn plainly. The comparison with the selection is
      strict, so a null selection matches no option. */
  function OptionVariant(showFeedback: bool, selected: Answer, option: int, correctAnswer: int): (v: Variant)
    ensures !showFeedback ==> (v == Selected <==> selected == Some(option))
    ensures !showFeedback ==> v == Selected || v == Default
    ensures showFeedback ==> (v == CorrectOption <==> option == correctAnswer)
    ensures showFeedback ==> (v == IncorrectOption <==> selected == Some(option) && option != correctAnswer)
    ensures showFeedback ==> v != Selected
  {
    if !showFeedback then
      if selected == Some(option) then Selected else Default
    else if option == correctAnswer then CorrectOption
    else if selected == Some(option) && option != correctAnswer then IncorrectOption
    else Default
  }

  /** Two options drawn as selected, or two drawn as incorrect, are the same option. */
  lemma SelectionMarksOneOption(showFeedback: bool, selected: Answer, i: int, j: int, correctAnswer: int)
    ensures (OptionVariant(showFeedback, selected, i, correctAnswer) == Selected
            && OptionVariant(showFeedback, selected, j, correctAnswer) == Selected) ==> i == j
    ensures (OptionVariant(showFeedback, selected, i, correctAnswer) == IncorrectOption
            && OptionVariant(showFeedback, selected, j, correctAnswer) == IncorrectOption) ==> i == j
  {
  }

  /** With feedback on, a correct selection leaves no option marked incorrect, and
      a wrong one marks exactly the selected option. */
  lemma FeedbackMarksChoice(selected: Answer, option: int, correctAnswer: int)
    ensures selected == Some(correctAnswer) ==> OptionVariant(true, selected, option, correctAnswer) != IncorrectOption
    ensures selected.Some? && selected.value != correctAnswer ==>
              OptionVariant(true, selected, selected.value, correctAnswer) == IncorrectOption
  {
  }
}
