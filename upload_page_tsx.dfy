/** The typed upload page (src/pages/UploadPage.tsx): the same file name check
    as the untyped page, a weaker test of the parsed quiz, and its own sample. */
module UploadPageTsx {
  import opened Common
  import opened QuizModel
  import opened Json
  import UploadPageJsx

  /** Only a truthy title and an array of questions are asked for; the questions
      themselves are not looked at (src/pages/UploadPage.tsx:55-57). */
  predicate ValidTsx(v: Value) {
    HasTruthy(v, "title") && HasArray(v, "questions")
  }

  datatype Outcome = WrongExtension | NotJson | Invalid | Started(quiz: Value)

  /** A chosen file (src/pages/UploadPage.tsx:42-68): refused by name before it
      is read, then by the parse, then by the test; otherwise the parsed object
      itself starts the quiz. */
  function HandleFile(name: string, parsed: Option<Value>): (o: Outcome)
    ensures o == WrongExtension <==> !UploadPageJsx.EndsWith(name, ".json")
    ensures o == NotJson <==> UploadPageJsx.EndsWith(name, ".json") && parsed == None
    ensures o.Started? <==> UploadPageJsx.EndsWith(name, ".json") && parsed.Some? && ValidTsx(parsed.value)
    ensures o.Started? ==> o.quiz == parsed.value
  {
    if !UploadPageJsx.EndsWith(name, ".json") then WrongExtension
    else if parsed == None then NotJson
    else if !ValidTsx(parsed.value) then Invalid
    else Started(parsed.value)
  }

  /** Whatever the untyped page accepts this page accepts too. */
  lemma JsxStricterThanTsx(v: Value)
    ensures UploadPageJsx.ValidJsx(v) ==> ValidTsx(v)
  {
  }

  /** The converse fails: a question list holding a null passes here only. */
  lemma TsxAcceptsWhatJsxRejects()
    ensures var v := Object(map["title" := Str("t"), "questions" := Array([Null])]);
            ValidTsx(v) && !UploadPageJsx.ValidJsx(v)
  {
    var v := Object(map["title" := Str("t"), "questions" := Array([Null])]);
    assert Member(v, "questions").value.items[0] == Null;
    assert !UploadPageJsx.QuestionOk(Null);
  }

  const SampleQuestion1 := Question("What is the capital of France?",
    ["London", "Paris", "Berlin", "Madrid"], 1,
    Some("Paris is the capital city of France."))
  const SampleQuestion2 := Question("Which planet is known as the Red Planet?",
    ["Venus", "Mars", "Jupiter", "Saturn"], 1,
    Some("Mars appears red due to iron oxide on its surface."))

  /** The sample started by the sample button (src/pages/UploadPage.tsx:70-93):
      two questions, each with its correct answer among four options, no time limit. */
  function TrySample(): (quiz: Quiz)
    ensures |quiz.questions| == 2 && WellFormed(quiz) && OptionsPerQuestion(quiz, 4)
    ensures !IsTimed(quiz)
    ensures ValidTsx(QuizValue(quiz))
  {
    Quiz("Sample Knowledge Quiz", Some("Test your general knowledge"), None, [SampleQuestion1, SampleQuestion2])
  }
}
