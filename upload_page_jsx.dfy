/** The upload page of the React version (src/pages/UploadPage.jsx): the file
    name check, the validation of the parsed quiz, and what happens to an
    accepted quiz. Reading the file and `JSON.parse` are outside the model: the
    page is handed the parse result, `None` for text that is not JSON, and
    `JSON.stringify` is the `stringify` argument. */
module UploadPageJsx {
  import opened Common
  import opened QuizModel
  import opened Json
  import ShareToken
  import QuizStore

  /** `name.endsWith(suffix)`, case-sensitive. */
  predicate EndsWith(name: string, suffix: string) {
    |name| >= |suffix| && name[|name| - |suffix|..] == suffix
  }

  /** The quiz-level test: a truthy title and an array of questions
      (src/pages/UploadPage.jsx:65-67). */
  predicate QuizShapeOk(v: Value) {
    HasTruthy(v, "title") && HasArray(v, "questions")
  }

  /** The per-question test: truthy question text, an array of options and a
      numeric correct answer (src/pages/UploadPage.jsx:70-75). */
  predicate QuestionOk(q: Value) {
    HasTruthy(q, "question") && HasArray(q, "options") && HasNumber(q, "correctAnswer")
  }

  /** Every question of an array passes the per-question test. */
  predicate AllQuestionsOk(items: seq<Value>) {
    forall i :: 0 <= i < |items| ==> QuestionOk(items[i])
  }

  /** What the page accepts. */
  predicate ValidJsx(v: Value) {
    QuizShapeOk(v) && AllQuestionsOk(Member(v, "questions").value.items)
  }

  /** The loop over the questions, stopping at the first that fails. */
  method ValidateQuestions(items: seq<Value>) returns (ok: bool)
    ensures ok <==> AllQuestionsOk(items)
  {
    var i := 0;
    while i < |items|
      invariant 0 <= i <= |items|
      invariant forall j :: 0 <= j < i ==> QuestionOk(items[j])
    {
      if !QuestionOk(items[i]) {
        return false;
      }
      i := i + 1;
    }
    return true;
  }

  /** The correct answer is not checked against the options, and a quiz without
      questions passes. */
  lemma ValidJsxIsLoose()
    ensures ValidJsx(Object(map["title" := Str("t"), "questions" := Array([])]))
    ensures ValidJsx(Object(map["title" := Str("t"), "questions" :=
              Array([Object(map["question" := Str("q"), "options" := Array([]), "correctAnswer" := Number(7)])])]))
  {
    var q := Object(map["question" := Str("q"), "options" := Array([]), "correctAnswer" := Number(7)]);
    assert QuestionOk(q);
    var v := Object(map["title" := Str("t"), "questions" := Array([q])]);
    assert Member(v, "questions").value.items == [q];
  }

  /** A quiz of the model with a title and question texts passes. */
  lemma QuizValueValid(quiz: Quiz)
    requires quiz.title != ""
    requires forall i :: 0 <= i < |quiz.questions| ==> quiz.questions[i].text != ""
    ensures ValidJsx(QuizValue(quiz))
  {
    var items := Member(QuizValue(quiz), "questions").value.items;
    forall i | 0 <= i < |items|
      ensures QuestionOk(items[i])
    {
      assert items[i] == QuestionValue(quiz.questions[i]);
    }
  }

  datatype Outcome = WrongExtension | NotJson | Invalid | Accepted(quiz: Value)

  /** The page's state: the quiz in the preview, the quiz handed to the store,
      the share token and the preview flag. */
  class UploadPage {
    var uploadedQuiz: Option<Value>
    var storeQuiz: Option<Value>
    var shareToken: Option<string>
    var showPreview: bool

    constructor ()
      ensures uploadedQuiz == None && storeQuiz == None && shareToken == None && !showPreview
    {
      uploadedQuiz := None;
      storeQuiz := None;
      shareToken := None;
      showPreview := false;
    }

    /** The share token of a quiz (src/pages/UploadPage.jsx:91-99). */
    method GenerateShareLink(quiz: Value, stringify: Value -> seq<ShareToken.Byte>)
      modifies this
      ensures shareToken == Some(ShareToken.EncodeToken(stringify(quiz)))
      ensures uploadedQuiz == old(uploadedQuiz) && storeQuiz == old(storeQuiz) && showPreview == old(showPreview)
    {
      var encodedQuiz := ShareToken.EncodeToken(stringify(quiz));
      shareToken := Some(encodedQuiz);
    }

    /** A chosen file (src/pages/UploadPage.jsx:52-89): a name without the `.json`
        suffix is refused before reading; a parse failure or a failed test changes
        nothing; otherwise the same object goes to the preview, to the store and
        into the share token. */
    method HandleFile(name: string, parsed: Option<Value>, stringify: Value -> seq<ShareToken.Byte>) returns (o: Outcome)
      modifies this
      ensures !EndsWith(name, ".json") ==> o == WrongExtension
      ensures EndsWith(name, ".json") && parsed == None ==> o == NotJson
      ensures EndsWith(name, ".json") && parsed.Some? ==>
                o == if ValidJsx(parsed.value) then Accepted(parsed.value) else Invalid
      ensures o.Accepted? ==>
                && uploadedQuiz == Some(o.quiz) && storeQuiz == Some(o.quiz)
                && shareToken == Some(ShareToken.EncodeToken(stringify(o.quiz))) && showPreview
      ensures !o.Accepted? ==>
                uploadedQuiz == old(uploadedQuiz) && storeQuiz == old(storeQuiz)
                && shareToken == old(shareToken) && showPreview == old(showPreview)
    {
      if !EndsWith(name, ".json") {
        return WrongExtension;
      }
      if parsed == None {
        return NotJson;
      }
      var quizData := parsed.value;
      if !QuizShapeOk(quizData) {
        return Invalid;
      }
      var ok := ValidateQuestions(Member(quizData, "questions").value.items);
      if !ok {
        return Invalid;
      }
      uploadedQuiz := Some(quizData);
      storeQuiz := Some(quizData);
      GenerateShareLink(quizData, stringify);
      showPreview := true;
      return Accepted(quizData);
    }

    /** The sample button (src/pages/UploadPage.jsx:101-107): the store's sample
        quiz goes to the preview, the store and the share token, without the
        validation, which it would pass anyway. */
    method HandleTrySample(stringify: Value -> seq<ShareToken.Byte>)
      modifies this
      ensures uploadedQuiz == Some(QuizValue(QuizStore.SampleQuiz())) && storeQuiz == uploadedQuiz
      ensures shareToken == Some(ShareToken.EncodeToken(stringify(QuizValue(QuizStore.SampleQuiz())))) && showPreview
      ensures ValidJsx(uploadedQuiz.value)
    {
      var sampleQuiz := QuizValue(QuizStore.SampleQuiz());
      SampleTextsNonEmpty();
      QuizValueValid(QuizStore.SampleQuiz());
      uploadedQuiz := Some(sampleQuiz);
      storeQuiz := Some(sampleQuiz);
      GenerateShareLink(sampleQuiz, stringify);
      showPreview := true;
    }
  }

  lemma SampleTextsNonEmpty()
    ensures QuizStore.SampleQuiz().title != ""
    ensures forall i :: 0 <= i < |QuizStore.SampleQuiz().questions| ==> QuizStore.SampleQuiz().questions[i].text != ""
  {
    var qs := QuizStore.SampleQuiz().questions;
    assert qs == [QuizStore.SampleQuestion1, QuizStore.SampleQuestion2, QuizStore.SampleQuestion3, QuizStore.SampleQuestion4,
                  QuizStore.SampleQuestion5, QuizStore.SampleQuestion6, QuizStore.SampleQuestion7, QuizStore.SampleQuestion8];
  }
}
