/** The values `JSON.parse` produces, with the two JavaScript behaviours the
    quiz validators rely on: reading a property, which fails on null, and
    truthiness. Numbers are whole numbers here. */
module Json {
  import opened Common
  import opened QuizModel

  datatype Value =
    | Undefined
    | Null
    | Bool(b: bool)
    | Number(n: int)
    | Str(s: string)
    | Array(items: seq<Value>)
    | Object(fields: map<string, Value>)

  /** `v.key`: a TypeError (None) on null and undefined, the field of an object
      or undefined when it has none, and undefined on every other value. */
  function Member(v: Value, key: string): (r: Option<Value>)
    ensures r == None <==> v == Null || v == Undefined
    ensures v.Object? ==> r == Some(if key in v.fields then v.fields[key] else Undefined)
    ensures !v.Object? && r.Some? ==> r.value == Undefined
  {
    match v
    case Null => None
    case Undefined => None
    case Object(fields) => Some(if key in fields then fields[key] else Undefined)
    case _ => Some(Undefined)
  }

  /** JavaScript truthiness: false, 0, the empty string, null and undefined are falsy. */
  predicate Truthy(v: Value) {
    match v
    case Undefined => false
    case Null => false
    case Bool(b) => b
    case Number(n) => n != 0
    case Str(s) => s != ""
    case Array(_) => true
    case Object(_) => true
  }

  /** A property that reads without error and is truthy. */
  predicate HasTruthy(v: Value, key: string) {
    Member(v, key).Some? && Truthy(Member(v, key).value)
  }

  /** A property that reads without error and is an array. */
  predicate HasArray(v: Value, key: string) {
    Member(v, key).Some? && Member(v, key).value.Array?
  }

  /** A property that reads without error and is a number. */
  predicate HasNumber(v: Value, key: string) {
    Member(v, key).Some? && Member(v, key).value.Number?
  }

  /** The JSON object a quiz of the model is written as. */
  function QuestionValue(q: Question): Value {
    var base := map["question" := Str(q.text),
                    "options" := Array(seq(|q.options|, i requires 0 <= i < |q.options| => Str(q.options[i]))),
                    "correctAnswer" := Number(q.correctAnswer)];
    Object(match q.explanation
           case Some(e) => base["explanation" := Str(e)]
           case None => base)
  }

  function QuizValue(quiz: Quiz): Value {
    var base := map["title" := Str(quiz.title),
                    "questions" := Array(seq(|quiz.questions|, i requires 0 <= i < |quiz.questions| => QuestionValue(quiz.questions[i])))];
    var withDescription := match quiz.description
                           case Some(d) => base["description" := Str(d)]
                           case None => base;
    Object(match quiz.timeLimit
           case Some(t) => withDescription["timeLimit" := Number(t)]
           case None => withDescription)
  }
}
