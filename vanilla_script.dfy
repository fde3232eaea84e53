/** The vanilla page script (script.js): the same quiz engine on module-level
    variables, with the answers and the per-question times in arrays filled and
    written in place. DOM writes are left out; what a handler shows is kept as
    the current page, the preview flag, the report of figures on the results
    page, the running score of the review and the share token. Clock readings
    are `now` arguments in milliseconds, and the one-second interval is a flag
    with every tick an explicit `UpdateTimer` call. */
module VanillaScript {
  import opened Common
  import opened QuizModel
  import opened Scoring
  import QuizStore
  import ShareToken

  datatype Page = Home | Upload | QuizScreen | Solution | Result

  /** The figures the results page shows. */
  datatype Report = Report(
    correct: nat,
    incorrect: nat,
    unattempted: nat,
    percentage: Num,
    accuracy: int,
    avgTime: Num)

  /** The report of an attempt: the store's figures for the same answers and
      times, without the timestamp (script.js:380-403). */
  function ScriptReport(quiz: Quiz, answers: seq<Answer>, times: seq<int>): Report
    requires |quiz.questions| <= |answers|
  {
    var r := QuizStore.Score(quiz, answers, times, 0);
    Report(r.correct, r.incorrect, r.unattempted, r.percentage, r.accuracy, r.avgTime)
  }

  /** The counters partition the questions, the percentage is in [0, 100] and
      accuracy is 0 when nothing was attempted (the `|| 0` on NaN), and the
      average time is the rounded mean of the recorded times. */
  lemma ReportProperties(quiz: Quiz, answers: seq<Answer>, times: seq<int>)
    requires 0 < |quiz.questions| <= |answers|
    ensures var r := ScriptReport(quiz, answers, times);
            var n := |quiz.questions|;
            && r.correct + r.incorrect + r.unattempted == n
            && r.percentage.Finite? && 0 <= r.percentage.value <= 100
            && 0 <= r.accuracy <= 100
            && (r.correct + r.incorrect == 0 ==> r.accuracy == 0)
            && r.avgTime.Finite?
            && 2 * n * r.avgTime.value <= 2 * Sum(times) + n < 2 * n * r.avgTime.value + 2 * n
  {
    QuizStore.ScoreProperties(quiz, answers, times, 0);
  }

  /** Whole seconds since `start`, rounded down (`Math.floor` of a quotient by
      1000). */
  function SecondsSince(start: int, now: int): (s: int)
    ensures 1000 * s <= now - start < 1000 * s + 1000
  {
    (now - start) / 1000
  }

  /** The times after a redisplay at `index`: the time since the last redisplay
      goes into slot `index - 1`, and at index 0 nothing is written
      (script.js:296-302). */
  function Charged(times: seq<int>, index: nat, start: int, now: int): (r: seq<int>)
    requires index <= |times|
    ensures |r| == |times|
    ensures index > 0 ==> r[index - 1] == SecondsSince(start, now)
    ensures forall j :: 0 <= j < |times| && j + 1 != index ==> r[j] == times[j]
  {
    if index > 0 then times[index - 1 := SecondsSince(start, now)] else times
  }

  /** A redisplay moves the total time by the difference in the one slot it
      writes. */
  lemma ChargedSum(times: seq<int>, index: nat, start: int, now: int)
    requires 0 < index <= |times|
    ensures Sum(Charged(times, index, start, now)) == Sum(times) - times[index - 1] + SecondsSince(start, now)
  {
    SumUpdate(times, index - 1, SecondsSince(start, now));
  }

  /** The scalar variables and the two array references, as one value. */
  datatype Vars = Vars(
    quizData: Option<Quiz>,
    currentQuestionIndex: nat,
    currentSolutionIndex: nat,
    userAnswers: array<Answer>,
    timePerQuestion: array<int>,
    timerRunning: bool,
    timeLeft: int,
    startTime: int,
    page: Page,
    previewOpen: bool,
    shareToken: Option<string>,
    report: Option<Report>,
    solutionScore: nat)

  class Script {
    var quizData: Option<Quiz>
    var currentQuestionIndex: nat
    var currentSolutionIndex: nat
    var userAnswers: array<Answer>
    var timePerQuestion: array<int>
    var timerRunning: bool
    var timeLeft: int
    var startTime: int
    var page: Page
    var previewOpen: bool
    var shareToken: Option<string>
    var report: Option<Report>
    var solutionScore: nat

    function State(): Vars
      reads this
    {
      Vars(quizData, currentQuestionIndex, currentSolutionIndex, userAnswers, timePerQuestion,
           timerRunning, timeLeft, startTime, page, previewOpen, shareToken, report, solutionScore)
    }

    /** A session in progress: a quiz with questions, both arrays sized to it and
        the index on one of them. */
    predicate Valid()
      reads this
    {
      && quizData.Some?
      && |quizData.value.questions| > 0
      && userAnswers.Length == |quizData.value.questions|
      && timePerQuestion.Length == |quizData.value.questions|
      && currentQuestionIndex < |quizData.value.questions|
    }

    /** The review of a session, its cursor on a question. */
    predicate InReview()
      reads this
    {
      Valid() && currentSolutionIndex < |quizData.value.questions|
    }

    function Questions(): seq<Question>
      requires quizData.Some?
      reads this
    {
      quizData.value.questions
    }

    /** The page as loaded (script.js:40-49). */
    constructor ()
      ensures quizData == None && currentQuestionIndex == 0 && currentSolutionIndex == 0
      ensures userAnswers.Length == 0 && timePerQuestion.Length == 0
      ensures !timerRunning && timeLeft == 0 && startTime == 0 && page == Home && !previewOpen
      ensures shareToken == None && report == None && solutionScore == 0
    {
      quizData := None;
      currentQuestionIndex := 0;
      currentSolutionIndex := 0;
      userAnswers := new Answer[0];
      timePerQuestion := new int[0];
      timerRunning := false;
      timeLeft := 0;
      startTime := 0;
      page := Home;
      previewOpen := false;
      shareToken := None;
      report := None;
      solutionScore := 0;
    }

    /** The share token of the current quiz; nothing without one (script.js:148-158). */
    method GenerateShareLink(stringify: Quiz -> seq<ShareToken.Byte>)
      modifies this
      ensures quizData == None ==> State() == old(State())
      ensures quizData.Some? ==>
                State() == old(State()).(shareToken := Some(ShareToken.EncodeToken(stringify(quizData.value))))
    {
      if quizData == None {
        return;
      }
      var quizString := stringify(quizData.value);
      var encodedQuiz := ShareToken.EncodeToken(quizString);
      shareToken := Some(encodedQuiz);
    }

    /** A parsed upload becomes the quiz, gets its token and opens the preview;
        a file that does not parse changes nothing, since the assignment comes
        after the parse (script.js:116-138). */
    method HandleFileUpload(parsed: Option<Quiz>, stringify: Quiz -> seq<ShareToken.Byte>)
      modifies this
      ensures parsed == None ==> State() == old(State())
      ensures parsed.Some? ==>
                State() == old(State()).(quizData := parsed,
                                         shareToken := Some(ShareToken.EncodeToken(stringify(parsed.value))),
                                         previewOpen := true)
    {
      if parsed == None {
        return;
      }
      quizData := parsed;
      GenerateShareLink(stringify);
      previewOpen := true;
    }

    /** A `quiz` parameter that decodes and parses becomes the quiz and opens the
        preview on the upload page; one that fails at either step changes nothing
        (script.js:653-667). */
    method CheckForSharedQuiz(quizParam: Option<string>, parse: seq<ShareToken.Byte> -> Option<Quiz>)
      modifies this
      ensures (quizParam.Some? && quizParam.value != []
               && ShareToken.DecodeToken(quizParam.value).Some?
               && parse(ShareToken.DecodeToken(quizParam.value).value).Some?) ==>
                State() == old(State()).(quizData := parse(ShareToken.DecodeToken(quizParam.value).value),
                                         page := Upload, previewOpen := true)
      ensures !(quizParam.Some? && quizParam.value != []
                && ShareToken.DecodeToken(quizParam.value).Some?
                && parse(ShareToken.DecodeToken(quizParam.value).value).Some?) ==>
                State() == old(State())
    {
      if quizParam == None || quizParam.value == [] {
        return;
      }
      var decodedQuiz := ShareToken.DecodeToken(quizParam.value);
      if decodedQuiz == None {
        return;
      }
      var parsed := parse(decodedQuiz.value);
      if parsed == None {
        return;
      }
      quizData := parsed;
      page := Upload;
      previewOpen := true;
    }

    /** The results: the interval is cleared and the figures of the answers and
        times in the arrays are shown (script.js:380-424). */
    method ShowResults()
      requires Valid()
      modifies this
      ensures State() == old(State()).(timerRunning := false,
                                       report := Some(ScriptReport(old(quizData.value), old(userAnswers[..]), old(timePerQuestion[..]))),
                                       page := Result)
    {
      timerRunning := false;
      var quiz := quizData.value;
      var t := CountOutcomes(quiz.questions, userAnswers[..]);
      var totalTime := 0;
      var i := 0;
      while i < timePerQuestion.Length
        invariant 0 <= i <= timePerQuestion.Length
        invariant totalTime == Sum(timePerQuestion[..i])
      {
        assert timePerQuestion[..i + 1][..i] == timePerQuestion[..i];
        totalTime := totalTime + timePerQuestion[i];
        i := i + 1;
      }
      assert timePerQuestion[..i] == timePerQuestion[..];
      var n := |quiz.questions|;
      report := Some(Report(t.correct, t.incorrect, t.unattempted, JsRound(100 * t.correct, n),
                            Accuracy(t.correct, t.incorrect), JsRound(totalTime, n)));
      page := Result;
    }

    /** One tick: at zero or below the interval is cleared and the results shown,
        otherwise one second less (script.js:283-294). */
    method UpdateTimer()
      requires Valid()
      modifies this
      ensures old(timeLeft) <= 0 ==>
                State() == old(State()).(timerRunning := false,
                                         report := Some(ScriptReport(old(quizData.value), old(userAnswers[..]), old(timePerQuestion[..]))),
                                         page := Result)
      ensures old(timeLeft) > 0 ==> State() == old(State()).(timeLeft := old(timeLeft) - 1)
    {
      if timeLeft <= 0 {
        timerRunning := false;
        ShowResults();
        return;
      }
      timeLeft := timeLeft - 1;
    }

    /** A redisplay of the current question charges the time since the last one
        to the previous slot and restarts the clock (script.js:296-302). */
    method ShowQuestion(now: int)
      requires Valid()
      modifies this, timePerQuestion
      ensures State() == old(State()).(startTime := now)
      ensures timePerQuestion[..] == Charged(old(timePerQuestion[..]), currentQuestionIndex, old(startTime), now)
    {
      if currentQuestionIndex > 0 {
        var timeSpent := SecondsSince(startTime, now);
        timePerQuestion[currentQuestionIndex - 1] := timeSpent;
      }
      startTime := now;
    }

    /** The countdown of a truthy limit: set to the limit in seconds, ticked at
        once, then the interval starts, which a limit of zero seconds or below has
        already cleared and shown the results for (script.js:267-270). */
    method StartTimer()
      requires Valid() && IsTimed(quizData.value)
      modifies this
      ensures TimeLimitSeconds(old(quizData.value)) > 0 ==>
                State() == old(State()).(timeLeft := TimeLimitSeconds(old(quizData.value)) - 1, timerRunning := true)
      ensures TimeLimitSeconds(old(quizData.value)) <= 0 ==>
                State() == old(State()).(timeLeft := TimeLimitSeconds(old(quizData.value)), timerRunning := true,
                                         report := Some(ScriptReport(old(quizData.value), old(userAnswers[..]), old(timePerQuestion[..]))),
                                         page := Result)
    {
      timeLeft := quizData.value.timeLimit.value * 60;
      UpdateTimer();
      timerRunning := true;
    }

    /** The first half of a start: the preview closes, both arrays are made
        afresh for the quiz's questions and the index and clock are reset
        (script.js:258-263). */
    method BeginSession(now: int)
      requires quizData.Some? && |quizData.value.questions| > 0
      modifies this
      ensures Valid() && fresh(userAnswers) && fresh(timePerQuestion)
      ensures State() == old(State()).(previewOpen := false, currentQuestionIndex := 0, startTime := now,
                                       userAnswers := userAnswers, timePerQuestion := timePerQuestion)
      ensures userAnswers[..] == Filled(|Questions()|, None) && timePerQuestion[..] == Filled(|Questions()|, 0)
    {
      previewOpen := false;
      var n := |quizData.value.questions|;
      userAnswers := new Answer[n](_ => None);
      currentQuestionIndex := 0;
      timePerQuestion := new int[n](_ => 0);
      startTime := now;
      assert userAnswers[..] == Filled(n, None);
      assert timePerQuestion[..] == Filled(n, 0);
    }

    /** A new session on the current quiz: answers all null, times all 0, index
        0; with a truthy limit the countdown is set to the limit in seconds and
        ticked at once, then the interval starts (script.js:258-281). */
    method StartQuiz(now: int)
      requires quizData.Some? && |quizData.value.questions| > 0
      modifies this
      ensures Valid() && fresh(userAnswers) && fresh(timePerQuestion)
      ensures quizData == old(quizData) && currentQuestionIndex == 0 && startTime == now
      ensures userAnswers[..] == Filled(|Questions()|, None) && timePerQuestion[..] == Filled(|Questions()|, 0)
      ensures page == QuizScreen && !previewOpen
      ensures currentSolutionIndex == old(currentSolutionIndex) && shareToken == old(shareToken)
      ensures solutionScore == old(solutionScore)
      ensures !IsTimed(quizData.value) ==>
                timeLeft == old(timeLeft) && timerRunning == old(timerRunning) && report == old(report)
      ensures IsTimed(quizData.value) && TimeLimitSeconds(quizData.value) > 0 ==>
                timeLeft == TimeLimitSeconds(quizData.value) - 1 && timerRunning && report == old(report)
      ensures IsTimed(quizData.value) && TimeLimitSeconds(quizData.value) <= 0 ==>
                timeLeft == TimeLimitSeconds(quizData.value) && timerRunning
                && report == Some(ScriptReport(quizData.value, Filled(|Questions()|, None), Filled(|Questions()|, 0)))
    {
      BeginSession(now);
      if IsTimed(quizData.value) {
        StartTimer();
      }
      ShowQuestion(now);
      page := QuizScreen;
    }

    /** Choosing an option writes it into the current slot and redisplays the
        question, which charges the time since the last redisplay to the slot
        before (script.js:352-355). */
    method SelectOption(optionIndex: int, now: int)
      requires Valid()
      modifies this, userAnswers, timePerQuestion
      ensures State() == old(State()).(startTime := now)
      ensures userAnswers[..] == old(userAnswers[..])[currentQuestionIndex := Some(optionIndex)]
      ensures timePerQuestion[..] == Charged(old(timePerQuestion[..]), currentQuestionIndex, old(startTime), now)
    {
      userAnswers[currentQuestionIndex] := Some(optionIndex);
      ShowQuestion(now);
    }

    /** Next: one forward, charging the question left; on the last question its
        own slot is charged and the results are shown (script.js:357-368). */
    method ShowNextQuestion(now: int)
      requires Valid()
      modifies this, timePerQuestion
      ensures Valid() && userAnswers[..] == old(userAnswers[..])
      ensures timePerQuestion[..] == old(timePerQuestion[..])[old(currentQuestionIndex) := SecondsSince(old(startTime), now)]
      ensures old(currentQuestionIndex) < |Questions()| - 1 ==>
                State() == old(State()).(currentQuestionIndex := old(currentQuestionIndex) + 1, startTime := now)
      ensures old(currentQuestionIndex) == |Questions()| - 1 ==>
                State() == old(State()).(timerRunning := false,
                                         report := Some(ScriptReport(quizData.value, userAnswers[..], timePerQuestion[..])),
                                         page := Result)
    {
      if currentQuestionIndex < |quizData.value.questions| - 1 {
        currentQuestionIndex := currentQuestionIndex + 1;
        ShowQuestion(now);
      } else {
        var timeSpent := SecondsSince(startTime, now);
        timePerQuestion[currentQuestionIndex] := timeSpent;
        ShowResults();
      }
    }

    /** Previous: one back when not on the first question; the redisplay then
        charges the time to the slot before the new index, two before the
        question left (script.js:370-378). */
    method ShowPreviousQuestion(now: int)
      requires Valid()
      modifies this, timePerQuestion
      ensures Valid() && userAnswers[..] == old(userAnswers[..])
      ensures old(currentQuestionIndex) == 0 ==>
                State() == old(State()) && timePerQuestion[..] == old(timePerQuestion[..])
      ensures old(currentQuestionIndex) > 0 ==>
                && State() == old(State()).(currentQuestionIndex := old(currentQuestionIndex) - 1, startTime := now)
                && timePerQuestion[..] == Charged(old(timePerQuestion[..]), old(currentQuestionIndex) - 1, old(startTime), now)
    {
      if currentQuestionIndex > 0 {
        currentQuestionIndex := currentQuestionIndex - 1;
        ShowQuestion(now);
      }
    }

    /** The running score of the review: the correct answers up to and including
        the cursor, which on the last question is the final correct count
        (script.js:426-452). */
    method ShowSolution()
      requires InReview()
      modifies this
      ensures State() == old(State()).(solutionScore := CountUpTo(old(Questions()), old(userAnswers[..]), Correct, old(currentSolutionIndex) + 1))
      ensures solutionScore <= currentSolutionIndex + 1
      ensures currentSolutionIndex == |Questions()| - 1 ==>
                solutionScore == ScriptReport(quizData.value, userAnswers[..], timePerQuestion[..]).correct
    {
      var correctCount := RunningScore(quizData.value.questions, userAnswers[..], currentSolutionIndex);
      solutionScore := correctCount;
    }

    /** The review opens on the first question (script.js:426-430). */
    method ShowSolutions()
      requires Valid()
      modifies this
      ensures InReview()
      ensures State() == old(State()).(currentSolutionIndex := 0,
                                       solutionScore := CountUpTo(Questions(), userAnswers[..], Correct, 1),
                                       page := Solution)
    {
      currentSolutionIndex := 0;
      ShowSolution();
      page := Solution;
    }

    /** Next in the review: one forward, or back to the results from the last
        question (script.js:506-515). */
    method ShowNextSolution()
      requires InReview()
      modifies this
      ensures InReview()
      ensures old(currentSolutionIndex < |Questions()| - 1) ==>
                State() == old(State()).(currentSolutionIndex := old(currentSolutionIndex) + 1,
                                         solutionScore := CountUpTo(old(Questions()), old(userAnswers[..]), Correct, old(currentSolutionIndex) + 2))
      ensures old(currentSolutionIndex) == |Questions()| - 1 ==> State() == old(State()).(page := Result)
    {
      if currentSolutionIndex < |quizData.value.questions| - 1 {
        currentSolutionIndex := currentSolutionIndex + 1;
        ShowSolution();
      } else {
        page := Result;
      }
    }

    /** Previous in the review: one back when not on the first question
        (script.js:517-524). */
    method ShowPreviousSolution()
      requires InReview()
      modifies this
      ensures InReview()
      ensures old(currentSolutionIndex) == 0 ==> State() == old(State())
      ensures old(currentSolutionIndex) > 0 ==>
                State() == old(State()).(currentSolutionIndex := old(currentSolutionIndex) - 1,
                                         solutionScore := CountUpTo(old(Questions()), old(userAnswers[..]), Correct, old(currentSolutionIndex)))
    {
      if currentSolutionIndex > 0 {
        currentSolutionIndex := currentSolutionIndex - 1;
        ShowSolution();
      }
    }

    /** The sample button, once its delay is over: the sample becomes the quiz,
        gets its token and starts (script.js:208-256). */
    method UseSampleQuiz(stringify: Quiz -> seq<ShareToken.Byte>, now: int)
      modifies this
      ensures Valid() && quizData == Some(SampleQuiz())
      ensures shareToken == Some(ShareToken.EncodeToken(stringify(SampleQuiz())))
      ensures userAnswers[..] == Filled(5, None) && currentQuestionIndex == 0
      ensures timeLeft == 179 && timerRunning && page == QuizScreen
    {
      quizData := Some(SampleQuiz());
      GenerateShareLink(stringify);
      StartQuiz(now);
    }
  }

  /** The interval left running on a session: exactly one more tick than the
      seconds left, and then the results of the answers and times as they stand. */
  method RunClock(s: Script) returns (ticks: nat)
    requires s.Valid() && s.timerRunning && s.timeLeft >= 0
    modifies s
    ensures s.Valid() && s.quizData == old(s.quizData) && ticks == old(s.timeLeft) + 1
    ensures s.timeLeft == 0 && !s.timerRunning && s.page == Result
    ensures s.report == Some(ScriptReport(s.quizData.value, s.userAnswers[..], s.timePerQuestion[..]))
    ensures s.userAnswers == old(s.userAnswers) && s.userAnswers[..] == old(s.userAnswers[..])
    ensures s.timePerQuestion == old(s.timePerQuestion) && s.timePerQuestion[..] == old(s.timePerQuestion[..])
  {
    ticks := 0;
    while s.timerRunning
      invariant s.Valid() && s.timeLeft >= 0
      invariant s.userAnswers == old(s.userAnswers) && s.timePerQuestion == old(s.timePerQuestion)
      invariant s.quizData == old(s.quizData)
      invariant s.timerRunning ==> ticks + s.timeLeft == old(s.timeLeft)
      invariant !s.timerRunning ==>
                  (ticks == old(s.timeLeft) + 1 && s.timeLeft == 0 && s.page == Result
                   && s.report == Some(ScriptReport(s.quizData.value, s.userAnswers[..], s.timePerQuestion[..])))
      decreases s.timeLeft + (if s.timerRunning then 1 else 0)
    {
      s.UpdateTimer();
      ticks := ticks + 1;
    }
  }

  /** A sample session left to run out takes three minutes of ticks, the one at
      start and 180 by the interval, and scores every question unattempted. */
  method SampleRunsOut(stringify: Quiz -> seq<ShareToken.Byte>, now: int) returns (ticks: nat, r: Report)
    ensures ticks == 180
    ensures r.unattempted == 5 && r.correct == 0 && r.incorrect == 0 && r.accuracy == 0
  {
    var s := new Script();
    s.UseSampleQuiz(stringify, now);
    ticks := RunClock(s);
    r := s.report.value;
    var qs := SampleQuiz().questions;
    UnansweredTally(qs, 5);
    assert r == ScriptReport(SampleQuiz(), Filled(|qs|, None), s.timePerQuestion[..]);
    assert TallyOf(qs, Filled(|qs|, None)) == Tally(0, 0, 5);
  }

  /** A quiz shared through a link whose value is percent-encoded comes back
      whole on the opening page, whenever the JSON text, never empty, parses back to it. */
  method ShareThenOpen(quiz: Quiz, stringify: Quiz -> seq<ShareToken.Byte>, parse: seq<ShareToken.Byte> -> Option<Quiz>)
      returns (received: Option<Quiz>)
    requires stringify(quiz) != [] && parse(stringify(quiz)) == Some(quiz)
    ensures received == Some(quiz)
  {
    var sender := new Script();
    sender.HandleFileUpload(Some(quiz), stringify);
    var token := sender.shareToken.value;
    ShareToken.EncodedTokenInLinkRoundTrip(stringify(quiz));
    var receiver := new Script();
    var param := ShareToken.FormDecode(ShareToken.LinkValue(token));
    assert ShareToken.DecodeToken([]) == Some([]);
    receiver.CheckForSharedQuiz(Some(param), parse);
    received := receiver.quizData;
  }

  const SampleQuestion1 := Question("What is the capital of France?",
    ["London", "Paris", "Berlin", "Madrid"], 1,
    Some("Paris has been the capital of France since the 5th century."))
  const SampleQuestion2 := Question("Which planet is known as the Red Planet?",
    ["Venus", "Mars", "Jupiter", "Saturn"], 1,
    Some("Mars appears red due to iron oxide (rust) on its surface."))
  const SampleQuestion3 := Question("Who painted the Mona Lisa?",
    ["Van Gogh", "Da Vinci", "Picasso", "Michelangelo"], 1,
    Some("Leonardo da Vinci painted the Mona Lisa between 1503 and 1519."))
  const SampleQuestion4 := Question("What is the largest ocean on Earth?",
    ["Atlantic", "Indian", "Arctic", "Pacific"], 3,
    Some("The Pacific Ocean covers about 63 million square miles."))
  const SampleQuestion5 := Question("Which element has the chemical symbol 'O'?",
    ["Gold", "Oxygen", "Osmium", "Oganesson"], 1,
    Some("Oxygen is essential for human respiration and combustion."))

  /** The built-in sample (script.js:214-250): five questions of four options,
      three minutes. */
  function SampleQuiz(): (quiz: Quiz)
    ensures |quiz.questions| == 5 && WellFormed(quiz) && OptionsPerQuestion(quiz, 4)
    ensures IsTimed(quiz) && TimeLimitSeconds(quiz) == 180
  {
    Quiz("Elite Knowledge Quiz", Some("Test your elite knowledge with these premium questions"), Some(3),
         [SampleQuestion1, SampleQuestion2, SampleQuestion3, SampleQuestion4, SampleQuestion5])
  }
}
