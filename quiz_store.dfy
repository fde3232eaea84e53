/** The application store of the React version (src/store/quizStore.js): one
    record holding the quiz being taken, the answers and per-question times, the
    countdown, the completion flags, the last result and the bounded history.

    `StoreState` is a snapshot of that record and the functions `Start`, `Record`,
    `Next`, `Previous`, `Complete`, `Reset`, `Tick` and `SetQuiz` say what each action
    makes of it; the class `Store` holds the record in fields and its methods are
    proved to perform exactly those transitions. The clock is the `now` argument
    (milliseconds). */
module QuizStore {
  import opened Common
  import opened QuizModel
  import opened Scoring

  /** The statistics of one completed attempt. `percentage` and `avgTime` are
      NaN for a quiz without questions (zero divided by zero). */
  datatype Results = Results(
    correct: nat,
    incorrect: nat,
    unattempted: nat,
    totalQuestions: nat,
    percentage: Num,
    accuracy: int,
    totalTime: int,
    avgTime: Num,
    completedAt: int)

  /** One element of the history list; `id` and `completedAt` are the clock at completion. */
  datatype HistoryEntry = HistoryEntry(
    id: int,
    quiz: Quiz,
    results: Results,
    userAnswers: seq<Answer>,
    timePerQuestion: seq<int>,
    completedAt: int)

  /** The history keeps the ten most recent attempts. */
  const HistoryCap: nat := 10

  /** The figures derived from the three counters (src/store/quizStore.js:103-119). */
  function Statistics(t: Tally, totalQuestions: nat, times: seq<int>, now: int): Results {
    var totalTime := Sum(times);
    Results(t.correct, t.incorrect, t.unattempted, totalQuestions,
            JsRound(100 * t.correct, totalQuestions),
            Accuracy(t.correct, t.incorrect),
            totalTime,
            JsRound(totalTime, totalQuestions),
            now)
  }

  /** The result of an attempt: classify each question, then derive the figures. */
  function Score(quiz: Quiz, answers: seq<Answer>, times: seq<int>, now: int): Results
    requires |quiz.questions| <= |answers|
  {
    Statistics(TallyOf(quiz.questions, answers), |quiz.questions|, times, now)
  }

  /** What every result promises its readers. */
  predicate Consistent(r: Results) {
    && r.correct + r.incorrect + r.unattempted == r.totalQuestions
    && (r.totalQuestions > 0 ==> r.percentage.Finite? && 0 <= r.percentage.value <= 100)
    && (r.totalQuestions == 0 ==> r.percentage == NaN)
    && 0 <= r.accuracy <= 100
    && (r.correct + r.incorrect == 0 ==> r.accuracy == 0)
  }

  /** The scoring contract (src/store/quizStore.js:89-107): the counters partition
      the questions; percentage is in [0, 100]; accuracy is 0 when nothing was
      attempted; the total time is the sum of the per-question times and the
      average is that total over the number of questions, rounded. */
  lemma ScoreProperties(quiz: Quiz, answers: seq<Answer>, times: seq<int>, now: int)
    requires |quiz.questions| <= |answers|
    ensures var r := Score(quiz, answers, times, now);
            && Consistent(r)
            && r.totalQuestions == |quiz.questions|
            && r.correct == CountUpTo(quiz.questions, answers, Correct, |quiz.questions|)
            && r.incorrect == CountUpTo(quiz.questions, answers, Incorrect, |quiz.questions|)
            && r.unattempted == CountUpTo(quiz.questions, answers, Unattempted, |quiz.questions|)
            && (r.totalQuestions > 0 ==> r.percentage == Finite(RoundHalfUp(100 * r.correct, r.totalQuestions)))
            && r.totalTime == Sum(times)
            && (r.totalQuestions > 0 ==> r.avgTime == Finite(RoundHalfUp(Sum(times), r.totalQuestions)))
            && r.completedAt == now
  {
    var n := |quiz.questions|;
    TallyPartition(quiz.questions, answers);
    if n > 0 {
      PercentInRange(CountUpTo(quiz.questions, answers, Correct, n), n);
    }
  }

  /** The history after completing: the new entry at the head, then at most nine
      of the previous entries in their order (src/store/quizStore.js:136). */
  function PushCapped(entry: HistoryEntry, history: seq<HistoryEntry>): (r: seq<HistoryEntry>)
    ensures |r| == Min(|history| + 1, HistoryCap)
    ensures r[0] == entry
    ensures r[1..] == history[..|r| - 1]
  {
    [entry] + history[..Min(|history|, HistoryCap - 1)]
  }

  /** A full history loses exactly its oldest entry and keeps its length. */
  lemma FullHistoryEvictsOldest(entry: HistoryEntry, history: seq<HistoryEntry>)
    requires |history| == HistoryCap
    ensures PushCapped(entry, history) == [entry] + history[..HistoryCap - 1]
    ensures |PushCapped(entry, history)| == HistoryCap
  {
  }

  /** A snapshot of every field the engine's actions read or write. */
  datatype StoreState = StoreState(
    currentQuiz: Option<Quiz>,
    quizHistory: seq<HistoryEntry>,
    currentQuestionIndex: nat,
    userAnswers: seq<Answer>,
    timeLeft: int,
    startTime: Option<int>,
    timePerQuestion: seq<int>,
    isQuizActive: bool,
    isQuizCompleted: bool,
    results: Option<Results>)
  {
    /** The answer and time lists are sized to the current quiz and the index
        points at one of its questions (or is 0 for a quiz without questions). */
    predicate Shaped() {
      && currentQuiz.Some?
      && |userAnswers| == |currentQuiz.value.questions|
      && |timePerQuestion| == |currentQuiz.value.questions|
      && (currentQuestionIndex < |currentQuiz.value.questions| || currentQuestionIndex == 0)
    }

    /** What holds in every reachable state: the history is capped and every
        stored result is consistent. */
    predicate Valid() {
      && |quizHistory| <= HistoryCap
      && (forall i :: 0 <= i < |quizHistory| ==> Consistent(quizHistory[i].results))
      && (results.Some? ==> Consistent(results.value))
    }
  }

  /** The store's initial values (src/store/quizStore.js:8-21). */
  const Initial := StoreState(None, [], 0, [], 0, None, [], false, false, None)

  /** Whole seconds since the last transition, rounded down; a missing start time
      counts as 0 because JavaScript subtracts null as 0. */
  function Elapsed(startTime: Option<int>, now: int): int {
    (now - (match startTime case Some(t) => t case None => 0)) / 1000
  }

  /** Starting a quiz (src/store/quizStore.js:33-47). */
  function Start(s: StoreState, quiz: Quiz, now: int): StoreState {
    var n := |quiz.questions|;
    s.(currentQuiz := Some(quiz),
       currentQuestionIndex := 0,
       userAnswers := Filled(n, None),
       timeLeft := TimeLimitSeconds(quiz),
       startTime := Some(now),
       timePerQuestion := Filled(n, 0),
       isQuizActive := true,
       isQuizCompleted := false,
       results := None)
  }

  /** Recording an answer in a copy of the answer list (src/store/quizStore.js:49-54). */
  function Record(s: StoreState, questionIndex: nat, answerIndex: int): StoreState
    requires questionIndex < |s.userAnswers|
  {
    s.(userAnswers := s.userAnswers[questionIndex := Some(answerIndex)])
  }

  /** Completing the attempt: score it, clear the active flag, set the completed
      flag and push an entry onto the history. Nothing stops a second call
      (src/store/quizStore.js:85-138). */
  function Complete(s: StoreState, now: int): StoreState
    requires s.Shaped()
  {
    var quiz := s.currentQuiz.value;
    var r := Score(quiz, s.userAnswers, s.timePerQuestion, now);
    var entry := HistoryEntry(now, quiz, r, s.userAnswers, s.timePerQuestion, now);
    s.(results := Some(r),
       isQuizActive := false,
       isQuizCompleted := true,
       quizHistory := PushCapped(entry, s.quizHistory))
  }

  /** Moving on (src/store/quizStore.js:56-73): before the last question, store
      the elapsed seconds in the current slot, advance and restart the clock; on
      the last question complete without storing that slot. */
  function Next(s: StoreState, now: int): StoreState
    requires s.Shaped()
  {
    var i := s.currentQuestionIndex;
    if i < |s.currentQuiz.value.questions| - 1 then
      s.(currentQuestionIndex := i + 1,
         timePerQuestion := s.timePerQuestion[i := Elapsed(s.startTime, now)],
         startTime := Some(now))
    else
      Complete(s, now)
  }

  /** Moving back (src/store/quizStore.js:75-83): only above index 0, restarting the clock. */
  function Previous(s: StoreState, now: int): StoreState {
    if s.currentQuestionIndex > 0 then
      s.(currentQuestionIndex := s.currentQuestionIndex - 1, startTime := Some(now))
    else s
  }

  /** Resetting (src/store/quizStore.js:140-150): everything but the history. */
  function Reset(s: StoreState): StoreState {
    s.(currentQuiz := None,
       currentQuestionIndex := 0,
       userAnswers := [],
       timeLeft := 0,
       startTime := None,
       timePerQuestion := [],
       isQuizActive := false,
       isQuizCompleted := false,
       results := None)
  }

  /** One countdown tick (src/store/quizStore.js:152-159). */
  function Tick(s: StoreState, now: int): StoreState
    requires s.isQuizActive && s.timeLeft == 0 ==> s.Shaped()
  {
    if s.timeLeft > 0 && s.isQuizActive then s.(timeLeft := s.timeLeft - 1)
    else if s.timeLeft == 0 && s.isQuizActive then Complete(s, now)
    else s
  }

  /** Replacing the current quiz only (src/store/quizStore.js:29). */
  function SetQuiz(s: StoreState, quiz: Quiz): StoreState {
    s.(currentQuiz := Some(quiz))
  }

  // ---------------------------------------------------------------------------
  // Properties of the transitions

  /** A started session has every answer null and every time 0, both lists sized
      to the quiz, index 0, the active flag set, the completed flag clear, no
      result, the countdown at the limit in seconds (0 when untimed), and the
      history untouched. */
  lemma StartFreshSession(s: StoreState, quiz: Quiz, now: int)
    ensures var t := Start(s, quiz, now);
            && t.Shaped()
            && t.currentQuiz == Some(quiz)
            && |t.userAnswers| == |quiz.questions|
            && (forall i :: 0 <= i < |quiz.questions| ==> t.userAnswers[i] == None)
            && |t.timePerQuestion| == |quiz.questions|
            && (forall i :: 0 <= i < |quiz.questions| ==> t.timePerQuestion[i] == 0)
            && t.currentQuestionIndex == 0
            && t.isQuizActive && !t.isQuizCompleted && t.results == None
            && (IsTimed(quiz) ==> t.timeLeft == quiz.timeLimit.value * 60)
            && (!IsTimed(quiz) ==> t.timeLeft == 0)
            && t.startTime == Some(now)
            && t.quizHistory == s.quizHistory
  {
  }

  /** Completing a quiz straight after starting it: nothing correct, nothing
      attempted, no time spent. */
  lemma {:induction false} CompleteRightAfterStart(s: StoreState, quiz: Quiz, now: int, later: int)
    ensures var r := Complete(Start(s, quiz, now), later).results.value;
            r.correct == 0 && r.incorrect == 0 && r.unattempted == |quiz.questions|
            && r.accuracy == 0 && r.totalTime == 0
  {
    var n := |quiz.questions|;
    UnansweredTally(quiz.questions, n);
    SumOfZeros(n);
  }

  /** Answering changes one slot of the answer list: its length and every other
      slot stay, and so does every other field. */
  lemma AnswerTouchesOneSlot(s: StoreState, questionIndex: nat, answerIndex: int)
    requires questionIndex < |s.userAnswers|
    ensures var t := Record(s, questionIndex, answerIndex);
            && |t.userAnswers| == |s.userAnswers|
            && t.userAnswers[questionIndex] == Some(answerIndex)
            && (forall j :: 0 <= j < |s.userAnswers| && j != questionIndex ==> t.userAnswers[j] == s.userAnswers[j])
            && t.(userAnswers := s.userAnswers) == s
  {
  }

  /** Answering the same question twice keeps only the second answer. */
  lemma AnswerLastWriteWins(s: StoreState, questionIndex: nat, first: int, second: int)
    requires questionIndex < |s.userAnswers|
    ensures Record(Record(s, questionIndex, first), questionIndex, second) == Record(s, questionIndex, second)
  {
  }

  /** Before the last question Next advances by one, overwrites (does not add to)
      the current time slot, keeps every other slot and restarts the clock; on the
      last question it is Complete and the current slot keeps its old value. */
  lemma NextEffect(s: StoreState, now: int)
    requires s.Shaped()
    ensures var t := Next(s, now);
            var i := s.currentQuestionIndex;
            var n := |s.currentQuiz.value.questions|;
            && (i < n - 1 ==>
                  && t.currentQuestionIndex == i + 1
                  && t.timePerQuestion[i] == Elapsed(s.startTime, now)
                  && (forall j :: 0 <= j < n && j != i ==> t.timePerQuestion[j] == s.timePerQuestion[j])
                  && t.startTime == Some(now)
                  && t.userAnswers == s.userAnswers && t.quizHistory == s.quizHistory
                  && t.isQuizActive == s.isQuizActive && t.results == s.results)
            && (i >= n - 1 ==>
                  && t == Complete(s, now)
                  && t.timePerQuestion == s.timePerQuestion
                  && t.currentQuestionIndex == i)
  {
  }

  /** Previous moves the index down by one when it is positive and restarts the
      clock; it never touches the answers or the times. */
  lemma PreviousEffect(s: StoreState, now: int)
    ensures var t := Previous(s, now);
            && (s.currentQuestionIndex > 0 ==> t.currentQuestionIndex == s.currentQuestionIndex - 1 && t.startTime == Some(now))
            && (s.currentQuestionIndex == 0 ==> t == s)
            && t.userAnswers == s.userAnswers && t.timePerQuestion == s.timePerQuestion
  {
  }

  /** Navigation keeps the index inside the quiz: in [0, n - 1], or 0 when n is 0. */
  lemma NavigationKeepsShape(s: StoreState, now: int)
    requires s.Shaped()
    ensures Next(s, now).Shaped() && Previous(s, now).Shaped()
    ensures var n := |s.currentQuiz.value.questions|;
            n > 0 ==> Next(s, now).currentQuestionIndex < n && Previous(s, now).currentQuestionIndex < n
  {
  }

  /** Completing scores the current answers and times and pushes one entry onto
      the head of the history, which holds min(old length + 1, 10) entries, the
      tail being the old head entries in order. */
  lemma CompleteEffect(s: StoreState, now: int)
    requires s.Shaped()
    ensures var t := Complete(s, now);
            var r := Score(s.currentQuiz.value, s.userAnswers, s.timePerQuestion, now);
            && t.results == Some(r)
            && Consistent(r)
            && !t.isQuizActive && t.isQuizCompleted
            && |t.quizHistory| == Min(|s.quizHistory| + 1, HistoryCap)
            && t.quizHistory[0].results == r && t.quizHistory[0].id == now
            && t.quizHistory[0].userAnswers == s.userAnswers
            && t.quizHistory[1..] == s.quizHistory[..|t.quizHistory| - 1]
            && t.userAnswers == s.userAnswers && t.timePerQuestion == s.timePerQuestion
  {
    ScoreProperties(s.currentQuiz.value, s.userAnswers, s.timePerQuestion, now);
  }

  /** Without a phase guard a second completion appends a second entry: the two
      newest entries are the two completions and, below the cap, the history grew
      by two. */
  lemma CompleteTwiceAppendsTwice(s: StoreState, first: int, second: int)
    requires s.Shaped()
    ensures var t := Complete(s, first);
            var u := Complete(t, second);
            && |u.quizHistory| == Min(|s.quizHistory| + 2, HistoryCap)
            && u.quizHistory[0].id == second && u.quizHistory[1].id == first
            && u.quizHistory[0].results.correct == u.quizHistory[1].results.correct
  {
    var t := Complete(s, first);
    assert t.Shaped();
    assert t.quizHistory[0] == Complete(s, first).quizHistory[0];
  }

  /** Resetting clears the session and keeps the history exactly. */
  lemma ResetKeepsHistory(s: StoreState)
    ensures Reset(s).quizHistory == s.quizHistory
    ensures !Reset(s).isQuizActive && Reset(s).currentQuiz == None && Reset(s).results == None
  {
  }

  /** A tick while active counts down by exactly one second when time is left,
      completes at zero, and does nothing when inactive or below zero. */
  lemma TickEffect(s: StoreState, now: int)
    requires s.isQuizActive && s.timeLeft == 0 ==> s.Shaped()
    ensures var t := Tick(s, now);
            && (s.isQuizActive && s.timeLeft > 0 ==> t == s.(timeLeft := s.timeLeft - 1))
            && (s.isQuizActive && s.timeLeft == 0 ==> t == Complete(s, now) && !t.isQuizActive)
            && (!s.isQuizActive || s.timeLeft < 0 ==> t == s)
  {
  }

  /** An untimed quiz starts with the value an expired one has, so a tick right
      after starting it completes it. */
  lemma UntimedLooksExpired(s: StoreState, quiz: Quiz, now: int, later: int)
    requires !IsTimed(quiz)
    ensures Start(s, quiz, now).timeLeft == 0
    ensures Tick(Start(s, quiz, now), later).isQuizCompleted
    ensures !Tick(Start(s, quiz, now), later).isQuizActive
  {
  }

  /** Expiry does not record the time of the question on screen: the time list a
      tick completes with is the one from before the tick. */
  lemma ExpiryKeepsTimes(s: StoreState, now: int)
    requires s.isQuizActive && s.timeLeft == 0 && s.Shaped()
    ensures Tick(s, now).timePerQuestion == s.timePerQuestion
    ensures Tick(s, now).results.value.totalTime == Sum(s.timePerQuestion)
  {
  }

  /** Every action keeps the history capped and every stored result consistent. */
  lemma ActionsPreserveValid(s: StoreState, quiz: Quiz, questionIndex: nat, answerIndex: int, now: int)
    requires s.Valid()
    ensures Start(s, quiz, now).Valid()
    ensures questionIndex < |s.userAnswers| ==> Record(s, questionIndex, answerIndex).Valid()
    ensures s.Shaped() ==> Complete(s, now).Valid() && Next(s, now).Valid()
    ensures Previous(s, now).Valid() && Reset(s).Valid() && SetQuiz(s, quiz).Valid()
    ensures (s.isQuizActive && s.timeLeft == 0 ==> s.Shaped()) ==> Tick(s, now).Valid()
  {
    if s.Shaped() {
      CompleteValid(s, now);
    }
    if s.isQuizActive && s.timeLeft == 0 && s.Shaped() {
      CompleteValid(s, now);
    }
  }

  lemma CompleteValid(s: StoreState, now: int)
    requires s.Valid() && s.Shaped()
    ensures Complete(s, now).Valid()
  {
    var t := Complete(s, now);
    ScoreProperties(s.currentQuiz.value, s.userAnswers, s.timePerQuestion, now);
    forall i | 0 <= i < |t.quizHistory|
      ensures Consistent(t.quizHistory[i].results)
    {
      if i > 0 {
        assert t.quizHistory[i] == s.quizHistory[i - 1];
      }
    }
  }

  /** The questions of the sample quiz (src/store/quizStore.js:172-236). */
  const SampleQuestion1 := Question("What is the capital of France?",
    ["London", "Paris", "Berlin", "Madrid"], 1,
    Some("Paris has been the capital of France since the 5th century and is known as the 'City of Light'."))
  const SampleQuestion2 := Question("Which planet is known as the Red Planet?",
    ["Venus", "Mars", "Jupiter", "Saturn"], 1,
    Some("Mars appears red due to iron oxide (rust) on its surface, giving it the distinctive reddish appearance."))
  const SampleQuestion3 := Question("Who painted the Mona Lisa?",
    ["Van Gogh", "Leonardo da Vinci", "Picasso", "Michelangelo"], 1,
    Some("Leonardo da Vinci painted the Mona Lisa between 1503 and 1519. It's housed in the Louvre Museum in Paris."))
  const SampleQuestion4 := Question("What is the largest ocean on Earth?",
    ["Atlantic Ocean", "Indian Ocean", "Arctic Ocean", "Pacific Ocean"], 3,
    Some("The Pacific Ocean covers about 63 million square miles, making it larger than all land masses combined."))
  const SampleQuestion5 := Question("Which element has the chemical symbol 'Au'?",
    ["Silver", "Gold", "Aluminum", "Argon"], 1,
    Some("Gold's chemical symbol 'Au' comes from the Latin word 'aurum', meaning 'shining dawn'."))
  const SampleQuestion6 := Question("In which year did World War II end?",
    ["1944", "1945", "1946", "1947"], 1,
    Some("World War II ended in 1945 with the surrender of Japan on September 2, 1945."))
  const SampleQuestion7 := Question("What is the speed of light in vacuum?",
    ["299,792,458 m/s", "300,000,000 m/s", "299,000,000 m/s", "301,000,000 m/s"], 0,
    Some("The speed of light in vacuum is exactly 299,792,458 meters per second, a fundamental constant of nature."))
  const SampleQuestion8 := Question("Which programming language was created by Guido van Rossum?",
    ["Java", "Python", "JavaScript", "C++"], 1,
    Some("Python was created by Guido van Rossum and first released in 1991. It's named after Monty Python's Flying Circus."))

  /** The sample quiz (src/store/quizStore.js:166-239). */
  function SampleQuiz(): (quiz: Quiz)
    ensures WellFormed(quiz) && OptionsPerQuestion(quiz, 4)
    ensures |quiz.questions| == 8 && quiz.timeLimit == Some(5) && IsTimed(quiz)
  {
    Quiz("Elite Knowledge Challenge",
         Some("Test your knowledge with these carefully crafted questions"),
         Some(5),
         [SampleQuestion1, SampleQuestion2, SampleQuestion3, SampleQuestion4,
          SampleQuestion5, SampleQuestion6, SampleQuestion7, SampleQuestion8])
  }

  // ---------------------------------------------------------------------------
  // The store itself

  class Store {
    var currentQuiz: Option<Quiz>
    var quizHistory: seq<HistoryEntry>
    var currentQuestionIndex: nat
    var userAnswers: seq<Answer>
    var timeLeft: int
    var startTime: Option<int>
    var timePerQuestion: seq<int>
    var isQuizActive: bool
    var isQuizCompleted: bool
    var results: Option<Results>

    /** The record as a value. */
    function State(): StoreState
      reads this
    {
      StoreState(currentQuiz, quizHistory, currentQuestionIndex, userAnswers, timeLeft,
                 startTime, timePerQuestion, isQuizActive, isQuizCompleted, results)
    }

    constructor ()
      ensures State() == Initial
    {
      currentQuiz := None;
      quizHistory := [];
      currentQuestionIndex := 0;
      userAnswers := [];
      timeLeft := 0;
      startTime := None;
      timePerQuestion := [];
      isQuizActive := false;
      isQuizCompleted := false;
      results := None;
    }

    method SetCurrentQuiz(quiz: Quiz)
      modifies this
      ensures State() == SetQuiz(old(State()), quiz)
    {
      currentQuiz := Some(quiz);
    }

    method StartQuiz(quiz: Quiz, now: int)
      modifies this
      ensures State() == Start(old(State()), quiz, now)
    {
      var n := |quiz.questions|;
      currentQuiz := Some(quiz);
      currentQuestionIndex := 0;
      userAnswers := Filled(n, None);
      timeLeft := TimeLimitSeconds(quiz);
      startTime := Some(now);
      timePerQuestion := Filled(n, 0);
      isQuizActive := true;
      isQuizCompleted := false;
      results := None;
    }

    method AnswerQuestion(questionIndex: nat, answerIndex: int)
      requires questionIndex < |userAnswers|
      modifies this
      ensures State() == Record(old(State()), questionIndex, answerIndex)
    {
      var newAnswers := userAnswers;
      newAnswers := newAnswers[questionIndex := Some(answerIndex)];
      userAnswers := newAnswers;
    }

    method NextQuestion(now: int)
      requires State().Shaped()
      modifies this
      ensures State() == Next(old(State()), now)
    {
      var timeSpent := Elapsed(startTime, now);
      if currentQuestionIndex < |currentQuiz.value.questions| - 1 {
        var newTimePerQuestion := timePerQuestion[currentQuestionIndex := timeSpent];
        currentQuestionIndex := currentQuestionIndex + 1;
        timePerQuestion := newTimePerQuestion;
        startTime := Some(now);
      } else {
        CompleteQuiz(now);
      }
    }

    method PreviousQuestion(now: int)
      modifies this
      ensures State() == Previous(old(State()), now)
    {
      if currentQuestionIndex > 0 {
        currentQuestionIndex := currentQuestionIndex - 1;
        startTime := Some(now);
      }
    }

    method CompleteQuiz(now: int)
      requires State().Shaped()
      modifies this
      ensures State() == Complete(old(State()), now)
    {
      var quiz := currentQuiz.value;
      var tally := CountOutcomes(quiz.questions, userAnswers);
      var r := Statistics(tally, |quiz.questions|, timePerQuestion, now);
      var quizResult := HistoryEntry(now, quiz, r, userAnswers, timePerQuestion, now);
      results := Some(r);
      isQuizActive := false;
      isQuizCompleted := true;
      quizHistory := [quizResult] + quizHistory[..Min(|quizHistory|, HistoryCap - 1)];
    }

    method ResetQuiz()
      modifies this
      ensures State() == Reset(old(State()))
    {
      currentQuiz := None;
      currentQuestionIndex := 0;
      userAnswers := [];
      timeLeft := 0;
      startTime := None;
      timePerQuestion := [];
      isQuizActive := false;
      isQuizCompleted := false;
      results := None;
    }

    method UpdateTimer(now: int)
      requires isQuizActive && timeLeft == 0 ==> State().Shaped()
      modifies this
      ensures State() == Tick(old(State()), now)
    {
      if timeLeft > 0 && isQuizActive {
        timeLeft := timeLeft - 1;
      } else if timeLeft == 0 && isQuizActive {
        CompleteQuiz(now);
      }
    }
  }
}
