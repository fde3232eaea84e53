/** The untyped quiz page (src/pages/QuizPage.jsx), which drives the store: the
    clock display, the countdown badge, the rule that decides whether a tick is
    scheduled, and the answer and navigation buttons. */
module QuizPageJsx {
  import opened Common
  import opened QuizModel
  import opened QuizStore

  // ---------------------------------------------------------------------------
  // The clock display (src/pages/QuizPage.jsx:78-82)

  predicate IsDigit(c: char) {
    '0' <= c <= '9'
  }

  predicate AllDigits(t: string) {
    forall i :: 0 <= i < |t| ==> IsDigit(t[i])
  }

  /** The decimal digits of a whole number, most significant first, without
      leading zeros. */
  function Digits(n: nat): (t: string)
    ensures |t| >= 1 && AllDigits(t)
    ensures n < 10 <==> |t| == 1
    ensures 10 <= n < 100 <==> |t| == 2
  {
    var d := (n % 10) as char + '0';
    if n < 10 then [d] else Digits(n / 10) + [d]
  }

  /** What a run of digits reads as. */
  function DigitsValue(t: string): nat
    requires AllDigits(t)
  {
    if t == [] then 0 else 10 * DigitsValue(t[..|t| - 1]) + (t[|t| - 1] - '0') as nat
  }

  /** JavaScript's conversion of an integer to text. */
  function DecimalString(k: int): string {
    if k < 0 then "-" + Digits(-k) else Digits(k)
  }

  /** Left-padding with zeros to two characters; longer text is kept as is. */
  function PadStart2(t: string): (r: string)
    ensures |r| == if |t| >= 2 then |t| else 2
    ensures r[|r| - |t|..] == t
  {
    if |t| >= 2 then t else seq(2 - |t|, _ => '0') + t
  }

  /** JavaScript's `%`: the remainder takes the sign of the dividend. */
  function JsRem(a: int, b: int): int
    requires b > 0
  {
    if a >= 0 then a % b else -((-a) % b)
  }

  /** Minutes and seconds as `mm:ss`: the minutes are the floor of the quotient
      by 60 and the seconds the JavaScript remainder, each padded to two places. */
  function FormatTime(seconds: int): string {
    PadStart2(DecimalString(seconds / 60)) + ":" + PadStart2(DecimalString(JsRem(seconds, 60)))
  }

  /** The first position of `c` in `t`, or `|t|` when it does not occur. */
  function IndexOf(t: string, c: char): (i: nat)
    ensures i <= |t|
    ensures i < |t| ==> t[i] == c
    ensures forall j :: 0 <= j < i ==> t[j] != c
  {
    if t == [] then 0 else if t[0] == c then 0 else 1 + IndexOf(t[1..], c)
  }

  /** Reading a `mm:ss` display back into its minutes and seconds. */
  function ParseClock(t: string): Option<(nat, nat)> {
    var i := IndexOf(t, ':');
    if i < |t| && AllDigits(t[..i]) && AllDigits(t[i + 1..]) then
      Some((DigitsValue(t[..i]), DigitsValue(t[i + 1..])))
    else None
  }

  lemma {:induction false} DigitsRoundTrip(n: nat)
    ensures DigitsValue(Digits(n)) == n
  {
    if n >= 10 {
      var d := (n % 10) as char + '0';
      var t := Digits(n / 10) + [d];
      assert t[..|t| - 1] == Digits(n / 10);
      DigitsRoundTrip(n / 10);
    }
  }

  /** A leading zero does not change what digits read as. */
  lemma {:induction false} LeadingZero(t: string)
    requires AllDigits(t)
    ensures AllDigits("0" + t) && DigitsValue("0" + t) == DigitsValue(t)
  {
    if t != [] {
      var u := "0" + t;
      assert u[..|u| - 1] == "0" + t[..|t| - 1];
      LeadingZero(t[..|t| - 1]);
    }
  }

  lemma PaddedDigits(n: nat)
    ensures AllDigits(PadStart2(Digits(n)))
    ensures DigitsValue(PadStart2(Digits(n))) == n
  {
    DigitsRoundTrip(n);
    if n < 10 {
      assert PadStart2(Digits(n)) == "0" + Digits(n);
      LeadingZero(Digits(n));
    }
  }

  /** Two runs of digits joined by a colon read back as the two numbers. */
  lemma ParseJoined(a: string, b: string)
    requires AllDigits(a) && AllDigits(b)
    ensures ParseClock(a + ":" + b) == Some((DigitsValue(a), DigitsValue(b)))
  {
    var t := a + ":" + b;
    IndexAfterDigits(a, ":" + b);
    assert t == a + (":" + b);
    assert t[..|a|] == a;
    assert t[|a| + 1..] == b;
  }

  lemma IndexAfterDigits(a: string, rest: string)
    requires AllDigits(a) && rest != [] && rest[0] == ':'
    ensures IndexOf(a + rest, ':') == |a|
  {
    assert (a + rest)[|a|] == ':';
  }

  /** For a non-negative count the display reads back as its minutes and seconds:
      60 * minutes + seconds is the count and the seconds are below 60. */
  lemma FormatTimeRoundTrip(seconds: nat)
    ensures ParseClock(FormatTime(seconds)) == Some((seconds / 60, seconds % 60))
    ensures var p := ParseClock(FormatTime(seconds)).value;
            60 * p.0 + p.1 == seconds && p.1 < 60
  {
    var a := PadStart2(Digits(seconds / 60));
    var b := PadStart2(Digits(seconds % 60));
    assert FormatTime(seconds) == a + ":" + b;
    PaddedDigits(seconds / 60);
    PaddedDigits(seconds % 60);
    ParseJoined(a, b);
  }

  /** Under 100 minutes the display is five characters long. */
  lemma FormatTimeWidth(seconds: int)
    requires 0 <= seconds < 6000
    ensures |FormatTime(seconds)| == 5
  {
    var m, r := seconds / 60, JsRem(seconds, 60);
    assert 0 <= m < 100 && 0 <= r < 60;
    assert |PadStart2(DecimalString(m))| == 2;
    assert |PadStart2(DecimalString(r))| == 2;
  }

  /** A negative count, which a negative time limit produces, is shown with a
      minus sign on each part. */
  lemma FormatTimeNegative()
    ensures FormatTime(-5) == "-1:-5"
  {
    assert -5 / 60 == -1 && JsRem(-5, 60) == -5;
    assert Digits(1) == "1" && Digits(5) == "5";
    assert DecimalString(-1) == "-1" && DecimalString(-5) == "-5";
  }

  // ---------------------------------------------------------------------------
  // The countdown badge and the tick schedule

  datatype Badge = BadgeError | BadgeWarning | BadgePrimary

  /** Under a minute the badge is red, under five minutes amber, else the primary
      colour (src/pages/QuizPage.jsx:116-121). */
  function TimerBadge(timeLeft: int): (b: Badge)
    ensures b == BadgeError <==> timeLeft < 60
    ensures b == BadgeWarning <==> 60 <= timeLeft < 300
    ensures b == BadgePrimary <==> timeLeft >= 300
  {
    if timeLeft < 60 then BadgeError else if timeLeft < 300 then BadgeWarning else BadgePrimary
  }

  /** The badge only grows more urgent as time runs down. */
  lemma BadgeMonotone(a: int, b: int)
    requires a <= b
    ensures TimerBadge(b) == BadgeError ==> TimerBadge(a) == BadgeError
    ensures TimerBadge(a) == BadgePrimary ==> TimerBadge(b) == BadgePrimary
  {
  }

  /** A one-second tick is scheduled exactly while the quiz is active and the
      countdown is not at zero (src/pages/QuizPage.jsx:44-52). */
  predicate TickScheduled(isQuizActive: bool, timeLeft: int) {
    isQuizActive && timeLeft != 0
  }

  /** An untimed quiz starts at zero and so is never ticked. */
  lemma UntimedNeverTicks(s: StoreState, quiz: Quiz, now: int)
    requires !IsTimed(quiz)
    ensures !TickScheduled(Start(s, quiz, now).isQuizActive, Start(s, quiz, now).timeLeft)
  {
  }

  /** Once the countdown reaches zero no tick is scheduled, so the store's
      expiry branch is never taken from this page. */
  lemma NoTickAtZero(s: StoreState, now: int)
    requires s.isQuizActive && s.timeLeft == 1
    ensures Tick(s, now).timeLeft == 0 && Tick(s, now).isQuizActive
    ensures !TickScheduled(Tick(s, now).isQuizActive, Tick(s, now).timeLeft)
  {
  }

  /** The page's ticks from `now` on, as written: interval after interval until
      none is scheduled. A running timed quiz ends at zero with every other field
      as it was: still active, not completed, no result, no new history entry. */
  method RunCountdownAsWritten(store: Store, now: int) returns (later: int)
    requires store.timeLeft >= 0
    modifies store
    ensures old(TickScheduled(store.isQuizActive, store.timeLeft)) ==>
              store.State() == old(store.State()).(timeLeft := 0) && later == now + 1000 * old(store.timeLeft)
    ensures !old(TickScheduled(store.isQuizActive, store.timeLeft)) ==>
              store.State() == old(store.State()) && later == now
  {
    later := now;
    while TickScheduled(store.isQuizActive, store.timeLeft)
      invariant 0 <= store.timeLeft <= old(store.timeLeft)
      invariant store.State() == old(store.State()).(timeLeft := store.timeLeft)
      invariant later == now + 1000 * (old(store.timeLeft) - store.timeLeft)
      invariant !old(TickScheduled(store.isQuizActive, store.timeLeft)) ==> store.timeLeft == old(store.timeLeft)
      decreases store.timeLeft
    {
      later := later + 1000;
      store.UpdateTimer(later);
    }
  }

  /** As a value: a started timed quiz is ticked, and at zero it is still active
      and not completed, yet no further tick is scheduled. */
  lemma TimedQuizNeverExpires(s: StoreState, quiz: Quiz, now: int)
    requires IsTimed(quiz) && quiz.timeLimit.value > 0
    ensures Start(s, quiz, now).timeLeft > 0
    ensures TickScheduled(Start(s, quiz, now).isQuizActive, Start(s, quiz, now).timeLeft)
    ensures var z := Start(s, quiz, now).(timeLeft := 0);
            !TickScheduled(z.isQuizActive, z.timeLeft) && z.isQuizActive && !z.isQuizCompleted
  {
  }

  /** The schedule that reaches the store's expiry branch: tick while the quiz is
      active and timed. */
  predicate TickScheduledFixed(isQuizActive: bool, quiz: Option<Quiz>) {
    isQuizActive && quiz.Some? && IsTimed(quiz.value)
  }

  /** The ticks under that schedule: a running timed quiz counts down to zero and
      the next tick completes it, scoring the answers and times it had. */
  method RunCountdown(store: Store, now: int) returns (later: int)
    requires store.State().Shaped() && store.timeLeft >= 0
    modifies store
    ensures old(TickScheduledFixed(store.isQuizActive, store.currentQuiz)) ==>
              store.State() == Complete(old(store.State()).(timeLeft := 0), later)
              && later == now + 1000 * (old(store.timeLeft) + 1)
    ensures !old(TickScheduledFixed(store.isQuizActive, store.currentQuiz)) ==>
              store.State() == old(store.State()) && later == now
  {
    later := now;
    ghost var started := TickScheduledFixed(store.isQuizActive, store.currentQuiz);
    while TickScheduledFixed(store.isQuizActive, store.currentQuiz)
      invariant started && store.isQuizActive ==> 0 <= store.timeLeft <= old(store.timeLeft)
      invariant started && store.isQuizActive ==> store.State() == old(store.State()).(timeLeft := store.timeLeft)
      invariant started && store.isQuizActive ==> later == now + 1000 * (old(store.timeLeft) - store.timeLeft)
      invariant !started ==> store.State() == old(store.State()) && later == now
      invariant started && !store.isQuizActive ==>
                  store.State() == Complete(old(store.State()).(timeLeft := 0), later)
                  && later == now + 1000 * (old(store.timeLeft) + 1)
      decreases store.isQuizActive, store.timeLeft
    {
      later := later + 1000;
      store.UpdateTimer(later);
    }
  }

  /** Under the corrected schedule expiry completes the attempt exactly once: one
      new history entry and a result for the answers given. */
  lemma ExpiryCompletesOnce(s: StoreState, later: int)
    requires s.Shaped()
    ensures var t := Complete(s.(timeLeft := 0), later);
            && t.isQuizCompleted && !t.isQuizActive
            && !TickScheduledFixed(t.isQuizActive, t.currentQuiz)
            && t.results == Some(Score(s.currentQuiz.value, s.userAnswers, s.timePerQuestion, later))
            && |t.quizHistory| == Min(|s.quizHistory| + 1, HistoryCap)
            && t.quizHistory[1..] == s.quizHistory[..|t.quizHistory| - 1]
  {
    CompleteEffect(s.(timeLeft := 0), later);
  }

  // ---------------------------------------------------------------------------
  // Answering and the buttons

  /** The index the page shows is a question of the quiz. */
  predicate OnQuestion(s: StoreState) {
    s.Shaped() && s.currentQuestionIndex < |s.currentQuiz.value.questions|
  }

  /** Choosing option `answerIndex` records it for the current question; when the
      feedback delay is over (at `later`) the page completes on the last
      question and moves on otherwise (src/pages/QuizPage.jsx:62-76). */
  method HandleAnswerSelect(store: Store, answerIndex: int, later: int)
    requires OnQuestion(store.State())
    modifies store
    ensures var recorded := Record(old(store.State()), old(store.currentQuestionIndex), answerIndex);
            store.State() == if old(store.currentQuestionIndex) == |old(store.currentQuiz).value.questions| - 1
                             then Complete(recorded, later) else Next(recorded, later)
  {
    var isLastQuestion := store.currentQuestionIndex == |store.currentQuiz.value.questions| - 1;
    store.AnswerQuestion(store.currentQuestionIndex, answerIndex);
    if isLastQuestion {
      store.CompleteQuiz(later);
    } else {
      store.NextQuestion(later);
    }
  }

  /** Either way the answer stays recorded for the question it was given on, and
      before the last question the page is on the next one. */
  lemma AnswerThenAdvance(s: StoreState, answerIndex: int, later: int)
    requires OnQuestion(s)
    ensures var i := s.currentQuestionIndex;
            var recorded := Record(s, i, answerIndex);
            var t := if i == |s.currentQuiz.value.questions| - 1 then Complete(recorded, later) else Next(recorded, later);
            && t.userAnswers[i] == Some(answerIndex)
            && (i < |s.currentQuiz.value.questions| - 1 ==> t.currentQuestionIndex == i + 1 && t.isQuizActive == s.isQuizActive)
            && (i == |s.currentQuiz.value.questions| - 1 ==> t.isQuizCompleted && !t.isQuizActive)
  {
  }

  /** The Next / Finish button, enabled only while the current question has an
      answer: Finish on the last question, Next elsewhere
      (src/pages/QuizPage.jsx:261-263). */
  method PressNext(store: Store, now: int)
    requires OnQuestion(store.State()) && store.userAnswers[store.currentQuestionIndex] != None
    modifies store
    ensures store.State() == Next(old(store.State()), now)
  {
    if store.currentQuestionIndex == |store.currentQuiz.value.questions| - 1 {
      store.CompleteQuiz(now);
    } else {
      store.NextQuestion(now);
    }
  }

  /** Finish on the last question is the store's own last-question branch of Next. */
  lemma FinishIsNextOnLast(s: StoreState, now: int)
    requires OnQuestion(s) && s.currentQuestionIndex == |s.currentQuiz.value.questions| - 1
    ensures Next(s, now) == Complete(s, now)
  {
  }
}
