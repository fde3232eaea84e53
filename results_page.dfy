/** The typed results page (src/pages/ResultsPage.tsx): the performance level of
    a percentage, the average time per question, and the fallback shown when
    there is nothing to show. */
module ResultsPage {
  import opened Common
  import opened QuizModel
  import opened QuizPageTsx
  import HistoryPage

  datatype Level = Excellent | VeryGood | Good | Fair | NeedsImprovement

  /** Bands at 90, 80, 70 and 60 (src/pages/ResultsPage.tsx:39-45). */
  function PerformanceLevel(percentage: int): (l: Level)
    ensures l == Excellent <==> percentage >= 90
    ensures l == VeryGood <==> 80 <= percentage < 90
    ensures l == Good <==> 70 <= percentage < 80
    ensures l == Fair <==> 60 <= percentage < 70
    ensures l == NeedsImprovement <==> percentage < 60
  {
    if percentage >= 90 then Excellent
    else if percentage >= 80 then VeryGood
    else if percentage >= 70 then Good
    else if percentage >= 60 then Fair
    else NeedsImprovement
  }

  /** The order of the levels, best first. */
  function Rank(l: Level): nat {
    match l
    case Excellent => 4
    case VeryGood => 3
    case Good => 2
    case Fair => 1
    case NeedsImprovement => 0
  }

  /** A higher percentage never earns a lower level. */
  lemma LevelMonotone(a: int, b: int)
    requires a <= b
    ensures Rank(PerformanceLevel(a)) <= Rank(PerformanceLevel(b))
  {
  }

  /** The colour of each level. */
  function LevelTone(l: Level): HistoryPage.Tone {
    match l
    case Excellent => HistoryPage.Success
    case VeryGood => HistoryPage.Success
    case Good => HistoryPage.Warning
    case Fair => HistoryPage.Warning
    case NeedsImprovement => HistoryPage.Error
  }

  /** The results page colours a percentage as the history page does. */
  lemma ToneAgreesWithHistory(percentage: int)
    ensures LevelTone(PerformanceLevel(percentage)) == HistoryPage.PerformanceColor(Finite(percentage))
  {
  }

  /** Seconds per question, rounded (src/pages/ResultsPage.tsx:48). */
  function AvgTime(r: TsxResults): (a: Num)
    ensures r.totalQuestions > 0 ==> a.Finite?
    ensures a.Finite? ==>
              2 * r.totalQuestions * a.value <= 2 * r.totalTime + r.totalQuestions < 2 * r.totalQuestions * a.value + 2 * r.totalQuestions
    ensures r.totalQuestions == 0 ==> a == NaN || a.Infinity?
  {
    JsRound(r.totalTime, r.totalQuestions)
  }

  datatype View = Fallback | Summary(level: Level, avgTime: Num)

  /** Without results or quiz only the fallback is shown; otherwise the level
      and the average time (src/pages/ResultsPage.tsx:23-48). */
  function ResultsView(results: Option<TsxResults>, quiz: Option<Quiz>): (v: View)
    ensures v == Fallback <==> results == None || quiz == None
    ensures v.Summary? ==> v.level == PerformanceLevel(results.value.percentage) && v.avgTime == AvgTime(results.value)
  {
    if results == None || quiz == None then Fallback
    else Summary(PerformanceLevel(results.value.percentage), AvgTime(results.value))
  }

  /** Results from the quiz page always have a finite average time. */
  lemma AttemptAverageFinite(quiz: Quiz, answers: seq<Answer>, totalTime: int)
    requires 0 < |quiz.questions| <= |answers|
    ensures AvgTime(TsxScore(quiz, answers, totalTime)).Finite?
  {
  }
}
