/** The history page (src/pages/HistoryPage.jsx): sums over the stored history
    entries, the average score and the colour and icon bands of a percentage.
    Percentages are the store's numbers, so the NaN of a quiz without questions
    flows into the average as JavaScript's arithmetic makes it. */
module HistoryPage {
  import opened Common
  import opened QuizStore

  /** The running total of the percentages, from 0, left to right. */
  function PercentSum(h: seq<HistoryEntry>): Num {
    if h == [] then Finite(0) else Add(PercentSum(h[..|h| - 1]), h[|h| - 1].results.percentage)
  }

  /** The rounded mean of the percentages, 0 for an empty history
      (src/pages/HistoryPage.jsx:32-34). */
  function AverageScore(h: seq<HistoryEntry>): (r: Num)
    ensures h == [] ==> r == Finite(0)
  {
    if |h| > 0 then RoundDiv(PercentSum(h), |h|) else Finite(0)
  }

  function TotalQuestions(h: seq<HistoryEntry>): nat {
    if h == [] then 0 else TotalQuestions(h[..|h| - 1]) + h[|h| - 1].results.totalQuestions
  }

  function TotalCorrect(h: seq<HistoryEntry>): nat {
    if h == [] then 0 else TotalCorrect(h[..|h| - 1]) + h[|h| - 1].results.correct
  }

  predicate PercentagesInRange(h: seq<HistoryEntry>) {
    forall i :: 0 <= i < |h| ==> h[i].results.percentage.Finite? && 0 <= h[i].results.percentage.value <= 100
  }

  lemma {:induction false} PercentSumBounds(h: seq<HistoryEntry>)
    requires PercentagesInRange(h)
    ensures PercentSum(h).Finite? && 0 <= PercentSum(h).value <= 100 * |h|
  {
    if h != [] {
      assert PercentagesInRange(h[..|h| - 1]) by {
        forall i | 0 <= i < |h| - 1
          ensures h[..|h| - 1][i] == h[i]
        {
        }
      }
      PercentSumBounds(h[..|h| - 1]);
    }
  }

  /** The average lies in [0, 100] when every percentage does. */
  lemma AverageInRange(h: seq<HistoryEntry>)
    requires PercentagesInRange(h)
    ensures AverageScore(h).Finite? && 0 <= AverageScore(h).value <= 100
  {
    if |h| > 0 {
      PercentSumBounds(h);
      var s := PercentSum(h).value;
      var r := RoundHalfUp(s, |h|);
      if r > 100 {
        MulMono(2 * |h|, 101, r);
      }
      if r < 0 {
        MulMono(2 * |h|, r + 1, 0);
      }
    }
  }

  /** One NaN percentage, from a quiz without questions, makes the average NaN. */
  lemma {:induction false} NaNPoisonsAverage(h: seq<HistoryEntry>, k: nat)
    requires k < |h| && h[k].results.percentage == NaN
    ensures PercentSum(h) == NaN && AverageScore(h) == NaN
  {
    if k < |h| - 1 {
      NaNPoisonsAverage(h[..|h| - 1], k);
    }
  }

  /** In a store whose results are consistent the correct answers never exceed
      the questions. */
  lemma {:induction false} CorrectAtMostQuestions(h: seq<HistoryEntry>)
    requires forall i :: 0 <= i < |h| ==> Consistent(h[i].results)
    ensures TotalCorrect(h) <= TotalQuestions(h)
  {
    if h != [] {
      assert forall i :: 0 <= i < |h| - 1 ==> h[..|h| - 1][i] == h[i];
      CorrectAtMostQuestions(h[..|h| - 1]);
    }
  }

  lemma HistoryTotals(s: StoreState)
    requires s.Valid()
    ensures TotalCorrect(s.quizHistory) <= TotalQuestions(s.quizHistory)
  {
    CorrectAtMostQuestions(s.quizHistory);
  }

  datatype Tone = Success | Warning | Error

  datatype Icon = Trophy | Target | TrendingUp

  /** At least 80 is success, at least 60 warning, anything else, NaN included,
      error (src/pages/HistoryPage.jsx:20-24). */
  function PerformanceColor(p: Num): (t: Tone)
    ensures t == Success <==> AtLeast(p, 80)
    ensures t == Warning <==> AtLeast(p, 60) && !AtLeast(p, 80)
    ensures p.Finite? ==> (t == Error <==> p.value < 60)
  {
    if AtLeast(p, 80) then Success else if AtLeast(p, 60) then Warning else Error
  }

  /** The icon with the same thresholds (src/pages/HistoryPage.jsx:26-30). */
  function PerformanceIcon(p: Num): (i: Icon)
    ensures i == Trophy <==> AtLeast(p, 80)
    ensures i == Target <==> AtLeast(p, 60) && !AtLeast(p, 80)
  {
    if AtLeast(p, 80) then Trophy else if AtLeast(p, 60) then Target else TrendingUp
  }

  function IconOfTone(t: Tone): Icon {
    match t
    case Success => Trophy
    case Warning => Target
    case Error => TrendingUp
  }

  /** Icon and colour always tell the same band. */
  lemma IconMatchesColor(p: Num)
    ensures PerformanceIcon(p) == IconOfTone(PerformanceColor(p))
  {
  }
}
