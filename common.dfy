/** Values shared by every part of the quiz engine: optional values (JavaScript's
    null), the numbers that rounding a quotient can produce, exact round-half-up
    division, and the left-to-right sum of a list of numbers. */
module Common {

  datatype Option<+T> = None | Some(value: T)

  /** What `Math.round(x)` yields when `x` is a quotient of whole numbers: a whole
      number, or one of the IEEE special values a division by zero produces. */
  datatype Num = Finite(value: int) | NaN | Infinity(negative: bool)

  /** `Math.round(num / den)` for a positive `den`, computed exactly: the whole number
      nearest to the ratio, halves rounded up (Math.round is floor(x + 1/2)). */
  function RoundHalfUp(num: int, den: int): (r: int)
    requires den > 0
    ensures 2 * den * r <= 2 * num + den < 2 * den * r + 2 * den
  {
    (2 * num + den) / (2 * den)
  }

  /** The bracket in RoundHalfUp's contract pins the result down: it is the one
      whole number whose half-open window around it contains the ratio. */
  lemma RoundHalfUpUnique(num: int, den: int, r: int)
    requires den > 0
    requires 2 * den * r <= 2 * num + den < 2 * den * r + 2 * den
    ensures r == RoundHalfUp(num, den)
  {
    var q := RoundHalfUp(num, den);
    if r < q {
      MulMono(2 * den, r + 1, q);
    } else if r > q {
      MulMono(2 * den, q + 1, r);
    }
  }

  lemma MulMono(k: int, a: int, b: int)
    requires k >= 0 && a <= b
    ensures k * a <= k * b
  {
  }

  /** A ratio of a part and a positive whole, in percent, stays in [0, 100]. */
  lemma {:induction false} PercentInRange(part: int, whole: int)
    requires 0 <= part <= whole && whole > 0
    ensures 0 <= RoundHalfUp(100 * part, whole) <= 100
  {
    var r := RoundHalfUp(100 * part, whole);
    if r < 0 {
      MulMono(2 * whole, r + 1, 0);
    }
    if r > 100 {
      MulMono(2 * whole, 101, r);
    }
  }

  /** `Math.round(num / den)` for a non-negative `den`, JavaScript's way: a division
      by zero gives NaN for 0/0 and an infinity otherwise, which Math.round keeps. */
  function JsRound(num: int, den: int): (r: Num)
    requires den >= 0
    ensures r.Finite? <==> den > 0
    ensures r.Finite? ==> 2 * den * r.value <= 2 * num + den < 2 * den * r.value + 2 * den
    ensures r == NaN <==> den == 0 && num == 0
    ensures r.Infinity? ==> r.negative == (num < 0)
  {
    if den > 0 then Finite(RoundHalfUp(num, den))
    else if num == 0 then NaN
    else Infinity(num < 0)
  }

  /** JavaScript's `+` on the numbers above. */
  function Add(a: Num, b: Num): Num {
    match (a, b)
    case (Finite(x), Finite(y)) => Finite(x + y)
    case (NaN, _) => NaN
    case (_, NaN) => NaN
    case (Infinity(n), Infinity(m)) => if n == m then a else NaN
    case (Infinity(_), Finite(_)) => a
    case (Finite(_), Infinity(_)) => b
  }

  /** `Math.round(x / den)` for a positive whole `den` and a number `x` of the kind above. */
  function RoundDiv(x: Num, den: int): (r: Num)
    requires den > 0
    ensures x.Finite? <==> r.Finite?
    ensures x.Finite? ==> r.value == RoundHalfUp(x.value, den)
    ensures !x.Finite? ==> r == x
  {
    match x
    case Finite(v) => Finite(RoundHalfUp(v, den))
    case _ => x
  }

  /** `x >= k` for a number `x` of the kind above: comparisons with NaN are false. */
  predicate AtLeast(x: Num, k: int) {
    match x
    case Finite(v) => v >= k
    case NaN => false
    case Infinity(negative) => !negative
  }

  /** The sum of a list, folded from the left starting at 0. */
  function Sum(s: seq<int>): int {
    if s == [] then 0 else Sum(s[..|s| - 1]) + s[|s| - 1]
  }

  lemma {:induction false} SumNonNegative(s: seq<int>)
    requires forall i :: 0 <= i < |s| ==> s[i] >= 0
    ensures Sum(s) >= 0
  {
    if s != [] {
      SumNonNegative(s[..|s| - 1]);
    }
  }

  /** Overwriting one slot changes the sum by the difference in that slot. */
  lemma {:induction false} SumUpdate(s: seq<int>, i: int, v: int)
    requires 0 <= i < |s|
    ensures Sum(s[i := v]) == Sum(s) - s[i] + v
  {
    var last := |s| - 1;
    if i == last {
      assert s[i := v][..last] == s[..last];
    } else {
      assert s[i := v][..last] == s[..last][i := v];
      SumUpdate(s[..last], i, v);
    }
  }

  /** A sequence of `n` copies of `x`, as a freshly filled array. */
  function Filled<T>(n: nat, x: T): (r: seq<T>)
    ensures |r| == n
    ensures forall i :: 0 <= i < n ==> r[i] == x
  {
    seq(n, _ => x)
  }

  lemma {:induction false} SumOfZeros(n: nat)
    ensures Sum(Filled(n, 0)) == 0
  {
    if n > 0 {
      assert Filled(n, 0)[..n - 1] == Filled(n - 1, 0);
      SumOfZeros(n - 1);
    }
  }

  function Min(a: int, b: int): int {
    if a <= b then a else b
  }
}
