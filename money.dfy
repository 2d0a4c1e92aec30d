// Exact-integer readings of the percentage arithmetic the code does in
// floating point: Python's int(x * p/100) truncates toward zero, JavaScript's
// Math.round(y) is floor(y + 1/2).
module Money {

  /** int(x * pct / 100) in Python: the quotient truncated toward zero. */
  function TruncPercent(x: int, pct: nat): (r: int)
    ensures x >= 0 ==> 100 * r <= x * pct < 100 * r + 100
    ensures x <= 0 ==> 100 * r - 100 < x * pct <= 100 * r
  {
    if x * pct >= 0 then (x * pct) / 100 else -((-(x * pct)) / 100)
  }

  /** Math.round(x * pct / 100) in JavaScript: the nearest integer, halves rounded up. */
  function RoundPercent(x: int, pct: nat): (r: int)
    ensures 100 * r - 50 <= x * pct < 100 * r + 50
  {
    (x * pct + 50) / 100
  }

  /** The two readings never differ by more than one; for a non-negative
      amount the rounded figure is the truncated one or one more. */
  lemma {:induction false} RoundVsTrunc(x: int, pct: nat)
    ensures -1 <= RoundPercent(x, pct) - TruncPercent(x, pct) <= 1
    ensures x >= 0 ==> 0 <= RoundPercent(x, pct) - TruncPercent(x, pct) <= 1
  {
    var n := x * pct;
    var r, t := RoundPercent(x, pct), TruncPercent(x, pct);
    assert 100 * r - 50 <= n < 100 * r + 50;
    if n >= 0 {
      assert 100 * t <= n < 100 * t + 100;
    } else {
      assert 100 * t - 100 < n <= 100 * t;
    }
  }
}
