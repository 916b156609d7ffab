/** `normalizeColumns` (v2/app.js:66-84): the three column widths, in
    percent, that the page lays out. Each input is coerced, rounded and
    clamped to [5, 90]. Widths that do not already total 100 are rescaled
    toward 100, the third takes up the rounding error, and if clamping the
    third breaks the total again the residual goes to the middle column. */
module Columns {
  import opened Json

  const MinWidth: int := 5
  const MaxWidth: int := 90

  /** `clamp` (v2/app.js:31) on integer widths. */
  function ClampInt(x: int, lo: int, hi: int): (r: int)
    requires lo <= hi
    ensures lo <= r <= hi
    ensures lo <= x <= hi ==> r == x
    ensures x < lo ==> r == lo
    ensures hi < x ==> r == hi
  {
    if x < lo then lo else if hi < x then hi else x
  }

  /** On integers the page's `clamp` is this one. */
  lemma ClampIntAgrees(x: int, lo: int, hi: int)
    requires lo <= hi
    ensures Clamp(Fin(x as real), lo as real, hi as real) == Fin(ClampInt(x, lo, hi) as real)
  {
  }

  /** `clamp(Math.round(Number(x) || 0), 5, 90)` for one input, as an
      integer. */
  function StartWidth(x: Number): (r: int)
    ensures MinWidth <= r <= MaxWidth
    ensures Clamp(Round(Or(x, Zero)), MinWidth as real, MaxWidth as real) == Fin(r as real)
  {
    var n := Or(x, Zero);
    if n.Fin? then ClampInt((n.value + 0.5).Floor, MinWidth, MaxWidth)
    else if n == PosInf then MaxWidth
    else MinWidth
  }

  /** `Math.round(x * (100 / sum))` in exact arithmetic. */
  function ScaledRound(x: int, sum: int): int
    requires sum > 0
  {
    (200 * x + sum) / (2 * sum)
  }

  /** The exact `Math.round` of the scaled width. */
  lemma ScaledRoundIsRound(x: int, sum: int)
    requires sum > 0
    ensures ScaledRound(x, sum) == ((x as real) * (100.0 / sum as real) + 0.5).Floor
  {
    var q := ScaledRound(x, sum);
    var v := (x as real) * (100.0 / sum as real) + 0.5;
    assert v == (200 * x + sum) as real / (2 * sum) as real;
    assert 2 * sum * q <= 200 * x + sum < 2 * sum * (q + 1);
    assert (2 * sum * q) as real == (2 * sum) as real * q as real;
    assert (2 * sum * (q + 1)) as real == (2 * sum) as real * (q + 1) as real;
    assert q as real <= v < (q + 1) as real;
  }

  /** The three widths the page uses for `cols`. */
  function Normalized(cols: seq<Number>): (r: seq<int>)
    requires |cols| == 3
    ensures |r| == 3
  {
    var a, b, c := StartWidth(cols[0]), StartWidth(cols[1]), StartWidth(cols[2]);
    var sum := a + b + c;
    if sum == 100 then [a, b, c]
    else
      var a1 := ScaledRound(a, sum);
      var b1 := ScaledRound(b, sum);
      var c1 := ClampInt(100 - a1 - b1, MinWidth, MaxWidth);
      var total := a1 + b1 + c1;
      var b2 := if total != 100 then ClampInt(b1 + (100 - total), MinWidth, MaxWidth) else b1;
      [a1, b2, c1]
  }

  /** The page's computation, step by step on the locals `a`, `b`, `c`. */
  method NormalizeColumns(cols: seq<Number>) returns (r: seq<int>)
    requires |cols| == 3
    ensures r == Normalized(cols)
    ensures |r| == 3 && r[0] + r[1] + r[2] == 100
    ensures MinWidth <= r[2] <= MaxWidth
  {
    var a := StartWidth(cols[0]);
    var b := StartWidth(cols[1]);
    var c := StartWidth(cols[2]);
    var sum := a + b + c;
    if sum == 100 {
      return [a, b, c];
    }
    a := ScaledRound(a, sum);
    b := ScaledRound(b, sum);
    c := 100 - a - b;
    c := ClampInt(c, MinWidth, MaxWidth);
    var total := a + b + c;
    if total != 100 {
      b := ClampInt(b + (100 - total), MinWidth, MaxWidth);
    }
    r := [a, b, c];
    NormalizedTotal(cols);
    NormalizedBounds(cols);
  }

  lemma DivBelow(n: int, d: int, k: int)
    requires d > 0 && n < k * d
    ensures n / d < k
  {
  }

  lemma DivSucc(n: int, d: int)
    requires d > 0
    ensures d * (n / d + 1) > n
  {
  }

  lemma MulCancel(s: int, m: int, k: int)
    requires s > 0 && s * k < s * m
    ensures k < m
  {
  }

  lemma DivAtLeast(n: int, d: int, k: int)
    requires d > 0 && k * d <= n
    ensures k <= n / d
  {
    DivSucc(n, d);
    MulCancel(d, n / d + 1, k);
  }

  /** Bounds on one rescaled width: with every width in [5, 90], each
      rescaled width lies in [3, 90]. */
  lemma ScaledBounds(x: int, y: int, z: int)
    requires MinWidth <= x <= MaxWidth && MinWidth <= y <= MaxWidth && MinWidth <= z <= MaxWidth
    ensures 3 <= ScaledRound(x, x + y + z) <= MaxWidth
  {
    var sum := x + y + z;
    DivAtLeast(200 * x + sum, 2 * sum, 3);
    DivBelow(200 * x + sum, 2 * sum, MaxWidth + 1);
  }

  /** The first two rescaled widths together are at least 10, so the third
      is never more than 90 before its clamp. */
  lemma ScaledPairAtLeastTen(x: int, y: int, z: int)
    requires MinWidth <= x <= MaxWidth && MinWidth <= y <= MaxWidth && MinWidth <= z <= MaxWidth
    ensures ScaledRound(x, x + y + z) + ScaledRound(y, x + y + z) >= 10
  {
    var sum := x + y + z;
    var p, q := ScaledRound(x, sum), ScaledRound(y, sum);
    DivSucc(200 * x + sum, 2 * sum);
    DivSucc(200 * y + sum, 2 * sum);
    assert 2 * sum * (p + 1) + 2 * sum * (q + 1) == 2 * sum * (p + q + 2);
    assert 2 * sum * 11 <= 200 * (x + y) + 2 * sum;
    MulCancel(2 * sum, p + q + 2, 11);
  }

  /** Whatever the inputs, the three widths total exactly 100: the clamp on
      the third can only lift it from below 5, and the residual then fits
      the middle column. */
  lemma NormalizedTotal(cols: seq<Number>)
    requires |cols| == 3
    ensures Normalized(cols)[0] + Normalized(cols)[1] + Normalized(cols)[2] == 100
  {
    var a, b, c := StartWidth(cols[0]), StartWidth(cols[1]), StartWidth(cols[2]);
    var sum := a + b + c;
    if sum != 100 {
      ScaledPairAtLeastTen(a, b, c);
      ScaledBounds(a, b, c);
      ScaledBounds(b, a, c);
    }
  }

  /** The third width always lies in [5, 90]; the first two lie in
      [3, 90] and can fall below 5. */
  lemma NormalizedBounds(cols: seq<Number>)
    requires |cols| == 3
    ensures 3 <= Normalized(cols)[0] <= MaxWidth
    ensures 3 <= Normalized(cols)[1] <= MaxWidth
    ensures MinWidth <= Normalized(cols)[2] <= MaxWidth
  {
    var a, b, c := StartWidth(cols[0]), StartWidth(cols[1]), StartWidth(cols[2]);
    var sum := a + b + c;
    if sum != 100 {
      ScaledBounds(a, b, c);
      ScaledBounds(b, a, c);
    }
  }

  /** Integer widths in [5, 90] that already total 100 come back unchanged. */
  lemma NormalizedFixedPoint(x: int, y: int, z: int)
    requires MinWidth <= x <= MaxWidth && MinWidth <= y <= MaxWidth && MinWidth <= z <= MaxWidth
    requires x + y + z == 100
    ensures Normalized([Fin(x as real), Fin(y as real), Fin(z as real)]) == [x, y, z]
  {
    assert (x as real + 0.5).Floor == x;
    assert (y as real + 0.5).Floor == y;
    assert (z as real + 0.5).Floor == z;
  }

  /** The first and the middle width can end below 5: the minimum is not
      enforced on them. */
  lemma NormalizedLowFirstOrMiddle()
    ensures Normalized([Fin(5.0), Fin(90.0), Fin(90.0)]) == [3, 49, 48]
    ensures Normalized([Fin(90.0), Fin(5.0), Fin(90.0)]) == [49, 3, 48]
  {
    assert (5.0 + 0.5).Floor == 5;
    assert (90.0 + 0.5).Floor == 90;
  }

  /** A third width rounded below 5 is lifted to 5 and the middle column
      gives up the difference. */
  lemma NormalizedResidualToMiddle()
    ensures Normalized([Fin(90.0), Fin(90.0), Fin(5.0)]) == [49, 46, 5]
  {
    assert (5.0 + 0.5).Floor == 5;
    assert (90.0 + 0.5).Floor == 90;
  }

  /** Normalizing is not idempotent: widths it produced can be changed by
      normalizing them again, as happens when the editor is opened on a
      saved layout and saved once more. */
  lemma NormalizedNotIdempotent()
    ensures Normalized([Fin(3.0), Fin(49.0), Fin(48.0)]) == [5, 48, 47]
  {
    assert (3.0 + 0.5).Floor == 3;
    assert (49.0 + 0.5).Floor == 49;
    assert (48.0 + 0.5).Floor == 48;
  }
}
