/**
 Fixed-point virtual time. A vstamp is an int64 counting units of 1/SCALE.
 Go's int64 arithmetic wraps and its division truncates toward zero; both are
 written out here, so that the lemmas say where the wrap is really reachable.
 */
module VTime {
  import opened Wrappers

  const SCALE := 1_000
  const MIN_INT64 := -0x8000_0000_0000_0000
  const MAX_INT64 := 0x7FFF_FFFF_FFFF_FFFF
  const MAX_COST := MAX_INT64 / SCALE

  type int64 = x: int | MIN_INT64 <= x <= MAX_INT64

  function Max(a: int, b: int): int {
    if a < b then b else a
  }

  /** Two's-complement wrap-around of a mathematical result. */
  function Wrap64(x: int): int64 {
    (x - MIN_INT64) % 0x1_0000_0000_0000_0000 + MIN_INT64
  }

  /** Go's quotient: truncated toward zero. */
  function TruncDiv(a: int, b: int): int
    requires b > 0
  {
    if a >= 0 then a / b else -(-a / b)
  }

  /** Go's remainder: it takes the sign of the dividend. */
  function TruncMod(a: int, b: int): int
    requires b > 0
  {
    a - TruncDiv(a, b) * b
  }

  /** The virtual-time advance of one enqueue, in machine arithmetic. */
  function Stride(cost: int64, weight: int64): int64
    requires weight >= 1
  {
    TruncDivBound(Wrap64(cost * SCALE), weight);
    Max(1, TruncDiv(Wrap64(cost * SCALE), weight))
  }

  /** The same advance over unbounded integers: what the stamp is meant to be. */
  function IdealStride(cost: int, weight: int): (s: int)
    requires cost >= 1 && weight >= 1
    ensures s >= 1
  {
    Max(1, cost * SCALE / weight)
  }

  /** The sum of the first n strides: how far a timeline has advanced after n jobs. */
  function SumTo(strides: seq<int>, n: nat): int
    requires n <= |strides|
  {
    if n == 0 then 0 else SumTo(strides, n - 1) + strides[n - 1]
  }

  lemma {:induction false} SumToAppend(strides: seq<int>, x: int, n: nat)
    requires n <= |strides|
    ensures SumTo(strides + [x], n) == SumTo(strides, n)
  {
    if n > 0 { SumToAppend(strides, x, n - 1); }
  }

  function NormalizeCost(cost: int64): (c: int64)
    ensures cost >= 1 ==> c == cost
    ensures cost < 1 ==> c == 1
  {
    Max(1, cost)
  }

  function NormalizeWeight(weight: int64): (r: Result<int64, Error>)
    ensures r.Ok? <==> weight >= 0
    ensures weight > 0 ==> r == Ok(weight)
    ensures weight == 0 ==> r == Ok(1)
    ensures r.Err? ==> r.error == ErrInvalidWeight
  {
    if weight == 0 then Ok(1)
    else if weight < 0 then Err(ErrInvalidWeight)
    else Ok(weight)
  }

  /**
   The checked stamp. It is the exact mathematical sum whenever both the scaled
   cost and the sum fit an int64, and an overflow error in every other case; no
   intermediate step wraps.
   */
  function NextVStamp(vtime: int64, cost: int64, weight: int64): (r: Result<int64, Error>)
    requires cost >= 1 && weight >= 1
    ensures r.Ok? <==> cost * SCALE <= MAX_INT64 && vtime + IdealStride(cost, weight) <= MAX_INT64
    ensures r.Ok? ==> r.value == vtime + IdealStride(cost, weight)
    ensures r.Err? ==> r.error == ErrVTimeOverflow
  {
    if cost > MAX_COST then Err(ErrVTimeOverflow)
    else
      StrideIsIdeal(cost, weight);
      var s := Stride(cost, weight);
      if vtime > Wrap64(MAX_INT64 - s) then Err(ErrVTimeOverflow)
      else Ok(Wrap64(vtime + s))
  }

  lemma TruncDivBound(a: int, b: int)
    requires MIN_INT64 <= a <= MAX_INT64 && b >= 1
    ensures MIN_INT64 <= TruncDiv(a, b) <= MAX_INT64
  {
    QuotientBetween(if a >= 0 then a else -a, b);
  }

  lemma QuotientBetween(n: int, b: int)
    requires n >= 0 && b >= 1
    ensures 0 <= n / b <= n
  {
    EuclidBetween(n, b, n / b, n % b);
  }

  lemma EuclidBetween(n: int, b: int, q: int, r: int)
    requires n >= 0 && b >= 1 && n == q * b + r && 0 <= r < b
    ensures 0 <= q <= n
  {
    assert q < 0 ==> (-1 - q) * b >= 0;
    assert q >= 0 ==> q * (b - 1) >= 0;
  }

  /** For every admitted cost the machine stride is the ideal one: nothing wraps before the division. */
  lemma StrideIsIdeal(cost: int64, weight: int64)
    requires 1 <= cost <= MAX_COST && weight >= 1
    ensures Wrap64(cost * SCALE) == cost * SCALE
    ensures Stride(cost, weight) == IdealStride(cost, weight)
  {
    assert 0 <= cost * SCALE <= MAX_INT64;
  }

  /** Dropping the cost guard is not harmless: one unit above it the product wraps and the stride collapses to 1. */
  lemma UnguardedStrideCollapses()
    ensures Stride(MAX_COST + 1, 1) == 1 && IdealStride(MAX_COST + 1, 1) > MAX_INT64
  {
  }

  /** The stride is the cost-to-weight quotient rounded down, or the one-unit floor when that quotient is below one. */
  lemma StrideBrackets(cost: int, weight: int)
    requires cost >= 1 && weight >= 1
    ensures var s := IdealStride(cost, weight);
            cost * SCALE < (s + 1) * weight && (s * weight <= cost * SCALE || (s == 1 && cost * SCALE < weight))
  {
    var q := cost * SCALE / weight;
    assert cost * SCALE == q * weight + cost * SCALE % weight;
    assert (q + 1) * weight == q * weight + weight;
    if q == 0 {
      assert q * weight == 0;
      assert (1 + 1) * weight == 2 * weight;
    } else {
      QuotientBetween(cost * SCALE, weight);
    }
  }

  /** The cost served per unit of weight, in the same fixed-point unit as a stride. */
  ghost function Share(cost: int, weight: int): real
    requires weight >= 1
  {
    (cost * SCALE) as real / weight as real
  }

  /** Truncation loses, and the floor gains, less than one unit per job. */
  lemma TruncationBelowOne(cost: int, weight: int)
    requires cost >= 1 && weight >= 1
    ensures var s := IdealStride(cost, weight) as real;
            s - 1.0 < Share(cost, weight) < s + 1.0
  {
    StrideBrackets(cost, weight);
    var s := IdealStride(cost, weight);
    var c, w := (cost * SCALE) as real, weight as real;
    assert (s + 1) as real * w == ((s + 1) * weight) as real;
    assert s as real * w == (s * weight) as real;
    DivBetween(c, w, (s + 1) as real);
    if s * weight <= cost * SCALE {
      DivAtLeast(c, w, s as real);
    } else {
      DivPositive(c, w);
    }
  }

  lemma DivBetween(c: real, w: real, k: real)
    requires w > 0.0 && c < k * w
    ensures c / w < k
  {
    var q := c / w;
    assert q * w == c;
    if q >= k { assert q * w >= k * w; }
  }

  lemma DivAtLeast(c: real, w: real, k: real)
    requires w > 0.0 && k * w <= c
    ensures k <= c / w
  {
    var q := c / w;
    assert q * w == c;
    if q < k { assert q * w < k * w; }
  }

  lemma DivPositive(c: real, w: real)
    requires w > 0.0 && c > 0.0
    ensures c / w > 0.0
  {
    var q := c / w;
    assert q * w == c;
  }
}
