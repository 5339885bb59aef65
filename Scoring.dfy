/** Integer arithmetic shared by both copies of the trust scoring: the
    three-way verdict, `Math.round((p / t) * 100)` as exact half-up rounding,
    and the JavaScript value of a ratio `num / den` of two review counts. */
module Scoring {

  datatype Verdict = Trusted | NotTrusted | InsufficientData

  /** `Math.round((p / t) * 100)` for t > 0: the integer nearest to 100p/t,
      with halves rounded up. */
  function RoundedPercent(p: nat, t: nat): (r: nat)
    requires t > 0
    ensures 2 * t * r <= 200 * p + t < 2 * t * (r + 1)
  {
    (200 * p + t) / (2 * t)
  }

  /** The percentage of a share never exceeds 100, and a full share is 100. */
  lemma {:induction false} RoundedPercentBounds(p: nat, t: nat)
    requires 0 < t && p <= t
    ensures RoundedPercent(p, t) <= 100
    ensures p == t ==> RoundedPercent(p, t) == 100
  {
    var r := RoundedPercent(p, t);
    if r > 100 {
      assert 2 * t * r >= 2 * t * 101 by {
        MulMonotone(2 * t, 101, r);
      }
      assert false;
    }
    if p == t {
      assert 2 * t * r < 2 * t * 101 && 2 * t * 100 < 2 * t * (r + 1);
      if r < 100 {
        MulMonotone(2 * t, r + 1, 100);
        assert false;
      }
    }
  }

  lemma MulMonotone(k: nat, a: nat, b: nat)
    requires a <= b
    ensures k * a <= k * b
  {
  }

  /** More positive reviews out of the same total never lower the percentage. */
  lemma {:induction false} RoundedPercentMonotone(p1: nat, p2: nat, t: nat)
    requires t > 0 && p1 <= p2
    ensures RoundedPercent(p1, t) <= RoundedPercent(p2, t)
  {
    var r1, r2 := RoundedPercent(p1, t), RoundedPercent(p2, t);
    if r1 > r2 {
      // 2t * r1 <= 200 * p1 + t <= 200 * p2 + t < 2t * (r2 + 1) <= 2t * r1
      MulMonotone(2 * t, r2 + 1, r1);
      assert false;
    }
  }

  /** The JavaScript number `num / den` for two counts; when `den` is 0 it is
      NaN (num = 0) or +Infinity (num > 0). */
  datatype Quotient = Quotient(num: nat, den: nat)

  /** `num / den >= a / b` in IEEE arithmetic: NaN compares false and
      +Infinity is above every finite bound. */
  predicate AtLeast(q: Quotient, a: nat, b: nat)
    requires b > 0
  {
    if q.den == 0 then q.num > 0 else q.num * b >= a * q.den
  }

  /** `num / den > a / b` in IEEE arithmetic. */
  predicate Exceeds(q: Quotient, a: nat, b: nat)
    requires b > 0
  {
    if q.den == 0 then q.num > 0 else q.num * b > a * q.den
  }

  /** For a proper quotient the cross-multiplied comparisons are the
      comparisons of the real numbers. */
  lemma {:induction false} QuotientComparesAsReal(q: Quotient, a: nat, b: nat)
    requires q.den > 0 && b > 0
    ensures AtLeast(q, a, b) <==> q.num as real / q.den as real >= a as real / b as real
    ensures Exceeds(q, a, b) <==> q.num as real / q.den as real > a as real / b as real
  {
    var x, y := q.num as real / q.den as real, a as real / b as real;
    assert x * q.den as real == q.num as real;
    assert y * b as real == a as real;
    var d := q.den as real * b as real;
    assert x * d == q.num as real * b as real;
    assert y * d == a as real * q.den as real;
    assert (q.num * b) as real == q.num as real * b as real;
    assert (a * q.den) as real == a as real * q.den as real;
    RealScale(x, y, d);
  }

  lemma RealScale(x: real, y: real, d: real)
    requires d > 0.0
    ensures x >= y <==> x * d >= y * d
    ensures x > y <==> x * d > y * d
  {
    if x >= y {
      assert (x - y) * d >= 0.0;
    }
    if x > y {
      assert (x - y) * d > 0.0;
    }
    if x * d >= y * d {
      assert (x - y) * d >= 0.0;
    }
    if x * d > y * d {
      assert (x - y) * d > 0.0;
    }
  }
}
