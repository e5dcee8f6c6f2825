/** The algebra behind the input shaper of Marlin/src/module/shaper/AxisInputShaper.cpp,
    over exact reals: sums over pulse trains, the quadratic position law of a move, the
    quadratic a pulse contributes to the shaped position, the change of time origin for a
    quadratic, the epsilon snap of the combined coefficients, and the derivation of the
    shift filter from the forward filter. */
module ShaperMath {

  function Abs(x: real): real
  {
    if x < 0.0 then -x else x
  }

  /** Sum(s, lo, hi) is s[lo] + ... + s[hi - 1]. */
  function Sum(s: seq<real>, lo: nat, hi: nat): real
    requires lo <= hi <= |s|
    decreases hi - lo
  {
    if lo == hi then 0.0 else Sum(s, lo, hi - 1) + s[hi - 1]
  }

  /** Dot(a, b, n) is a[0] * b[0] + ... + a[n - 1] * b[n - 1]. */
  function Dot(a: seq<real>, b: seq<real>, n: nat): real
    requires n <= |a| && n <= |b|
  {
    if n == 0 then 0.0 else Dot(a, b, n - 1) + a[n - 1] * b[n - 1]
  }

  /** A sum can be peeled from the front as well as from the back. */
  lemma {:induction false} SumFront(s: seq<real>, lo: nat, hi: nat)
    requires lo < hi <= |s|
    ensures Sum(s, lo, hi) == s[lo] + Sum(s, lo + 1, hi)
    decreases hi - lo
  {
    if lo + 1 < hi {
      SumFront(s, lo, hi - 1);
    }
  }

  /** The first n elements of s, in reverse order. */
  function Reverse(s: seq<real>, n: nat): (r: seq<real>)
    requires n <= |s|
    ensures |r| == n && forall k :: 0 <= k < n ==> r[k] == s[n - 1 - k]
  {
    seq(n, k requires 0 <= k < n => s[n - 1 - k])
  }

  /** Reversal keeps a sum: the first k elements of the reversal are the last k of s. */
  lemma {:induction false} SumReverse(s: seq<real>, n: nat, k: nat)
    requires k <= n <= |s|
    ensures Sum(Reverse(s, n), 0, k) == Sum(s, n - k, n)
  {
    if k > 0 {
      SumReverse(s, n, k - 1);
      SumFront(s, n - k, n);
    }
  }

  /** Every element scaled by f. */
  function Scale(s: seq<real>, f: real): (r: seq<real>)
    ensures |r| == |s| && forall k :: 0 <= k < |s| ==> r[k] == s[k] * f
  {
    seq(|s|, k requires 0 <= k < |s| => s[k] * f)
  }

  lemma {:induction false} SumScale(s: seq<real>, f: real, n: nat)
    requires n <= |s|
    ensures Sum(Scale(s, f), 0, n) == Sum(s, 0, n) * f
  {
    if n > 0 {
      SumScale(s, f, n - 1);
    }
  }

  /** Every element minus d. */
  function Minus(s: seq<real>, d: real): (r: seq<real>)
    ensures |r| == |s| && forall k :: 0 <= k < |s| ==> r[k] == s[k] - d
  {
    seq(|s|, k requires 0 <= k < |s| => s[k] - d)
  }

  /** Shifting every offset by d moves the weighted sum by d times the total weight. */
  lemma {:induction false} DotMinus(a: seq<real>, t: seq<real>, d: real, n: nat)
    requires n <= |a| && n <= |t|
    ensures Dot(a, Minus(t, d), n) == Dot(a, t, n) - d * Sum(a, 0, n)
  {
    if n > 0 {
      DotMinus(a, t, d, n - 1);
    }
  }

  /** The forward offsets negated: an advance in the forward filter becomes a delay. */
  function Negate(s: seq<real>): (r: seq<real>)
    ensures |r| == |s| && forall k :: 0 <= k < |s| ==> r[k] == -s[k]
  {
    seq(|s|, k requires 0 <= k < |s| => -s[k])
  }

  /** The shift filter's amplitudes: the forward amplitudes reversed and divided by their
      sum (multiplied by its inverse, as the source does). */
  function ShiftAmplitudes(a: seq<real>): (r: seq<real>)
    requires Sum(a, 0, |a|) != 0.0
    ensures |r| == |a|
  {
    Scale(Reverse(a, |a|), 1.0 / Sum(a, 0, |a|))
  }

  /** The shift filter's offsets before centring: the forward offsets (already in
      milliseconds) reversed and negated. */
  function ReversedDelays(t: seq<real>): (r: seq<real>)
    ensures |r| == |t|
  {
    Negate(Reverse(t, |t|))
  }

  /** The amplitude-weighted centroid `ts` of the reversed delays. */
  function Centroid(a: seq<real>, t: seq<real>): real
    requires |a| == |t| && Sum(a, 0, |a|) != 0.0
  {
    Dot(ShiftAmplitudes(a), ReversedDelays(t), |a|)
  }

  /** The shift filter's offsets: the reversed delays moved so that the centroid is 0. */
  function ShiftOffsets(a: seq<real>, t: seq<real>): (r: seq<real>)
    requires |a| == |t| && Sum(a, 0, |a|) != 0.0
    ensures |r| == |t|
  {
    Minus(ReversedDelays(t), Centroid(a, t))
  }

  /** The shift filter has unit gain: its amplitudes sum to 1. */
  lemma ShiftAmplitudesSumToOne(a: seq<real>)
    requires Sum(a, 0, |a|) != 0.0
    ensures Sum(ShiftAmplitudes(a), 0, |a|) == 1.0
  {
    var s := Sum(a, 0, |a|);
    SumScale(Reverse(a, |a|), 1.0 / s, |a|);
    SumReverse(a, |a|, |a|);
    assert Sum(ShiftAmplitudes(a), 0, |a|) == s * (1.0 / s);
  }

  /** The shift filter does not delay: its amplitude-weighted offsets sum to 0. */
  lemma ShiftOffsetsCentred(a: seq<real>, t: seq<real>)
    requires |a| == |t| && Sum(a, 0, |a|) != 0.0
    ensures Dot(ShiftAmplitudes(a), ShiftOffsets(a, t), |a|) == 0.0
  {
    ShiftAmplitudesSumToOne(a);
    DotMinus(ShiftAmplitudes(a), ReversedDelays(t), Centroid(a, t), |a|);
  }

  /** Shift pulse n - 1 - i takes forward pulse i's amplitude times the inverse of the
      amplitude sum. */
  lemma ShiftAmplitudePairing(a: seq<real>, i: nat)
    requires Sum(a, 0, |a|) != 0.0 && i < |a|
    ensures ShiftAmplitudes(a)[|a| - 1 - i] == a[i] * (1.0 / Sum(a, 0, |a|))
  {
    assert Reverse(a, |a|)[|a| - 1 - i] == a[i];
  }

  /** Shift pulse n - 1 - i takes forward pulse i's offset, negated, minus the centroid ts. */
  lemma ShiftOffsetPairing(a: seq<real>, t: seq<real>, i: nat)
    requires |a| == |t| && Sum(a, 0, |a|) != 0.0 && i < |a|
    ensures ShiftOffsets(a, t)[|a| - 1 - i] == -t[i] - Centroid(a, t)
  {
    assert Reverse(t, |t|)[|t| - 1 - i] == t[i];
  }

  /** A quadratic a * x^2 + b * x + c in the time x elapsed since a reference instant. */
  datatype Coeffs = Coeffs(a: real, b: real, c: real)

  function Quad(q: Coeffs, x: real): real
  {
    q.a * x * x + q.b * x + q.c
  }

  function Add(p: Coeffs, q: Coeffs): Coeffs
  {
    Coeffs(p.a + q.a, p.b + q.b, p.c + q.c)
  }

  lemma QuadAdd(p: Coeffs, q: Coeffs, x: real)
    ensures Quad(Add(p, q), x) == Quad(p, x) + Quad(q, x)
  {
  }

  /** The position law of a move along one axis, `t` after the move's start: the start
      position plus the axis ratio times the distance covered at constant acceleration. */
  function MovePosition(startPos: real, axisR: real, startV: real, accel: real, t: real): real
  {
    startPos + axisR * (startV * t + 0.5 * accel * t * t)
  }

  /** The quadratic updateParamABC stores for a pulse of amplitude `amp` and offset `offset`
      on a move starting at `startT`, with the window's time origin at `leftTime`. */
  function PulseCoefficients(amp: real, offset: real, startV: real, accel: real, startT: real,
                             leftTime: real, startPos: real, axisR: real): Coeffs
  {
    var dT := startT - leftTime;
    var t := offset - dT;
    Coeffs(0.5 * accel * amp * axisR,
           (startV + accel * t) * amp * axisR,
           (startPos + (startV * t + 0.5 * accel * t * t) * axisR) * amp)
  }

  /** The pulse's quadratic, evaluated x after the window's time origin, is the pulse's
      amplitude times the move's position at the pulse's instant, which lies
      offset - (startT - leftTime) + x into the move. */
  lemma PulseCoefficientsLaw(amp: real, offset: real, startV: real, accel: real, startT: real,
                             leftTime: real, startPos: real, axisR: real, x: real)
    ensures Quad(PulseCoefficients(amp, offset, startV, accel, startT, leftTime, startPos, axisR), x)
            == amp * MovePosition(startPos, axisR, startV, accel, offset - (startT - leftTime) + x)
  {
    var t := offset - (startT - leftTime);
    var q := PulseCoefficients(amp, offset, startV, accel, startT, leftTime, startPos, axisR);
    calc {
      Quad(q, x);
      0.5 * accel * amp * axisR * x * x + (startV + accel * t) * amp * axisR * x
        + (startPos + (startV * t + 0.5 * accel * t * t) * axisR) * amp;
      amp * (startPos + axisR * (startV * (t + x) + 0.5 * accel * ((t + x) * (t + x))));
    }
  }

  /** The same quadratic with its time origin moved d later, as updateParamLeftTime
      computes it: c + a * d^2 + b * d, b + 2 * a * d, a. */
  function Recentred(q: Coeffs, d: real): Coeffs
  {
    Coeffs(q.a, q.b + 2.0 * q.a * d, q.c + q.a * d * d + q.b * d)
  }

  /** The change of variable: the recentred quadratic at x is the old one at x + d. */
  lemma RecentredLaw(q: Coeffs, d: real, x: real)
    ensures Quad(Recentred(q, d), x) == Quad(q, x + d)
  {
    var y := x + d;
    assert q.a * y * y == q.a * x * x + 2.0 * q.a * d * x + q.a * d * d by {
      assert y * y == x * x + 2.0 * d * x + d * d;
    }
    assert (q.b + 2.0 * q.a * d) * x == q.b * x + 2.0 * q.a * d * x;
    assert q.b * y == q.b * x + q.b * d;
  }

  /** Moving the origin by d and back by -d restores the coefficients. */
  lemma RecentredInverse(q: Coeffs, d: real)
    ensures Recentred(Recentred(q, d), -d) == q
  {
    var r := Recentred(q, d);
    assert r.b + 2.0 * r.a * -d == q.b;
    calc {
      r.c + r.a * -d * -d + r.b * -d;
      q.c + q.a * d * d + q.b * d + q.a * d * d - (q.b + 2.0 * q.a * d) * d;
      q.c;
    }
  }

  /** The epsilon snap of updateABC: a coefficient below epsilon in magnitude becomes 0. */
  function Snap(x: real, epsilon: real): (r: real)
    ensures r == x || (r == 0.0 && Abs(x) < epsilon)
    ensures Abs(x) >= epsilon ==> r == x
  {
    if Abs(x) < epsilon then 0.0 else x
  }
}
