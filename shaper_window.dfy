/** The sliding window of Marlin/src/module/shaper/AxisInputShaper.cpp (class ShaperWindow):
    one entry per shift pulse, each holding the quadratic that pulse contributes to the
    shaped position, measured from the entry's time origin `leftTime`, plus the combined
    quadratic handed to the segment sink. */
module ShaperWindowModel {
  import opened ShaperMath

  /** The capacity of the pulse arrays; EI3, the largest filter, has five pulses. */
  const MAX_PULSES: nat := 5

  /** ShaperWindowParams: the pulse's amplitude A and offset T (copied from the shift
      filter), its quadratic a, b, c, the instant `time` it currently evaluates, the move
      under it, and the time origin of its quadratic. */
  datatype WindowParam = WindowParam(
    A: real, T: real,
    a: real, b: real, c: real,
    time: real, moveIndex: nat, leftTime: real)

  function CoeffsOf(p: WindowParam): Coeffs
  {
    Coeffs(p.a, p.b, p.c)
  }

  /** The entry with its quadratic replaced by `q`, measured from `leftTime`. */
  function WithCoeffs(p: WindowParam, q: Coeffs, leftTime: real): (r: WindowParam)
    ensures CoeffsOf(r) == q && r.leftTime == leftTime
    ensures r.A == p.A && r.T == p.T && r.time == p.time && r.moveIndex == p.moveIndex
  {
    p.(a := q.a, b := q.b, c := q.c, leftTime := leftTime)
  }

  /** What updateParamLeftTime does to one entry: an entry already measured from `leftTime`
      is left alone, any other is re-expressed from the new origin. */
  function RecentreParam(p: WindowParam, leftTime: real): WindowParam
  {
    if p.leftTime == leftTime then p
    else WithCoeffs(p, Recentred(CoeffsOf(p), leftTime - p.leftTime), leftTime)
  }

  /** Re-centring changes how a contribution is written, not what it is: at every absolute
      instant t the entry contributes the same position before and after, and only the
      quadratic and its origin change. */
  lemma RecentreParamKeepsPosition(p: WindowParam, leftTime: real, t: real)
    ensures var r := RecentreParam(p, leftTime);
            && Quad(CoeffsOf(r), t - leftTime) == Quad(CoeffsOf(p), t - p.leftTime)
            && r.leftTime == leftTime && r.a == p.a
            && r.A == p.A && r.T == p.T && r.time == p.time && r.moveIndex == p.moveIndex
  {
    if p.leftTime != leftTime {
      RecentredLaw(CoeffsOf(p), leftTime - p.leftTime, t - leftTime);
    }
  }

  /** A second re-centring on the same origin changes nothing. */
  lemma RecentreParamIdempotent(p: WindowParam, leftTime: real)
    ensures RecentreParam(RecentreParam(p, leftTime), leftTime) == RecentreParam(p, leftTime)
  {
  }

  /** The coefficient-wise sum of the first n entries' quadratics. */
  function SumCoeffs(ps: seq<WindowParam>, n: nat): Coeffs
    requires n <= |ps|
  {
    if n == 0 then Coeffs(0.0, 0.0, 0.0) else Add(SumCoeffs(ps, n - 1), CoeffsOf(ps[n - 1]))
  }

  /** The sum of the first n entries' contributions, each evaluated x after its origin. */
  function ContributionSum(ps: seq<WindowParam>, n: nat, x: real): real
    requires n <= |ps|
  {
    if n == 0 then 0.0 else ContributionSum(ps, n - 1, x) + Quad(CoeffsOf(ps[n - 1]), x)
  }

  /** The summed quadratic is the sum of the contributions. */
  lemma {:induction false} SumCoeffsLaw(ps: seq<WindowParam>, n: nat, x: real)
    requires n <= |ps|
    ensures Quad(SumCoeffs(ps, n), x) == ContributionSum(ps, n, x)
  {
    if n > 0 {
      SumCoeffsLaw(ps, n - 1, x);
      QuadAdd(SumCoeffs(ps, n - 1), CoeffsOf(ps[n - 1]), x);
    }
  }

  /** The combined quadratic of updateABC: the sums, each snapped to 0 below epsilon. */
  function Combined(ps: seq<WindowParam>, n: nat, epsilon: real): Coeffs
    requires n <= |ps|
  {
    var s := SumCoeffs(ps, n);
    Coeffs(Snap(s.a, epsilon), Snap(s.b, epsilon), Snap(s.c, epsilon))
  }

  /** When no summed coefficient is below epsilon, the combined quadratic is exactly the sum
      of the pulses' contributions. */
  lemma CombinedIsContributionSum(ps: seq<WindowParam>, n: nat, epsilon: real, x: real)
    requires n <= |ps|
    requires var s := SumCoeffs(ps, n); Abs(s.a) >= epsilon && Abs(s.b) >= epsilon && Abs(s.c) >= epsilon
    ensures Quad(Combined(ps, n, epsilon), x) == ContributionSum(ps, n, x)
  {
    SumCoeffsLaw(ps, n, x);
  }

  class ShaperWindow {
    const params: array<WindowParam>
    /** The EPSILON below which a combined coefficient is snapped to 0. */
    const epsilon: real
    var n: nat
    var zeroN: nat
    var time: real
    var pos: real
    /** func_params, as last set by updateABC. */
    var funcParams: Coeffs

    ghost predicate Valid()
      reads this
    {
      params.Length == MAX_PULSES && n <= MAX_PULSES
    }

    constructor (epsilon: real)
      ensures Valid() && fresh(params) && this.epsilon == epsilon && n == 0
    {
      params := new WindowParam[MAX_PULSES](_ => WindowParam(0.0, 0.0, 0.0, 0.0, 0.0, 0.0, 0, 0.0));
      this.epsilon := epsilon;
      n, zeroN, time, pos := 0, 0, 0.0, 0.0;
      funcParams := Coeffs(0.0, 0.0, 0.0);
    }

    /** updateParamABC(i, ...): give entry i the quadratic of its pulse on the given move,
        measured from `leftTime`. */
    method UpdateParamABC(i: nat, startV: real, accelerate: real, startT: real, leftTime: real,
                          startPos: real, axisR: real)
      requires Valid() && i < params.Length
      modifies params
      ensures params[i] == WithCoeffs(old(params[i]),
                PulseCoefficients(old(params[i]).A, old(params[i]).T, startV, accelerate, startT,
                                  leftTime, startPos, axisR), leftTime)
      ensures forall j :: 0 <= j < params.Length && j != i ==> params[j] == old(params[j])
    {
      var p := params[i];
      var amp := p.A;
      var dT := startT - leftTime;
      var t := p.T - dT;
      p := p.(a := 0.5 * accelerate * amp * axisR);
      p := p.(b := (startV + accelerate * t) * amp * axisR);
      p := p.(c := (startPos + (startV * t + 0.5 * accelerate * t * t) * axisR) * amp);
      p := p.(leftTime := leftTime);
      params[i] := p;
    }

    /** updateABC(): sum the first n quadratics and snap small coefficients to 0. */
    method UpdateABC()
      requires Valid()
      modifies this`funcParams
      ensures funcParams == Combined(params[..], n, epsilon)
    {
      ghost var ps := params[..];
      var a, b, c := 0.0, 0.0, 0.0;
      for i := 0 to n
        invariant Coeffs(a, b, c) == SumCoeffs(ps, i)
      {
        a := a + params[i].a;
        b := b + params[i].b;
        c := c + params[i].c;
      }
      if Abs(a) < epsilon {
        a := 0.0;
      }
      if Abs(b) < epsilon {
        b := 0.0;
      }
      if Abs(c) < epsilon {
        c := 0.0;
      }
      funcParams := Coeffs(a, b, c);
    }

    /** updateParamLeftTime(left_time): re-express the first n quadratics from the new
        origin. */
    method UpdateParamLeftTime(leftTime: real)
      requires Valid()
      modifies params
      ensures forall j :: 0 <= j < n ==> params[j] == RecentreParam(old(params[j]), leftTime)
      ensures forall j :: n <= j < params.Length ==> params[j] == old(params[j])
    {
      for i := 0 to n
        invariant forall j :: 0 <= j < i ==> params[j] == RecentreParam(old(params[j]), leftTime)
        invariant forall j :: i <= j < params.Length ==> params[j] == old(params[j])
      {
        if params[i].leftTime == leftTime {
          continue;
        }
        var p := params[i];
        var delta := leftTime - p.leftTime;
        p := p.(leftTime := leftTime);
        p := p.(c := p.c + p.a * delta * delta + p.b * delta);
        p := p.(b := p.b + 2.0 * p.a * delta);
        params[i] := p;
      }
    }
  }
}
