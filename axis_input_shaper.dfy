/** The per-axis input shaper of Marlin/src/module/shaper/AxisInputShaper.cpp (class
    AxisInputShaper): it builds the forward pulse train of a shaper kind, derives the shift
    filter from it, places the sliding window of pulses over the move queue, advances it
    from one move boundary to the next and hands one combined quadratic per step to the
    segment sink. The damping-derived constants K and t_d, the EI3 tolerance v_tol and its
    first amplitude a1 come from expf and SQRT in the source; here they are inputs. */
module InputShaping {
  import opened ShaperMath
  import opened ShaperWindowModel
  import opened MoveQueueModel

  datatype ShaperKind = NoShaper | ZV | ZVD | EI3

  /** A pulse train: amplitudes and time offsets (in seconds for a forward filter). */
  datatype PulseTrain = PulseTrain(amps: seq<real>, offsets: seq<real>)

  function PulseCount(kind: ShaperKind): nat
  {
    match kind
    case NoShaper => 0
    case ZV => 2
    case ZVD => 3
    case EI3 => 5
  }

  /** The forward pulse train init() writes into params for each kind. */
  function ForwardPulses(kind: ShaperKind, k: real, td: real, vTol: real, a1: real): (r: PulseTrain)
    ensures |r.amps| == PulseCount(kind) && |r.offsets| == PulseCount(kind)
    ensures forall i :: 0 <= i < |r.offsets| ==> r.offsets[i] == (i as real) * (0.5 * td)
  {
    match kind
    case NoShaper => PulseTrain([], [])
    case ZV => PulseTrain([1.0, k], [0.0, 0.5 * td])
    case ZVD => PulseTrain([1.0, 2.0 * k, k * k], [0.0, 0.5 * td, td])
    case EI3 => PulseTrain(Ei3Amplitudes(k, vTol, a1), [0.0, 0.5 * td, td, 1.5 * td, 2.0 * td])
  }

  /** The EI3 amplitudes: a1 is given; the others follow from K and the vibration
      tolerance v_tol. */
  function Ei3Amplitudes(k: real, vTol: real, a1: real): (r: seq<real>)
    ensures |r| == 5 && r[0] == a1
    ensures r[3] == r[1] * (k * k) && r[4] == r[0] * ((k * k) * (k * k))
  {
    var k2 := k * k;
    var a2 := 0.25 * (1.0 - vTol) * k;
    var a3 := (0.5 * (1.0 + vTol) - 2.0 * a1) * k2;
    var a4 := a2 * k2;
    var a5 := a1 * k2 * k2;
    [a1, a2, a3, a4, a5]
  }

  /** Entry k of the convolution of two evenly spaced pulse trains, over the first m
      pulses of p. */
  function ConvolveAt(p: seq<real>, q: seq<real>, k: int, m: nat): real
    requires m <= |p|
  {
    if m == 0 then 0.0
    else ConvolveAt(p, q, k, m - 1) + (if 0 <= k - (m - 1) < |q| then p[m - 1] * q[k - (m - 1)] else 0.0)
  }

  /** The amplitudes of two evenly spaced pulse trains applied one after the other. */
  function Convolve(p: seq<real>, q: seq<real>): (r: seq<real>)
    requires |p| > 0 && |q| > 0
    ensures |r| == |p| + |q| - 1
  {
    seq(|p| + |q| - 1, k requires 0 <= k < |p| + |q| - 1 => ConvolveAt(p, q, k, |p|))
  }

  /** ZVD is ZV applied twice: its amplitudes are the convolution of ZV's with themselves,
      and its offsets are sums of two ZV offsets. */
  lemma ZvdIsZvTwice(k: real, td: real, vTol: real, a1: real)
    ensures var zv := ForwardPulses(ZV, k, td, vTol, a1);
            var zvd := ForwardPulses(ZVD, k, td, vTol, a1);
            && zvd.amps == Convolve(zv.amps, zv.amps)
            && forall i, j :: 0 <= i < 2 && 0 <= j < 2 ==> zvd.offsets[i + j] == zv.offsets[i] + zv.offsets[j]
  {
    var zv := ForwardPulses(ZV, k, td, vTol, a1).amps;
    var zvd := ForwardPulses(ZVD, k, td, vTol, a1).amps;
    assert ConvolveAt(zv, zv, 0, 1) == 1.0;
    assert ConvolveAt(zv, zv, 0, 2) == 1.0;
    assert ConvolveAt(zv, zv, 1, 1) == k;
    assert ConvolveAt(zv, zv, 1, 2) == 2.0 * k;
    assert ConvolveAt(zv, zv, 2, 1) == 0.0;
    assert ConvolveAt(zv, zv, 2, 2) == k * k;
    assert Convolve(zv, zv) == [1.0, 2.0 * k, k * k];
  }

  /** With a non-negative K, as expf gives, the ZV and ZVD amplitude sums are positive, so
      shiftPulses can normalise them. */
  lemma ZvAmplitudeSumPositive(kind: ShaperKind, k: real, td: real, vTol: real, a1: real)
    requires kind == ZV || kind == ZVD
    requires k >= 0.0
    ensures var a := ForwardPulses(kind, k, td, vTol, a1).amps; Sum(a, 0, |a|) > 0.0
  {
    var a := ForwardPulses(kind, k, td, vTol, a1).amps;
    assert Sum(a, 0, 1) == 1.0;
    assert Sum(a, 0, 2) == 1.0 + a[1];
    if kind == ZVD {
      assert Sum(a, 0, 3) == 1.0 + a[1] + a[2];
    }
  }

  /** The shaped position at `time`: the shift pulses' amplitudes times the queue's position
      at the pulses' instants, over the first k pulses. */
  function ShapedPosition(a: seq<real>, t: seq<real>, q: MoveQueue, m: int, time: real, s: int, e: int, k: nat): real
    requires k <= |a| && k <= |t|
  {
    if k == 0 then 0.0
    else ShapedPosition(a, t, q, m, time, s, e, k - 1) + a[k - 1] * q.positionAcross(m, time + t[k - 1], s, e)
  }

  /** On a queue whose axis stands still at p, the shaped position is p times the
      amplitude sum. */
  lemma {:induction false} ShapedConstant(a: seq<real>, t: seq<real>, q: MoveQueue, m: int, time: real, s: int, e: int, k: nat, p: real)
    requires k <= |a| && k <= |t|
    requires forall x :: q.positionAcross(m, x, s, e) == p
    ensures ShapedPosition(a, t, q, m, time, s, e, k) == p * Sum(a, 0, k)
  {
    if k > 0 {
      ShapedConstant(a, t, q, m, time, s, e, k - 1, p);
    }
  }

  /** On a queue whose axis moves at constant speed v, the shaped position is the weighted
      position at `time` plus v times the amplitude-weighted offsets. */
  lemma {:induction false} ShapedLinear(a: seq<real>, t: seq<real>, q: MoveQueue, m: int, time: real, s: int, e: int, k: nat, p0: real, v: real)
    requires k <= |a| && k <= |t|
    requires forall x :: q.positionAcross(m, x, s, e) == p0 + v * x
    ensures ShapedPosition(a, t, q, m, time, s, e, k) == (p0 + v * time) * Sum(a, 0, k) + v * Dot(a, t, k)
  {
    if k == 0 {
      assert ShapedPosition(a, t, q, m, time, s, e, k) == 0.0 && Sum(a, 0, k) == 0.0 && Dot(a, t, k) == 0.0;
    } else {
      ShapedLinear(a, t, q, m, time, s, e, k - 1, p0, v);
      ShapedLinearStep(a, t, q, m, time, s, e, k, p0, v);
    }
  }

  /** The inductive step of ShapedLinear: one more pulse. */
  lemma ShapedLinearStep(a: seq<real>, t: seq<real>, q: MoveQueue, m: int, time: real, s: int, e: int, k: nat, p0: real, v: real)
    requires 0 < k <= |a| && k <= |t|
    requires q.positionAcross(m, time + t[k - 1], s, e) == p0 + v * (time + t[k - 1])
    requires ShapedPosition(a, t, q, m, time, s, e, k - 1) == (p0 + v * time) * Sum(a, 0, k - 1) + v * Dot(a, t, k - 1)
    ensures ShapedPosition(a, t, q, m, time, s, e, k) == (p0 + v * time) * Sum(a, 0, k) + v * Dot(a, t, k)
  {
    LinearStep(ShapedPosition(a, t, q, m, time, s, e, k - 1), p0 + v * time, v,
               Sum(a, 0, k - 1), Dot(a, t, k - 1), Sum(a, 0, k), Dot(a, t, k), a[k - 1], t[k - 1],
               q.positionAcross(m, time + t[k - 1], s, e));
  }

  /** One more pulse, of amplitude w and offset t, on the line p0 + v * x. */
  lemma LinearStep(prev: real, here: real, v: real, sum: real, dot: real, sum': real, dot': real,
                   w: real, t: real, pos: real)
    requires prev == here * sum + v * dot
    requires sum' == sum + w && dot' == dot + w * t && pos == here + v * t
    ensures prev + w * pos == here * sum' + v * dot'
  {
  }

  /** The shift filter leaves a standing axis where it is. */
  lemma ShiftFilterHoldsStill(amps: seq<real>, offsets: seq<real>, q: MoveQueue, m: int, time: real, s: int, e: int, p: real)
    requires |amps| == |offsets| && Sum(amps, 0, |amps|) != 0.0
    requires forall x :: q.positionAcross(m, x, s, e) == p
    ensures ShapedPosition(ShiftAmplitudes(amps), ShiftOffsets(amps, offsets), q, m, time, s, e, |amps|) == p
  {
    ShapedConstant(ShiftAmplitudes(amps), ShiftOffsets(amps, offsets), q, m, time, s, e, |amps|, p);
    ShiftAmplitudesSumToOne(amps);
  }

  /** The shift filter adds no lag: at constant speed the shaped position at `time` is the
      unshaped position at `time`. */
  lemma ShiftFilterHasNoLag(amps: seq<real>, offsets: seq<real>, q: MoveQueue, m: int, time: real, s: int, e: int, p0: real, v: real)
    requires |amps| == |offsets| && Sum(amps, 0, |amps|) != 0.0
    requires forall x :: q.positionAcross(m, x, s, e) == p0 + v * x
    ensures ShapedPosition(ShiftAmplitudes(amps), ShiftOffsets(amps, offsets), q, m, time, s, e, |amps|) == p0 + v * time
  {
    ShapedLinear(ShiftAmplitudes(amps), ShiftOffsets(amps, offsets), q, m, time, s, e, |amps|, p0, v);
    ShiftAmplitudesSumToOne(amps);
    ShiftOffsetsCentred(amps, offsets);
  }

  /** The walk of moveShaperWindowByIndex: from move `idx`, step back while the pulse's
      instant `t` is not after the move's start and the tail is not reached. */
  method WalkBack(q: MoveQueue, idx: nat, t: real) returns (r: nat)
    requires ValidQueue(q) && idx < |q.moves|
    ensures r < |q.moves| && Dist(q, r) <= Dist(q, idx)
    ensures r == q.tail || t > q.moves[r].startT
    ensures forall d :: Dist(q, r) < d <= Dist(q, idx) ==> t <= q.moves[AtDist(q, d)].startT
  {
    r := idx;
    while t <= q.moves[r].startT && r != q.tail
      invariant r < |q.moves| && Dist(q, r) <= Dist(q, idx)
      invariant forall d :: Dist(q, r) < d <= Dist(q, idx) ==> t <= q.moves[AtDist(q, d)].startT
      decreases Dist(q, r)
    {
      PrevNext(q, r);
      r := Prev(q, r);
    }
  }

  /** A pulse placed by moveShaperWindowByIndex: it carries its shift pulse, evaluates at
      the window time plus its offset, sits on a move it does not precede (or on the tail),
      and holds that move's quadratic measured from `leftTime`. */
  ghost predicate PulsePlaced(q: MoveQueue, p: WindowParam, amp: real, offset: real, wtime: real, leftTime: real)
  {
    && p.A == amp && p.T == offset && p.time == wtime + offset && p.leftTime == leftTime
    && p.moveIndex < |q.moves|
    && (p.moveIndex == q.tail || p.time > q.moves[p.moveIndex].startT)
    && CoeffsOf(p) == MoveCoefficients(q, p.moveIndex, amp, offset, leftTime)
  }

  /** How far the pulse's move lies from the tail of the queue (0 off the queue). */
  ghost function MoveDist(q: MoveQueue, p: WindowParam): nat
  {
    if ValidQueue(q) && p.moveIndex < |q.moves| then Dist(q, p.moveIndex) else 0
  }

  /** Pulses `from` onwards are placed, and each sits where the backward walk from the
      next pulse's move (or from the move `limit` steps after the tail, for the last pulse)
      stops: no further from the tail than that move, and every move the walk stepped over
      starts at or after the pulse's instant. */
  ghost predicate PlacedRun(q: MoveQueue, ps: seq<WindowParam>, amps: seq<real>, offsets: seq<real>,
                            from: nat, wtime: real, leftTime: real, limit: nat)
  {
    && |amps| == |ps| && |offsets| == |ps| && from <= |ps|
    && (forall j :: from <= j < |ps| ==> PulsePlaced(q, ps[j], amps[j], offsets[j], wtime, leftTime))
    && (forall j :: from <= j < |ps| ==> OrderedAt(q, ps, j, limit))
  }

  /** Pulse j's move is no further from the tail than the next pulse's move, or than
      `limit` for the last pulse, and the moves in between start at or after its instant. */
  ghost predicate OrderedAt(q: MoveQueue, ps: seq<WindowParam>, j: nat, limit: nat)
    requires j < |ps|
  {
    var from := if j + 1 < |ps| then MoveDist(q, ps[j + 1]) else limit;
    MoveDist(q, ps[j]) <= from && SteppedOver(q, ps[j].time, MoveDist(q, ps[j]), from)
  }

  /** Every move more than `lo` and at most `hi` steps after the tail starts at or after
      the instant t: a backward walk for t passes over all of them. */
  ghost predicate SteppedOver(q: MoveQueue, t: real, lo: nat, hi: nat)
  {
    ValidQueue(q) ==>
      forall d :: lo < d <= hi && d < |q.moves| ==> t <= q.moves[AtDist(q, d)].startT
  }

  /** The walk's stopping move is determined: two moves, both within `hi` steps of the
      tail, on which a pulse at instant t could sit after walking back from `hi`, are the
      same move. */
  lemma PlacementUnique(q: MoveQueue, t: real, i: nat, i': nat, hi: nat)
    requires ValidQueue(q) && i < |q.moves| && i' < |q.moves| && hi < |q.moves|
    requires Dist(q, i) <= hi && Dist(q, i') <= hi
    requires i == q.tail || t > q.moves[i].startT
    requires i' == q.tail || t > q.moves[i'].startT
    requires SteppedOver(q, t, Dist(q, i), hi) && SteppedOver(q, t, Dist(q, i'), hi)
    ensures i == i'
  {
    StopNotBeyond(q, t, i, i', hi);
    StopNotBeyond(q, t, i', i, hi);
    PrevNext(q, i);
    PrevNext(q, i');
  }

  /** A move the walk for t stepped over cannot be one where a pulse at t may sit. */
  lemma StopNotBeyond(q: MoveQueue, t: real, i: nat, i': nat, hi: nat)
    requires ValidQueue(q) && i < |q.moves| && i' < |q.moves| && Dist(q, i') <= hi
    requires i' == q.tail || t > q.moves[i'].startT
    requires SteppedOver(q, t, Dist(q, i), hi)
    ensures Dist(q, i') <= Dist(q, i)
  {
    PrevNext(q, i');
  }

  /** Placing pulse i on a move no further from the tail than pulse i + 1's move (or than
      `limit` for the last pulse) extends a placed run by one. */
  lemma PlacedRunExtend(q: MoveQueue, ps: seq<WindowParam>, amps: seq<real>, offsets: seq<real>,
                        i: nat, p: WindowParam, wtime: real, leftTime: real, limit: nat)
    requires PlacedRun(q, ps, amps, offsets, i + 1, wtime, leftTime, limit)
    requires PulsePlaced(q, p, amps[i], offsets[i], wtime, leftTime)
    requires var from := if i + 1 < |ps| then MoveDist(q, ps[i + 1]) else limit;
             MoveDist(q, p) <= from && SteppedOver(q, p.time, MoveDist(q, p), from)
    ensures PlacedRun(q, ps[i := p], amps, offsets, i, wtime, leftTime, limit)
  {
    var r := ps[i := p];
    forall j | i <= j < |r|
      ensures PulsePlaced(q, r[j], amps[j], offsets[j], wtime, leftTime)
    {
      if j == i {
        assert r[j] == p;
      } else {
        assert r[j] == ps[j];
      }
    }
    forall j | i <= j < |r|
      ensures OrderedAt(q, r, j, limit)
    {
      if j == i {
        assert r[j] == p;
      } else {
        assert r[j] == ps[j];
        assert OrderedAt(q, ps, j, limit);
      }
      if j + 1 < |r| {
        assert r[j + 1] == ps[j + 1];
      }
    }
  }

  /** moveShaperWindowByIndex has one outcome: two windows placed from the same shift pulses,
      window time, time origin and starting move are equal, pulse for pulse. */
  lemma PlacedRunDetermined(q: MoveQueue, ps: seq<WindowParam>, ps': seq<WindowParam>, amps: seq<real>,
                            offsets: seq<real>, wtime: real, leftTime: real, limit: nat)
    requires ValidQueue(q) && limit < |q.moves|
    requires PlacedRun(q, ps, amps, offsets, 0, wtime, leftTime, limit)
    requires PlacedRun(q, ps', amps, offsets, 0, wtime, leftTime, limit)
    ensures ps == ps'
  {
    forall j | 0 <= j < |ps|
      ensures ps[j] == ps'[j]
    {
      PlacedRunDeterminedFrom(q, ps, ps', amps, offsets, wtime, leftTime, limit, j);
    }
  }

  lemma {:induction false} PlacedRunDeterminedFrom(q: MoveQueue, ps: seq<WindowParam>, ps': seq<WindowParam>,
                                                    amps: seq<real>, offsets: seq<real>, wtime: real,
                                                    leftTime: real, limit: nat, j: nat)
    requires ValidQueue(q) && limit < |q.moves|
    requires PlacedRun(q, ps, amps, offsets, 0, wtime, leftTime, limit)
    requires PlacedRun(q, ps', amps, offsets, 0, wtime, leftTime, limit)
    requires j < |ps|
    ensures ps[j] == ps'[j]
    decreases |ps| - j
  {
    if j + 1 < |ps| {
      PlacedRunDeterminedFrom(q, ps, ps', amps, offsets, wtime, leftTime, limit, j + 1);
    }
    assert PulsePlaced(q, ps[j], amps[j], offsets[j], wtime, leftTime);
    assert PulsePlaced(q, ps'[j], amps[j], offsets[j], wtime, leftTime);
    assert OrderedAt(q, ps, j, limit) && OrderedAt(q, ps', j, limit);
    var from := if j + 1 < |ps| then MoveDist(q, ps[j + 1]) else limit;
    PlacementUnique(q, ps[j].time, ps[j].moveIndex, ps'[j].moveIndex, from);
  }

  /** The quadratic updateParamABC gives a pulse on move `i` of the queue. */
  function MoveCoefficients(q: MoveQueue, i: nat, amp: real, offset: real, leftTime: real): Coeffs
    requires i < |q.moves|
  {
    var mv := q.moves[i];
    PulseCoefficients(amp, offset, mv.startV, mv.accelerate, mv.startT, leftTime, mv.startPos, mv.axisR)
  }

  /** The gap between each of the first n pulses' instant and the end of its move. */
  function Gaps(q: MoveQueue, ps: seq<WindowParam>, n: nat): (g: seq<real>)
    requires n <= |ps| && forall i :: 0 <= i < n ==> ps[i].moveIndex < |q.moves|
    ensures |g| == n && forall i :: 0 <= i < n ==> g[i] == q.moves[ps[i].moveIndex].endT - ps[i].time
  {
    seq(n, i requires 0 <= i < n => q.moves[ps[i].moveIndex].endT - ps[i].time)
  }

  /** The scan of moveShaperWindowToNext over the first k gaps, starting from `bound` and
      the pivot `fallback`: the smallest gap below `bound` and the first index holding it. */
  function FirstMin(g: seq<real>, k: nat, bound: real, fallback: nat): (r: (real, nat))
    requires k <= |g|
    ensures r.0 <= bound && forall j :: 0 <= j < k ==> r.0 <= g[j]
    ensures || (r.1 < k && g[r.1] == r.0 && forall j :: 0 <= j < r.1 ==> g[j] > r.0)
            || (r == (bound, fallback) && forall j :: 0 <= j < k ==> g[j] >= bound)
  {
    if k == 0 then (bound, fallback)
    else
      var prev := FirstMin(g, k - 1, bound, fallback);
      if g[k - 1] < prev.0 then (g[k - 1], k - 1) else prev
  }

  /** The loop of moveShaperWindowToNext that picks the new pivot: the gap of each of the
      first n pulses to the end of its move, kept when it is below the smallest so far. */
  method ScanGaps(q: MoveQueue, ps: seq<WindowParam>, n: nat, fallback: nat) returns (step: real, z: nat)
    requires n <= |ps| && forall i :: 0 <= i < n ==> ps[i].moveIndex < |q.moves|
    ensures (step, z) == FirstMin(Gaps(q, ps, n), n, NO_GAP, fallback)
  {
    ghost var g := Gaps(q, ps, n);
    step, z := NO_GAP, fallback;
    for i := 0 to n
      invariant (step, z) == FirstMin(g, i, NO_GAP, fallback)
    {
      var gap := q.moves[ps[i].moveIndex].endT - ps[i].time;
      assert gap == g[i];
      assert FirstMin(g, i + 1, NO_GAP, fallback) == if gap < step then (gap, i) else (step, z);
      if gap < step {
        step, z := gap, i;
      }
    }
  }

  /** The source's starting bound for the smallest gap. */
  const NO_GAP: real := 1000000000.0

  /** The pulses after the pivot `z` moved on to the next move and took its quadratic. */
  function PivotStepped(q: MoveQueue, ps: seq<WindowParam>, z: nat, leftTime: real): (r: seq<WindowParam>)
    requires ValidQueue(q) && z < |ps| && ps[z].moveIndex < |q.moves|
    ensures |r| == |ps| && r[z].moveIndex == Next(q, ps[z].moveIndex)
    ensures forall i :: 0 <= i < |ps| && i != z ==> r[i] == ps[i]
  {
    var p := ps[z];
    var mi := Next(q, p.moveIndex);
    ps[z := WithCoeffs(p.(moveIndex := mi), MoveCoefficients(q, mi, p.A, p.T, leftTime), leftTime)]
  }

  /** A pulse's instant after an advance by `step`: the new pivot lands exactly on the end of
      its move, every other pulse moves on by `step`. */
  function Advanced(q: MoveQueue, p: WindowParam, isPivot: bool, step: real): WindowParam
    requires p.moveIndex < |q.moves|
  {
    if isPivot then p.(time := q.moves[p.moveIndex].endT) else p.(time := p.time + step)
  }

  /** Every pulse's instant after an advance by `step` with the new pivot `z`. */
  function AdvancedAll(q: MoveQueue, ps: seq<WindowParam>, n: nat, z: nat, step: real): (r: seq<WindowParam>)
    requires n <= |ps| && forall i :: 0 <= i < n ==> ps[i].moveIndex < |q.moves|
    ensures |r| == |ps| && forall i :: 0 <= i < |ps| ==> r[i].moveIndex == ps[i].moveIndex
  {
    seq(|ps|, i requires 0 <= i < |ps| => if i < n then Advanced(q, ps[i], i == z, step) else ps[i])
  }

  /** The first n pulses re-centred on `leftTime`, as updateParamLeftTime leaves them. */
  function RecentredAll(ps: seq<WindowParam>, n: nat, leftTime: real): (r: seq<WindowParam>)
    requires n <= |ps|
    ensures |r| == |ps| && forall i :: 0 <= i < |ps| ==> r[i].moveIndex == ps[i].moveIndex
  {
    seq(|ps|, i requires 0 <= i < |ps| => if i < n then RecentreParam(ps[i], leftTime) else ps[i])
  }

  /** The window's pulses, its new pivot and the step it moves by, after one advance from
      the pulses `ps` with pivot `z`: the pivot moves on to the next move, the first pulse
      nearest the end of its move becomes the pivot, times move on, and all quadratics are
      re-centred on `leftTime`. */
  ghost function AdvanceResult(q: MoveQueue, ps: seq<WindowParam>, n: nat, z: nat, leftTime: real): (r: (seq<WindowParam>, nat, real))
    requires ValidQueue(q) && z < n <= |ps| && forall i :: 0 <= i < n ==> ps[i].moveIndex < |q.moves|
    ensures |r.0| == |ps| && r.1 < n && forall i :: 0 <= i < n ==> r.0[i].moveIndex < |q.moves|
  {
    var stepped := PivotStepped(q, ps, z, leftTime);
    var pick := FirstMin(Gaps(q, stepped, n), n, NO_GAP, z);
    (RecentredAll(AdvancedAll(q, stepped, n, pick.1, pick.0), n, leftTime), pick.1, pick.0)
  }

  /** Pulse by pulse, an advance moves only the old pivot on to the next move; the new pivot
      is one of the pulses and lands on the end of its move, every other pulse moves on by
      the step, and the step is no larger than any pulse's gap to the end of its move. */
  lemma AdvanceMovesAndTimes(q: MoveQueue, ps: seq<WindowParam>, n: nat, z: nat, leftTime: real, i: nat)
    requires ValidQueue(q) && z < n <= |ps| && forall j :: 0 <= j < n ==> ps[j].moveIndex < |q.moves|
    requires i < n
    ensures var r := AdvanceResult(q, ps, n, z, leftTime);
            && r.1 < n
            && r.0[i].moveIndex == (if i == z then Next(q, ps[i].moveIndex) else ps[i].moveIndex)
            && r.0[i].A == ps[i].A && r.0[i].T == ps[i].T && r.0[i].leftTime == leftTime
            && r.0[i].time == (if i == r.1 then q.moves[r.0[i].moveIndex].endT else ps[i].time + r.2)
            && r.2 <= q.moves[r.0[i].moveIndex].endT - ps[i].time
  {
    var stepped := PivotStepped(q, ps, z, leftTime);
    var pick := FirstMin(Gaps(q, stepped, n), n, NO_GAP, z);
    var advanced := AdvancedAll(q, stepped, n, pick.1, pick.0);
    assert advanced[i] == Advanced(q, stepped[i], i == pick.1, pick.0);
    RecentreParamKeepsPosition(advanced[i], leftTime, 0.0);
  }

  /** Pulse by pulse, an advance gives the old pivot the quadratic of its new move, measured
      from `leftTime`, and leaves every other pulse's contribution where it was: re-centring
      only rewrites it for the new origin. */
  lemma AdvanceQuadratics(q: MoveQueue, ps: seq<WindowParam>, n: nat, z: nat, leftTime: real, i: nat, t: real)
    requires ValidQueue(q) && z < n <= |ps| && forall j :: 0 <= j < n ==> ps[j].moveIndex < |q.moves|
    requires i < n
    ensures var r := AdvanceResult(q, ps, n, z, leftTime);
            && (i == z ==>
                  CoeffsOf(r.0[i]) == MoveCoefficients(q, Next(q, ps[i].moveIndex), ps[i].A, ps[i].T, leftTime))
            && (i != z ==>
                  Quad(CoeffsOf(r.0[i]), t - leftTime) == Quad(CoeffsOf(ps[i]), t - ps[i].leftTime))
  {
    var stepped := PivotStepped(q, ps, z, leftTime);
    var pick := FirstMin(Gaps(q, stepped, n), n, NO_GAP, z);
    var advanced := AdvancedAll(q, stepped, n, pick.1, pick.0);
    assert advanced[i] == Advanced(q, stepped[i], i == pick.1, pick.0);
    RecentreParamKeepsPosition(advanced[i], leftTime, t);
  }

  /** What an advance reads and writes of the shaper window: its pulses, its pivot zero_n
      and its time. */
  datatype WindowState = WindowState(params: seq<WindowParam>, zeroN: nat, time: real)

  /** The first n pulses, a pivot among them, every pulse on a move of the queue. */
  ghost predicate StateReady(q: MoveQueue, w: WindowState, n: nat)
  {
    ValidQueue(q) && w.zeroN < n <= |w.params| && forall i :: 0 <= i < n ==> w.params[i].moveIndex < |q.moves|
  }

  /** One advance of moveShaperWindowToNext, its quadratics re-centred on `leftTime`. */
  ghost function Step(q: MoveQueue, w: WindowState, n: nat, leftTime: real): (r: WindowState)
    requires StateReady(q, w, n)
    ensures StateReady(q, r, n)
  {
    var a := AdvanceResult(q, w.params, n, w.zeroN, leftTime);
    WindowState(a.0, a.1, w.time + a.2)
  }

  /** Every state of `states` is ready on the first n pulses. */
  ghost predicate AllReady(q: MoveQueue, states: seq<WindowState>, n: nat)
  {
    forall i :: 0 <= i < |states| ==> StateReady(q, states[i], n)
  }

  /** The time origin of the advance from states[i]: last_time, which is `leftTime` before
      the first advance and afterwards the window time the previous segment ended at. */
  function StartOf(states: seq<WindowState>, i: nat, leftTime: real): real
    requires i < |states|
  {
    if i == 0 then leftTime else states[i].time
  }

  /** The advance as a function of a window state and the time origin it re-centres on; a
      state without a pivot among its pulses, which the placed window never is, stays put. */
  ghost function Advancing(q: MoveQueue, n: nat): (WindowState, real) -> WindowState
  {
    (w: WindowState, t: real) => if StateReady(q, w, n) then Step(q, w, n, t) else w
  }

  /** Each state of `states` is the advance `f` of the state before it, re-centred on that
      state's start time. */
  ghost predicate IsRun(f: (WindowState, real) -> WindowState, states: seq<WindowState>, leftTime: real)
  {
    forall i :: 0 <= i < |states| - 1 ==> states[i + 1] == f(states[i], StartOf(states, i, leftTime))
  }

  /** The states through k advances `f` from w, each re-centred on the time the one before
      reached (`leftTime` for the first). */
  ghost function Iterate(f: (WindowState, real) -> WindowState, w: WindowState, leftTime: real, k: nat): (r: seq<WindowState>)
    ensures |r| == k + 1 && r[0] == w
  {
    if k == 0 then [w]
    else
      var prev := Iterate(f, w, leftTime, k - 1);
      prev + [f(prev[k - 1], StartOf(prev, k - 1, leftTime))]
  }

  /** A run of advances is the iterate of the advance from its first state: the advance is
      a function, so the loop's states are determined by where it starts. */
  lemma {:induction false} RunIsIterate(f: (WindowState, real) -> WindowState, states: seq<WindowState>, leftTime: real)
    requires 1 <= |states| && IsRun(f, states, leftTime)
    ensures states == Iterate(f, states[0], leftTime, |states| - 1)
    decreases |states|
  {
    var k := |states| - 1;
    if 0 < k {
      var prefix := states[..k];
      forall i | 0 <= i < k - 1
        ensures prefix[i + 1] == f(prefix[i], StartOf(prefix, i, leftTime))
      {
        assert StartOf(prefix, i, leftTime) == StartOf(states, i, leftTime);
      }
      RunIsIterate(f, prefix, leftTime);
      assert StartOf(prefix, k - 1, leftTime) == StartOf(states, k - 1, leftTime);
      assert states == prefix + [states[k]];
    }
  }

  /** The last pulse has reached the end of move e: moveShaperWindowToNext refuses to advance. */
  ghost predicate AtEnd(q: MoveQueue, w: WindowState, n: nat, e: nat)
    requires StateReady(q, w, n) && e < |q.moves|
  {
    w.params[n - 1].time == q.moves[e].endT
  }

  /** Every state before the last had not reached the end of move e, so each advanced. */
  ghost predicate AdvancedThrough(q: MoveQueue, states: seq<WindowState>, n: nat, e: nat)
    requires AllReady(q, states, n) && e < |q.moves|
  {
    forall i :: 0 <= i < |states| - 1 ==> !AtEnd(q, states[i], n, e)
  }

  /** calcPosition(move_index, time, start, end) over the shift pulses `amps`, `offsets`:
      0 on an empty queue or off the live moves, otherwise their weighted sum. */
  function ShapedAt(q: MoveQueue, amps: seq<real>, offsets: seq<real>, m: int, time: real, s: int, e: int): (r: real)
    requires |amps| == |offsets|
    ensures q.size == 0 || !q.isBetween(m) ==> r == 0.0
  {
    if q.size == 0 then 0.0
    else if !q.isBetween(m) then 0.0
    else ShapedPosition(amps, offsets, q, m, time, s, e, |amps|)
  }

  /** The segment addDeltaTimeFuncParams records for window state w: the combined quadratic
      of its first n pulses, from `start` to the window time, with the shaped position at
      the first pulse's move. */
  ghost function SegmentOf(q: MoveQueue, w: WindowState, n: nat, amps: seq<real>, offsets: seq<real>,
                           epsilon: real, start: real, e: int): (r: Segment)
    requires StateReady(q, w, n) && |amps| == |offsets|
    ensures r.startTime == start && r.endTime == w.time
  {
    var c := Combined(w.params, n, epsilon);
    var m := w.params[0].moveIndex;
    Segment(c.a, c.b, c.c, start, w.time, ShapedAt(q, amps, offsets, m, w.time, m, e))
  }

  /** The segments emitted along `states`, one per advance: the one for states[j] runs from
      the time of states[j - 1] (`leftTime` for the first) to its own time. */
  ghost function SegmentsAlong(q: MoveQueue, states: seq<WindowState>, n: nat, amps: seq<real>, offsets: seq<real>,
                               epsilon: real, leftTime: real, e: int): (r: seq<Segment>)
    requires 1 <= |states| && AllReady(q, states, n) && |amps| == |offsets|
    ensures |r| == |states| - 1
  {
    var k := |states| - 1;
    if k == 0 then []
    else
      SegmentsAlong(q, states[..k], n, amps, offsets, epsilon, leftTime, e)
        + [SegmentOf(q, states[k], n, amps, offsets, epsilon, StartOf(states, k - 1, leftTime), e)]
  }

  /** Segment j is that of states[j + 1], from the time of states[j] (`leftTime` for the
      first); so the segments chain, each starting where the one before ends. */
  lemma {:induction false} SegmentsAlongAt(q: MoveQueue, states: seq<WindowState>, n: nat, amps: seq<real>,
                                           offsets: seq<real>, epsilon: real, leftTime: real, e: int, j: nat)
    requires 1 <= |states| && AllReady(q, states, n) && |amps| == |offsets| && j < |states| - 1
    ensures var r := SegmentsAlong(q, states, n, amps, offsets, epsilon, leftTime, e);
            && r[j] == SegmentOf(q, states[j + 1], n, amps, offsets, epsilon, StartOf(states, j, leftTime), e)
            && r[j].startTime == (if j == 0 then leftTime else r[j - 1].endTime)
    decreases |states|
  {
    var k := |states| - 1;
    var prefix := states[..k];
    if j < k - 1 {
      SegmentsAlongAt(q, prefix, n, amps, offsets, epsilon, leftTime, e, j);
    }
    if 0 < j {
      SegmentsAlongAt(q, prefix, n, amps, offsets, epsilon, leftTime, e, j - 1);
    }
  }

  /** One more state appends its segment and leaves the earlier ones in place. */
  lemma SegmentsAlongNext(q: MoveQueue, states: seq<WindowState>, next: WindowState, n: nat, amps: seq<real>,
                          offsets: seq<real>, epsilon: real, leftTime: real, e: int)
    requires 1 <= |states| && AllReady(q, states, n) && StateReady(q, next, n) && |amps| == |offsets|
    ensures AllReady(q, states + [next], n)
    ensures SegmentsAlong(q, states + [next], n, amps, offsets, epsilon, leftTime, e) ==
              SegmentsAlong(q, states, n, amps, offsets, epsilon, leftTime, e) +
              [SegmentOf(q, next, n, amps, offsets, epsilon, StartOf(states, |states| - 1, leftTime), e)]
  {
    assert (states + [next])[..|states|] == states;
  }

  /** A run extended by the advance of its last state is still a run. */
  lemma RunNext(f: (WindowState, real) -> WindowState, run: seq<WindowState>, next: WindowState, leftTime: real)
    requires 1 <= |run| && IsRun(f, run, leftTime)
    requires next == f(run[|run| - 1], StartOf(run, |run| - 1, leftTime))
    ensures IsRun(f, run + [next], leftTime)
  {
    var run' := run + [next];
    forall i | 0 <= i < |run'| - 1
      ensures run'[i + 1] == f(run'[i], StartOf(run', i, leftTime))
    {
      assert run'[i] == run[i];
      assert StartOf(run', i, leftTime) == StartOf(run, i, leftTime);
    }
  }

  /** One pass of generateFuncParams' loop on values: a run of advances `f` whose last state
      has not reached the end, extended by that state's advance, is still a run that
      advanced at every state but its last, and the segment of the new state, from the
      start time of the last, extends the emitted segments. */
  lemma RunStep(f: (WindowState, real) -> WindowState, q: MoveQueue, run: seq<WindowState>, next: WindowState,
                n: nat, leftTime: real, amps: seq<real>, offsets: seq<real>, epsilon: real, e: nat,
                segs0: seq<Segment>, segs: seq<Segment>)
    requires 1 <= |run| && AllReady(q, run, n) && StateReady(q, next, n) && |amps| == |offsets| && e < |q.moves|
    requires IsRun(f, run, leftTime) && next == f(run[|run| - 1], StartOf(run, |run| - 1, leftTime))
    requires AdvancedThrough(q, run, n, e) && !AtEnd(q, run[|run| - 1], n, e)
    requires segs == segs0 + SegmentsAlong(q, run, n, amps, offsets, epsilon, leftTime, e)
    ensures AllReady(q, run + [next], n)
    ensures IsRun(f, run + [next], leftTime) && AdvancedThrough(q, run + [next], n, e)
    ensures segs + [SegmentOf(q, next, n, amps, offsets, epsilon, StartOf(run, |run| - 1, leftTime), e)] ==
              segs0 + SegmentsAlong(q, run + [next], n, amps, offsets, epsilon, leftTime, e)
  {
    var run' := run + [next];
    forall i | 0 <= i < |run'|
      ensures run'[i] == if i < |run| then run[i] else next
    {
    }
    RunNext(f, run, next, leftTime);
    SegmentsAlongNext(q, run, next, n, amps, offsets, epsilon, leftTime, e);
  }

  class AxisInputShaper {
    /** params.A, params.T: the forward filter. */
    const fwdA: array<real>
    const fwdT: array<real>
    /** shift_params.A, shift_params.T: the shift filter. */
    const shiftA: array<real>
    const shiftT: array<real>
    /** params.n and shift_params.n */
    var n: nat
    var shiftN: nat
    var leftDelta: real
    var rightDelta: real
    var deltaWindow: real
    var isWindowInit: bool
    const window: ShaperWindow

    ghost predicate Valid()
      reads this, window
    {
      && fwdA.Length == MAX_PULSES && fwdT.Length == MAX_PULSES
      && shiftA.Length == MAX_PULSES && shiftT.Length == MAX_PULSES
      && fwdA != fwdT && fwdA != shiftA && fwdA != shiftT
      && fwdT != shiftA && fwdT != shiftT && shiftA != shiftT
      && n <= MAX_PULSES && shiftN <= MAX_PULSES && window.Valid()
    }

    /** The window is placed over the queue: at least one pulse, a pivot among them, and
        every pulse on a move of the queue. */
    ghost predicate WindowReady(q: MoveQueue)
      reads this, window, window.params
    {
      && Valid() && 1 <= window.n && window.zeroN < window.n
      && forall i :: 0 <= i < window.n ==> window.params[i].moveIndex < |q.moves|
    }

    constructor (epsilon: real)
      ensures Valid() && n == 0 && shiftN == 0 && !isWindowInit && window.epsilon == epsilon
      ensures fresh(window) && fresh(window.params)
    {
      fwdA := new real[MAX_PULSES](_ => 0.0);
      fwdT := new real[MAX_PULSES](_ => 0.0);
      shiftA := new real[MAX_PULSES](_ => 0.0);
      shiftT := new real[MAX_PULSES](_ => 0.0);
      n, shiftN := 0, 0;
      leftDelta, rightDelta, deltaWindow := 0.0, 0.0, 0.0;
      isWindowInit := false;
      window := new ShaperWindow(epsilon);
    }

    /** The window's pulses, pivot and time as a value. */
    ghost function State(): WindowState
      reads window, window.params
    {
      WindowState(window.params[..], window.zeroN, window.time)
    }

    /** The switch of init(): write the kind's forward pulse train. Only a shaping kind asks
        for the window to be placed again. */
    method SelectPulses(kind: ShaperKind, k: real, td: real, vTol: real, a1: real)
      requires Valid()
      modifies this`n, this`isWindowInit, fwdA, fwdT
      ensures Valid()
      ensures var fp := ForwardPulses(kind, k, td, vTol, a1);
              n == |fp.amps| && fwdA[..n] == fp.amps && fwdT[..n] == fp.offsets
      ensures isWindowInit == (old(isWindowInit) && kind == NoShaper)
    {
      n := 0;
      match kind
      case NoShaper =>
      case ZV =>
        WritePulses([1.0, k], [0.0, 0.5 * td]);
        isWindowInit := false;
      case ZVD =>
        WritePulses([1.0, 2.0 * k, k * k], [0.0, 0.5 * td, td]);
        isWindowInit := false;
      case EI3 =>
        WritePulses(Ei3Amplitudes(k, vTol, a1), [0.0, 0.5 * td, td, 1.5 * td, 2.0 * td]);
        isWindowInit := false;
    }

    /** The assignments of one case of init()'s switch: n and the first n amplitudes and
        offsets. */
    method WritePulses(amps: seq<real>, offsets: seq<real>)
      requires Valid() && |amps| == |offsets| <= MAX_PULSES
      modifies this`n, fwdA, fwdT
      ensures Valid() && n == |amps| && fwdA[..n] == amps && fwdT[..n] == offsets
    {
      for i := 0 to |amps|
        invariant forall j :: 0 <= j < i ==> fwdA[j] == amps[j] && fwdT[j] == offsets[j]
      {
        fwdA[i], fwdT[i] := amps[i], offsets[i];
      }
      n := |amps|;
      assert fwdA[..n] == amps;
      assert fwdT[..n] == offsets;
    }

    /** shiftPulses(): scale the forward offsets to milliseconds in place, derive the shift
        filter from the forward one, and take the window's half-widths from its outer
        pulses. */
    method ShiftPulses()
      requires Valid() && 1 <= n && Sum(fwdA[..n], 0, n) != 0.0
      modifies fwdT, shiftA, shiftT, this`shiftN, this`leftDelta, this`rightDelta, this`deltaWindow
      ensures Valid() && shiftN == n
      ensures fwdT[..n] == Scale(old(fwdT[..n]), 1000.0)
      ensures shiftA[..n] == ShiftAmplitudes(fwdA[..n])
      ensures shiftT[..n] == ShiftOffsets(fwdA[..n], fwdT[..n])
      ensures leftDelta == Abs(shiftT[0]) && rightDelta == Abs(shiftT[n - 1])
      ensures deltaWindow == rightDelta + leftDelta
    {
      ScaleOffsets();
      var sumA := AmplitudeSum();
      var invA := 1.0 / sumA;
      ReverseInto(invA);
      shiftN := n;
      var ts := Centroid();
      Centre(ts);
      leftDelta := Abs(shiftT[0]);
      rightDelta := Abs(shiftT[shiftN - 1]);
      deltaWindow := rightDelta + leftDelta;
    }

    /** The first loop of shiftPulses: T[i] = T[i] * 1000. */
    method ScaleOffsets()
      requires Valid()
      modifies fwdT
      ensures fwdT[..n] == Scale(old(fwdT[..n]), 1000.0)
    {
      for i := 0 to n
        invariant forall j :: 0 <= j < i ==> fwdT[j] == old(fwdT[j]) * 1000.0
        invariant forall j :: i <= j < fwdT.Length ==> fwdT[j] == old(fwdT[j])
      {
        fwdT[i] := fwdT[i] * 1000.0;
      }
    }

    /** The second loop of shiftPulses: sum_a. */
    method AmplitudeSum() returns (s: real)
      requires Valid()
      ensures s == Sum(fwdA[..n], 0, n)
    {
      ghost var amps := fwdA[..n];
      s := 0.0;
      for i := 0 to n
        invariant s == Sum(amps, 0, i)
      {
        s := s + fwdA[i];
      }
    }

    /** The third loop of shiftPulses: shift pulse n - 1 - i takes forward pulse i's amplitude
        times inv_a and its offset negated. */
    method ReverseInto(invA: real)
      requires Valid()
      modifies shiftA, shiftT
      ensures shiftA[..n] == Scale(Reverse(fwdA[..n], n), invA)
      ensures shiftT[..n] == Negate(Reverse(fwdT[..n], n))
    {
      ghost var wantA := Scale(Reverse(fwdA[..n], n), invA);
      ghost var wantT := Negate(Reverse(fwdT[..n], n));
      var count := n;
      for i := 0 to count
        invariant forall j :: count - i <= j < count ==> shiftA[j] == wantA[j] && shiftT[j] == wantT[j]
      {
        assert wantA[count - 1 - i] == fwdA[i] * invA && wantT[count - 1 - i] == -fwdT[i];
        shiftA[count - i - 1] := fwdA[i] * invA;
        shiftT[count - i - 1] := -fwdT[i];
      }
      assert shiftA[..n] == wantA;
      assert shiftT[..n] == wantT;
    }

    /** The fourth loop of shiftPulses: ts, the amplitude-weighted sum of the offsets. */
    method Centroid() returns (ts: real)
      requires Valid() && shiftN <= MAX_PULSES
      ensures ts == Dot(shiftA[..shiftN], shiftT[..shiftN], shiftN)
    {
      ghost var amps, offsets := shiftA[..shiftN], shiftT[..shiftN];
      ts := 0.0;
      for i := 0 to shiftN
        invariant ts == Dot(amps, offsets, i)
      {
        ts := ts + shiftA[i] * shiftT[i];
      }
    }

    /** The last loop of shiftPulses: T[i] -= ts. */
    method Centre(ts: real)
      requires Valid()
      modifies shiftT
      ensures shiftT[..shiftN] == Minus(old(shiftT[..shiftN]), ts)
    {
      for i := 0 to shiftN
        invariant forall j :: 0 <= j < i ==> shiftT[j] == old(shiftT[j]) - ts
        invariant forall j :: i <= j < shiftT.Length ==> shiftT[j] == old(shiftT[j])
      {
        shiftT[i] := shiftT[i] - ts;
      }
    }

    /** init() for a shaping kind: the kind's forward filter, the shift filter derived from
        it, and a request to place the window again. */
    method Init(kind: ShaperKind, k: real, td: real, vTol: real, a1: real)
      requires Valid() && kind != NoShaper
      requires var a := ForwardPulses(kind, k, td, vTol, a1).amps; Sum(a, 0, |a|) != 0.0
      modifies this`n, this`isWindowInit, fwdA, fwdT, shiftA, shiftT
      modifies this`shiftN, this`leftDelta, this`rightDelta, this`deltaWindow
      ensures Valid() && !isWindowInit
      ensures var fp := ForwardPulses(kind, k, td, vTol, a1);
              var ms := Scale(fp.offsets, 1000.0);
              && n == shiftN == |fp.amps|
              && fwdA[..n] == fp.amps && fwdT[..n] == ms
              && shiftA[..n] == ShiftAmplitudes(fp.amps)
              && shiftT[..n] == ShiftOffsets(fp.amps, ms)
      ensures leftDelta == Abs(shiftT[0]) && rightDelta == Abs(shiftT[n - 1])
      ensures deltaWindow == rightDelta + leftDelta
    {
      SelectPulses(kind, k, td, vTol, a1);
      ShiftPulses();
    }

    /** calcPosition(move_index, time, start, end): 0 for an empty queue or a move index that
        is not live, otherwise the shift filter applied to the queue's position. */
    function CalcPosition(q: MoveQueue, moveIndex: int, time: real, s: int, e: int): (r: real)
      requires Valid()
      reads this, window, shiftA, shiftT
      ensures q.size == 0 || !q.isBetween(moveIndex) ==> r == 0.0
    {
      ShapedAt(q, shiftA[..shiftN], shiftT[..shiftN], moveIndex, time, s, e)
    }

    /** One pass of moveShaperWindowByIndex's loop: copy shift pulse i into the window, walk
        back from move `idx` to the move under it, and give it that move's quadratic. */
    method PlacePulse(q: MoveQueue, i: nat, idx: nat, leftTime: real) returns (r: nat)
      requires Valid() && ValidQueue(q) && i < shiftN && idx < |q.moves|
      modifies window.params
      ensures r < |q.moves| && Dist(q, r) <= Dist(q, idx) && window.params[i].moveIndex == r
      ensures PulsePlaced(q, window.params[i], shiftA[i], shiftT[i], window.time, leftTime)
      ensures forall d :: Dist(q, r) < d <= Dist(q, idx) ==> window.params[i].time <= q.moves[AtDist(q, d)].startT
      ensures forall j :: 0 <= j < window.params.Length && j != i ==> window.params[j] == old(window.params[j])
    {
      var p := window.params[i];
      p := p.(A := shiftA[i], T := shiftT[i]);
      p := p.(time := window.time + p.T);
      r := WalkBack(q, idx, p.time);
      window.params[i] := p.(moveIndex := r);
      var mv := q.moves[r];
      window.UpdateParamABC(i, mv.startV, mv.accelerate, mv.startT, leftTime, mv.startPos, mv.axisR);
    }

    /** moveShaperWindowByIndex(start, end, left_time): place the window so that its last
        pulse sits right_delta before the end of move `s`, put every pulse on its move,
        walking back from the last pulse to the first, and combine. */
    method MoveShaperWindowByIndex(q: MoveQueue, s: nat, e: int, leftTime: real)
      requires Valid() && ValidQueue(q) && s < |q.moves| && 1 <= shiftN
      modifies window, window.params
      ensures Valid() && WindowReady(q)
      ensures window.n == shiftN && window.zeroN == shiftN - 1
      ensures window.time == q.moves[s].endT - rightDelta
      ensures PlacedRun(q, window.params[..shiftN], shiftA[..shiftN], shiftT[..shiftN], 0, window.time, leftTime, Dist(q, s))
      ensures window.funcParams == Combined(window.params[..], window.n, window.epsilon)
      ensures window.pos == CalcPosition(q, window.params[0].moveIndex, window.time, window.params[0].moveIndex, e)
    {
      window.n := shiftN;
      window.zeroN := shiftN - 1;
      window.time := q.moves[s].endT - rightDelta;
      var first := PlaceWindow(q, s, leftTime);
      window.UpdateABC();
      window.pos := CalcPosition(q, first, window.time, first, e);
    }

    /** The loop of moveShaperWindowByIndex: from the last pulse down to the first, each
        pulse walks back from the previous pulse's move. The result is the first pulse's
        move. */
    method PlaceWindow(q: MoveQueue, s: nat, leftTime: real) returns (first: nat)
      requires Valid() && ValidQueue(q) && s < |q.moves| && 1 <= shiftN
      modifies window.params
      ensures Valid() && first == window.params[0].moveIndex
      ensures PlacedRun(q, window.params[..shiftN], shiftA[..shiftN], shiftT[..shiftN], 0, window.time, leftTime, Dist(q, s))
      ensures forall j :: 0 <= j < shiftN ==> window.params[j].moveIndex < |q.moves|
    {
      var idx: nat := s;
      var i: nat := shiftN;
      while i > 0
        invariant 0 <= i <= shiftN && idx < |q.moves|
        invariant i < shiftN ==> idx == window.params[i].moveIndex
        invariant i == shiftN ==> idx == s
        invariant PlacedRun(q, window.params[..shiftN], shiftA[..shiftN], shiftT[..shiftN], i, window.time, leftTime, Dist(q, s))
      {
        i := i - 1;
        ghost var before := window.params[..shiftN];
        var next := PlacePulse(q, i, idx, leftTime);
        assert window.params[..shiftN] == before[i := window.params[i]];
        PlacedRunExtend(q, before, shiftA[..shiftN], shiftT[..shiftN], i, window.params[i], window.time, leftTime, Dist(q, s));
        idx := next;
      }
      first := idx;
      forall j | 0 <= j < shiftN
        ensures window.params[j].moveIndex < |q.moves|
      {
        assert PulsePlaced(q, window.params[..shiftN][j], shiftA[..shiftN][j], shiftT[..shiftN][j], window.time, leftTime);
      }
    }

    /** moveShaperWindowToNext(start, end, left_time). Once the last pulse has reached the
        end of move `e` nothing changes and the result is false; otherwise the window
        advances once. */
    method MoveShaperWindowToNext(q: MoveQueue, s: int, e: nat, leftTime: real) returns (advanced: bool)
      requires ValidQueue(q) && e < |q.moves| && WindowReady(q)
      modifies window, window.params
      ensures WindowReady(q) && window.n == old(window.n)
      ensures !advanced <==> old(window.params[window.n - 1].time) == q.moves[e].endT
      ensures !advanced ==> unchanged(window, window.params)
      ensures advanced ==>
                var r := AdvanceResult(q, old(window.params[..]), window.n, old(window.zeroN), leftTime);
                && window.params[..] == r.0 && window.zeroN == r.1
                && window.time == old(window.time) + r.2
                && window.funcParams == Combined(window.params[..], window.n, window.epsilon)
                && window.pos == CalcPosition(q, window.params[0].moveIndex, window.time, window.params[0].moveIndex, e)
    {
      if window.params[window.n - 1].time == q.moves[e].endT {
        return false;
      }
      Advance(q, e, leftTime);
      advanced := true;
    }

    /** The advance of moveShaperWindowToNext: the pivot moves on to its next move and takes
        that move's quadratic; the new pivot is the first pulse nearest the end of its
        move, and lands exactly there, while every other pulse and the window move on by
        that gap; all quadratics are re-centred on `leftTime` and combined. */
    method Advance(q: MoveQueue, e: nat, leftTime: real)
      requires ValidQueue(q) && e < |q.moves| && WindowReady(q)
      modifies window, window.params
      ensures WindowReady(q) && window.n == old(window.n)
      ensures var r := AdvanceResult(q, old(window.params[..]), window.n, old(window.zeroN), leftTime);
              && window.params[..] == r.0 && window.zeroN == r.1
              && window.time == old(window.time) + r.2
              && window.funcParams == Combined(window.params[..], window.n, window.epsilon)
              && window.pos == CalcPosition(q, window.params[0].moveIndex, window.time, window.params[0].moveIndex, e)
    {
      ghost var ps, z0 := window.params[..], window.zeroN;
      StepPivot(q, leftTime);
      ghost var stepped := window.params[..];
      var step := PickPivot(q);
      ghost var pick := FirstMin(Gaps(q, stepped, window.n), window.n, NO_GAP, z0);
      assert pick == (step, window.zeroN);
      AdvanceTimes(q, step);
      Recentre(q, leftTime);
      assert window.params[..] == AdvanceResult(q, ps, window.n, z0, leftTime).0;
      Recombine(q, e, step);
    }

    /** The end of moveShaperWindowToNext: combine the quadratics, move the window time on
        by `step` and recompute the shaped position. */
    method Recombine(q: MoveQueue, e: nat, step: real)
      requires WindowReady(q)
      modifies window`funcParams, window`time, window`pos
      ensures WindowReady(q)
      ensures window.time == old(window.time) + step
      ensures window.funcParams == Combined(window.params[..], window.n, window.epsilon)
      ensures window.pos == CalcPosition(q, window.params[0].moveIndex, window.time, window.params[0].moveIndex, e)
    {
      window.UpdateABC();
      window.time := window.time + step;
      window.pos := CalcPosition(q, window.params[0].moveIndex, window.time, window.params[0].moveIndex, e);
    }

    /** The pivot moves on to its next move and takes that move's quadratic. */
    method StepPivot(q: MoveQueue, leftTime: real)
      requires ValidQueue(q) && WindowReady(q)
      modifies window.params
      ensures WindowReady(q)
      ensures window.params[..] == PivotStepped(q, old(window.params[..]), window.zeroN, leftTime)
    {
      var z := window.zeroN;
      var p := window.params[z];
      window.params[z] := p.(moveIndex := Next(q, p.moveIndex));
      var mv := q.moves[window.params[z].moveIndex];
      window.UpdateParamABC(z, mv.startV, mv.accelerate, mv.startT, leftTime, mv.startPos, mv.axisR);
    }

    /** The scan for the new pivot: the first pulse with the smallest gap to the end of its
        move, below the starting bound. */
    method PickPivot(q: MoveQueue) returns (step: real)
      requires ValidQueue(q) && WindowReady(q)
      modifies window`zeroN
      ensures WindowReady(q)
      ensures (step, window.zeroN) == FirstMin(Gaps(q, window.params[..], window.n), window.n, NO_GAP, old(window.zeroN))
    {
      var z;
      step, z := ScanGaps(q, window.params[..], window.n, window.zeroN);
      window.zeroN := z;
    }

    /** The new pivot lands on the end of its move; every other pulse moves on by `step`. */
    method AdvanceTimes(q: MoveQueue, step: real)
      requires ValidQueue(q) && WindowReady(q)
      modifies window.params
      ensures WindowReady(q)
      ensures window.params[..] == AdvancedAll(q, old(window.params[..]), window.n, window.zeroN, step)
    {
      ghost var ps := window.params[..];
      var z := window.zeroN;
      window.params[z] := window.params[z].(time := q.moves[window.params[z].moveIndex].endT);
      for i := 0 to window.n
        invariant forall j :: 0 <= j < i ==> window.params[j] == Advanced(q, ps[j], j == z, step)
        invariant window.params[z] == Advanced(q, ps[z], true, step)
        invariant forall j :: i <= j < window.params.Length && j != z ==> window.params[j] == ps[j]
      {
        if i == z {
          continue;
        }
        window.params[i] := window.params[i].(time := window.params[i].time + step);
      }
      assert window.params[..] == AdvancedAll(q, ps, window.n, z, step);
    }

    /** updateParamLeftTime over the placed pulses. */
    method Recentre(q: MoveQueue, leftTime: real)
      requires WindowReady(q)
      modifies window.params
      ensures WindowReady(q)
      ensures window.params[..] == RecentredAll(old(window.params[..]), window.n, leftTime)
    {
      ghost var ps := window.params[..];
      window.UpdateParamLeftTime(leftTime);
      assert window.params[..] == RecentredAll(ps, window.n, leftTime);
    }

    /** generateFuncParams(func_manager, start, end): place the window if it is not placed
        yet and emit its segment, then emit one segment per advance. `fuel` bounds the
        number of advances in one call; the window stays placed, so a later call goes on
        where this one stopped. `run` is the window's states from the one the advances start
        from to the last. */
    method GenerateFuncParams(fm: FuncManager, q: MoveQueue, s: nat, e: nat, fuel: nat)
      returns (ok: bool, ghost run: seq<WindowState>)
      requires Valid() && ValidQueue(q) && s < |q.moves| && e < |q.moves| && 1 <= shiftN
      requires isWindowInit ==> WindowReady(q)
      requires fm.Chained()
      modifies this`isWindowInit, window, window.params, fm`segments, fm`lastTime, fm`maxSize
      ensures ok && isWindowInit && WindowReady(q) && fm.Chained()
      ensures 1 <= |run| <= fuel + 1 && AllReady(q, run, window.n) && State() == run[|run| - 1]
      ensures old(isWindowInit) ==> run[0] == old(State()) && window.n == old(window.n)
      ensures !old(isWindowInit) ==>
                && window.n == shiftN && run[0].zeroN == shiftN - 1
                && run[0].time == q.moves[s].endT - rightDelta
                && PlacedRun(q, run[0].params[..shiftN], shiftA[..shiftN], shiftT[..shiftN], 0, run[0].time,
                             old(fm.lastTime), Dist(q, s))
      ensures var leftTime := if old(isWindowInit) then old(fm.lastTime) else run[0].time;
              var first := if old(isWindowInit) then []
                           else [SegmentOf(q, run[0], window.n, shiftA[..shiftN], shiftT[..shiftN], window.epsilon, old(fm.lastTime), e)];
              && IsRun(Advancing(q, window.n), run, leftTime) && AdvancedThrough(q, run, window.n, e)
              && (|run| <= fuel ==> AtEnd(q, State(), window.n, e))
              && fm.segments == old(fm.segments) + first +
                   SegmentsAlong(q, run, window.n, shiftA[..shiftN], shiftT[..shiftN], window.epsilon, leftTime, e)
      ensures fm.maxSize == if old(fm.maxSize) < |fm.segments| then |fm.segments| else old(fm.maxSize)
      ensures fm.maxSize >= fm.Size()
    {
      ghost var first := EnsurePlaced(fm, q, s, e);
      var steps;
      steps, run := AdvanceAndEmit(fm, q, s, e, fuel);
      if fm.maxSize < fm.Size() {
        fm.maxSize := fm.Size();
      }
      ok := true;
    }

    /** The start of generateFuncParams: place the window and emit its segment unless it is
        placed already; `first` is what was emitted. */
    method EnsurePlaced(fm: FuncManager, q: MoveQueue, s: nat, e: nat) returns (ghost first: seq<Segment>)
      requires Valid() && ValidQueue(q) && s < |q.moves| && 1 <= shiftN
      requires isWindowInit ==> WindowReady(q)
      requires fm.Chained()
      modifies this`isWindowInit, window, window.params, fm`segments, fm`lastTime
      ensures isWindowInit && WindowReady(q) && fm.Chained()
      ensures old(isWindowInit) ==>
                && State() == old(State()) && window.n == old(window.n)
                && fm.lastTime == old(fm.lastTime) && first == []
      ensures !old(isWindowInit) ==>
                && window.n == shiftN && window.zeroN == shiftN - 1
                && window.time == q.moves[s].endT - rightDelta
                && PlacedRun(q, window.params[..shiftN], shiftA[..shiftN], shiftT[..shiftN], 0, window.time,
                             old(fm.lastTime), Dist(q, s))
                && fm.lastTime == window.time
                && first == [SegmentOf(q, State(), window.n, shiftA[..shiftN], shiftT[..shiftN], window.epsilon, old(fm.lastTime), e)]
      ensures fm.segments == old(fm.segments) + first
    {
      first := [];
      if !isWindowInit {
        PlaceAndEmit(fm, q, s, e);
        first := [SegmentOf(q, State(), window.n, shiftA[..shiftN], shiftT[..shiftN], window.epsilon, old(fm.lastTime), e)];
      }
    }

    /** The first branch of generateFuncParams: place the window from move `s` with
        last_time as the time origin, and emit its segment from last_time to the window
        time. */
    method PlaceAndEmit(fm: FuncManager, q: MoveQueue, s: nat, e: nat)
      requires Valid() && ValidQueue(q) && s < |q.moves| && 1 <= shiftN
      requires fm.Chained()
      modifies this`isWindowInit, window, window.params, fm`segments, fm`lastTime
      ensures isWindowInit && WindowReady(q) && fm.Chained()
      ensures window.n == shiftN && window.zeroN == shiftN - 1
      ensures window.time == q.moves[s].endT - rightDelta
      ensures PlacedRun(q, window.params[..shiftN], shiftA[..shiftN], shiftT[..shiftN], 0, window.time,
                        old(fm.lastTime), Dist(q, s))
      ensures window.funcParams == Combined(window.params[..], window.n, window.epsilon)
      ensures window.pos == CalcPosition(q, window.params[0].moveIndex, window.time, window.params[0].moveIndex, e)
      ensures fm.segments == old(fm.segments) +
                [SegmentOf(q, State(), window.n, shiftA[..shiftN], shiftT[..shiftN], window.epsilon, old(fm.lastTime), e)]
      ensures fm.lastTime == window.time
    {
      MoveShaperWindowByIndex(q, s, e, fm.lastTime);
      var c := window.funcParams;
      fm.AddDeltaTimeFuncParams(c.a, c.b, c.c, fm.lastTime, window.time, window.pos);
      isWindowInit := true;
    }

    /** The loop of generateFuncParams: advance the window and emit one segment per
        advance, at most `fuel` times, until it reports that it cannot advance. `run` holds
        the window's states, from the one on entry to the last, each one advance of the one
        before, and the segments appended are those of its advances. */
    method AdvanceAndEmit(fm: FuncManager, q: MoveQueue, s: nat, e: nat, fuel: nat)
      returns (steps: nat, ghost run: seq<WindowState>)
      requires ValidQueue(q) && e < |q.moves| && WindowReady(q)
      requires fm.Chained()
      modifies window, window.params, fm`segments, fm`lastTime
      ensures WindowReady(q) && fm.Chained() && steps <= fuel && window.n == old(window.n)
      ensures |run| == steps + 1 && AllReady(q, run, window.n) && run[0] == old(State()) && State() == run[steps]
      ensures IsRun(Advancing(q, window.n), run, old(fm.lastTime)) && AdvancedThrough(q, run, window.n, e)
      ensures steps < fuel ==> AtEnd(q, State(), window.n, e)
      ensures fm.segments == old(fm.segments) +
                SegmentsAlong(q, run, window.n, shiftA[..shiftN], shiftT[..shiftN], window.epsilon, old(fm.lastTime), e)
    {
      ghost var lt0, segs0 := fm.lastTime, fm.segments;
      ghost var amps, offsets := shiftA[..shiftN], shiftT[..shiftN];
      ghost var n, eps := window.n, window.epsilon;
      steps, run := 0, [State()];
      while steps < fuel
        invariant WindowReady(q) && fm.Chained() && steps <= fuel
        invariant window.n == n && window.epsilon == eps && shiftA[..shiftN] == amps && shiftT[..shiftN] == offsets
        invariant |run| == steps + 1 && AllReady(q, run, n) && run[0] == old(State()) && State() == run[steps]
        invariant IsRun(Advancing(q, n), run, lt0) && AdvancedThrough(q, run, n, e)
        invariant fm.segments == segs0 + SegmentsAlong(q, run, n, amps, offsets, eps, lt0, e)
        invariant fm.lastTime == StartOf(run, steps, lt0)
      {
        ghost var segs := fm.segments;
        var more := AdvanceOnce(fm, q, s, e);
        if !more {
          break;
        }
        ghost var next := State();
        RunStep(Advancing(q, n), q, run, next, n, lt0, amps, offsets, eps, e, segs0, segs);
        run := run + [next];
        steps := steps + 1;
      }
    }

    /** One pass of generateFuncParams' loop: moveShaperWindowToNext with last_time as the
        time origin and, when the window advanced, its segment from last_time to the new
        window time. */
    method AdvanceOnce(fm: FuncManager, q: MoveQueue, s: nat, e: nat) returns (more: bool)
      requires ValidQueue(q) && e < |q.moves| && WindowReady(q)
      requires fm.Chained()
      modifies window, window.params, fm`segments, fm`lastTime
      ensures WindowReady(q) && fm.Chained() && window.n == old(window.n)
      ensures !more <==> AtEnd(q, old(State()), window.n, e)
      ensures !more ==>
                && fm.segments == old(fm.segments) && fm.lastTime == old(fm.lastTime)
                && State() == old(State())
      ensures more ==>
                && State() == Step(q, old(State()), window.n, old(fm.lastTime))
                && fm.segments == old(fm.segments) +
                     [SegmentOf(q, State(), window.n, shiftA[..shiftN], shiftT[..shiftN], window.epsilon, old(fm.lastTime), e)]
                && fm.lastTime == window.time
    {
      more := MoveShaperWindowToNext(q, s, e, fm.lastTime);
      if more {
        var c := window.funcParams;
        fm.AddDeltaTimeFuncParams(c.a, c.b, c.c, fm.lastTime, window.time, window.pos);
      }
    }
  }
}
