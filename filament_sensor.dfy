/** The filament-runout detector (snapmaker/module/filament_sensor.h and filament_sensor.cpp).
    For each of the two extruders it counts extruder steps and keeps a baseline reading of the
    filament sensor's ADC. Each time the extruder has moved far enough, it compares the
    averaged ADC value with the baseline: a reading that barely changed means the filament
    did not move. An 8-bit shift register of such error outcomes is matched against a mask of
    the last `check_times` outcomes.

    The 8-bit registers err_times and err_mask are touched only by shifts, OR and AND, so
    they are modelled as the sets of the positions of their 1-bits. The 32-bit counters are
    integers with their wrap-around written out. */
module FilamentSensor {

  const SENSOR_COUNT: nat := 2
  const INT32_MIN: int := -0x8000_0000
  const INT32_MAX: int := 0x7FFF_FFFF
  const UINT32_LIMIT: int := 0x1_0000_0000
  const UINT16_LIMIT: int := 0x1_0000

  predicate IsInt32(x: int)
  {
    INT32_MIN <= x <= INT32_MAX
  }

  /** Conversion of an integer to int32: two's-complement wrap-around. */
  function WrapInt32(x: int): (r: int)
    ensures IsInt32(r)
    ensures (r - x) % UINT32_LIMIT == 0
    ensures IsInt32(x) ==> r == x
  {
    (x - INT32_MIN) % UINT32_LIMIT + INT32_MIN
  }

  /** C's integer division, which truncates toward zero. */
  function TruncDiv(a: int, n: nat): int
    requires n > 0
  {
    if a >= 0 then a / n else -((-a) / n)
  }

  function Abs(x: int): nat
  {
    if x >= 0 then x else -x
  }

  function Min(a: nat, b: nat): nat
  {
    if a <= b then a else b
  }

  /** SumTo(w, n) is the sum of the first n samples of w. */
  function SumTo(w: seq<nat>, n: nat): nat
    requires n <= |w|
  {
    if n == 0 then 0 else SumTo(w, n - 1) + w[n - 1]
  }

  /** A sum depends only on the samples it covers. */
  lemma {:induction false} SumToPrefix(w: seq<nat>, v: seq<nat>, n: nat)
    requires n <= |w| && n <= |v|
    requires w[..n] == v[..n]
    ensures SumTo(w, n) == SumTo(v, n)
  {
    if n > 0 {
      assert w[..n - 1] == w[..n][..n - 1] && v[..n - 1] == v[..n][..n - 1];
      assert w[n - 1] == w[..n][n - 1] && v[n - 1] == v[..n][n - 1];
      SumToPrefix(w, v, n - 1);
    }
  }

  /** Samples between lo and hi give a sum between n * lo and n * hi. */
  lemma {:induction false} SumToBounds(w: seq<nat>, n: nat, lo: nat, hi: nat)
    requires n <= |w|
    requires forall i :: 0 <= i < |w| ==> lo <= w[i] <= hi
    ensures n * lo <= SumTo(w, n) <= n * hi
  {
    if n > 0 {
      SumToBounds(w, n - 1, lo, hi);
      assert n * lo == (n - 1) * lo + lo && n * hi == (n - 1) * hi + hi;
    }
  }

  /** The value ready() stores: raw / sample_num in C's int32 division, narrowed to uint16;
      the previous value when no sample arrived. */
  function Averaged(raw: int, sampleNum: nat, prev: nat): nat
  {
    if sampleNum != 0 then TruncDiv(raw, sampleNum) % UINT16_LIMIT else prev
  }

  /** An ADC sample averager, fed by the temperature interrupt and read by check().
      `window` holds the samples taken since the last ready(). */
  class FilamentSample {
    var raw: int
    var value: nat
    var sampleNum: nat
    ghost var window: seq<nat>

    /** raw and sample_num are the window's sum and length in their C widths. */
    ghost predicate Valid()
      reads this
    {
      && IsInt32(raw) && value < UINT16_LIMIT && sampleNum < 256
      && raw == WrapInt32(SumTo(window, |window|))
      && sampleNum == |window| % 256
    }

    /** A sampler of the global filament_sensor object: static storage starts at zero. */
    constructor ()
      ensures Valid() && value == 0 && window == []
    {
      raw, value, sampleNum := 0, 0, 0;
      window := [];
    }

    /** sample(s): raw += s in 32-bit arithmetic, sample_num++ in 8 bits. */
    method Sample(s: nat)
      requires Valid() && s < UINT32_LIMIT
      modifies this
      ensures Valid() && window == old(window) + [s]
      ensures raw == WrapInt32(old(raw) + s) && sampleNum == (old(sampleNum) + 1) % 256
      ensures value == old(value)
    {
      ghost var w := window + [s];
      assert w[..|window|] == window[..|window|];
      SumToPrefix(w, window, |window|);
      WrapAdd(SumTo(window, |window|), s);
      raw := WrapInt32(raw + s);
      sampleNum := (sampleNum + 1) % 256;
      window := w;
    }

    /** ready(): publish the average of the window and start a new one. */
    method Ready()
      requires Valid()
      modifies this
      ensures Valid() && window == []
      ensures raw == 0 && sampleNum == 0
      ensures value == Averaged(old(raw), old(sampleNum), old(value))
    {
      if sampleNum != 0 {
        value := TruncDiv(raw, sampleNum) % UINT16_LIMIT;
      }
      sampleNum, raw := 0, 0;
      window := [];
    }

    /** get() */
    function Get(): (v: nat)
      requires Valid()
      reads this
      ensures v < UINT16_LIMIT
    {
      value
    }
  }

  /** Wrapping after each addition is wrapping once at the end. */
  lemma WrapAdd(a: int, s: int)
    ensures WrapInt32(WrapInt32(a) + s) == WrapInt32(a + s)
  {
    var q := (WrapInt32(a) - a) / UINT32_LIMIT;
    assert WrapInt32(a) + s == (a + s) + q * UINT32_LIMIT;
    ModShift(a + s - INT32_MIN, q);
  }

  lemma ModShift(x: int, q: int)
    ensures (x + q * UINT32_LIMIT) % UINT32_LIMIT == x % UINT32_LIMIT
  {
  }

  /** With fewer than 256 samples of at most 16 bits since the last ready(), ready() stores
      their exact mean, which lies between the smallest and the largest sample. */
  lemma {:induction false} ReadyGivesMean(w: seq<nat>, lo: nat, hi: nat)
    requires 0 < |w| < 256
    requires forall i :: 0 <= i < |w| ==> lo <= w[i] <= hi
    requires hi < UINT16_LIMIT
    ensures var mean := Averaged(WrapInt32(SumTo(w, |w|)), |w| % 256, 0);
            && mean == SumTo(w, |w|) / |w|
            && lo <= mean <= hi
  {
    var n, total := |w|, SumTo(w, |w|);
    SumToBounds(w, n, lo, hi);
    MulBelow(n, hi, 256, UINT16_LIMIT);
    assert IsInt32(total);
    DivBetween(total, n, lo, hi);
    var mean := total / n;
    assert mean < UINT16_LIMIT;
    calc {
      Averaged(WrapInt32(total), n % 256, 0);
      TruncDiv(total, n) % UINT16_LIMIT;
      mean % UINT16_LIMIT;
      mean;
    }
  }

  /** a < c and b < d give a * b < c * d on naturals. */
  lemma MulBelow(a: nat, b: nat, c: nat, d: nat)
    requires a < c && b < d
    ensures a * b < c * d
  {
    assert a * b <= a * d;
    assert a * d < c * d;
  }

  /** n * lo <= t <= n * hi gives lo <= t / n <= hi. */
  lemma DivBetween(t: nat, n: nat, lo: nat, hi: nat)
    requires n > 0 && n * lo <= t <= n * hi
    ensures lo <= t / n <= hi
  {
    var q, r := t / n, t % n;
    assert t == n * q + r && 0 <= r < n;
    assert n * lo < n * (q + 1);
    PositiveFactor(n, q + 1 - lo);
    assert n * q <= n * hi;
    NonNegativeFactor(n, hi - q);
  }

  lemma PositiveFactor(n: nat, x: int)
    requires n > 0 && n * x > 0
    ensures x > 0
  {
  }

  lemma NonNegativeFactor(n: nat, x: int)
    requires n > 0 && n * x >= 0
    ensures x >= 0
  {
  }

  /** After 256 samples without a ready(), the 8-bit sample counter is back at zero, so
      ready() keeps the previous value and drops the whole window. */
  lemma SampleCountWraps(raw: int, prev: nat)
    ensures Averaged(raw, 256 % 256, prev) == prev
  {
  }

  /** An 8-bit register, as the set of the positions of its 1-bits. */
  type Byte = s: set<nat> | forall j :: j in s ==> j < 8

  /** err_mask = ~(0xff << check_times), narrowed to 8 bits. Bit j of 0xff << k is set for
      k <= j < k + 8, so the complement keeps bit j below 8 exactly when j < k. Shifts by
      32 or more are undefined in C, hence the precondition. */
  function ErrMask(k: nat): (r: Byte)
    requires k < 32
    ensures forall j: nat :: j in r <==> j < Min(k, 8)
  {
    set j: nat | j < 8 && !ShiftedOnes(k, j)
  }

  /** Bit j of the int 0xff << k. */
  predicate ShiftedOnes(k: nat, j: nat)
  {
    k <= j < k + 8
  }

  /** Bit j of e << 1. */
  predicate ShiftedLeft(e: Byte, j: nat)
  {
    j >= 1 && (j - 1) in e
  }

  /** err_times << 1 | b, narrowed to 8 bits. */
  function ShiftIn(e: Byte, b: bool): Byte
  {
    (set j: nat | j < 8 && ShiftedLeft(e, j)) + (if b then {0} else {})
  }

  /** (e & mask) == mask */
  predicate Matches(e: Byte, mask: Byte)
  {
    mask <= e
  }

  /** The register that records the evaluation outcomes `h` (oldest first) after a reset:
      bit j holds the outcome of j evaluations ago, for the last eight. */
  function History(h: seq<bool>): (r: Byte)
    ensures h == [] ==> r == {}
  {
    set j: nat | j < 8 && OutcomeAgo(h, j)
  }

  /** The outcome of j evaluations before the last one in h, when there was one. */
  predicate OutcomeAgo(h: seq<bool>, j: nat)
  {
    j < |h| && h[|h| - 1 - j]
  }

  /** Shifting an outcome into the register appends it to the history. */
  lemma ShiftInHistory(h: seq<bool>, b: bool)
    ensures ShiftIn(History(h), b) == History(h + [b])
  {
    var h' := h + [b];
    forall j: nat
      ensures j in ShiftIn(History(h), b) <==> j in History(h')
    {
      if 1 <= j < 8 && j <= |h| {
        assert h'[|h'| - 1 - j] == h[|h| - 1 - (j - 1)];
      }
    }
  }

  /** The register matches the mask for check_times = k exactly when the last min(k, 8)
      evaluations since the reset all found an error. */
  lemma MatchesHistory(h: seq<bool>, k: nat)
    requires k < 32
    ensures Matches(History(h), ErrMask(k)) <==>
            Min(k, 8) <= |h| && forall i :: |h| - Min(k, 8) <= i < |h| ==> h[i]
  {
    var m := Min(k, 8);
    if Matches(History(h), ErrMask(k)) {
      if m > 0 {
        assert m - 1 in ErrMask(k);
      }
      forall i | |h| - m <= i < |h|
        ensures h[i]
      {
        assert |h| - 1 - i in ErrMask(k);
      }
    }
    if m <= |h| && forall i :: |h| - m <= i < |h| ==> h[i] {
      forall j | j in ErrMask(k)
        ensures j in History(h)
      {
        assert h[|h| - 1 - j];
      }
    }
  }

  /** One extruder's part of the detector state. */
  datatype Channel = Channel(
    enabled: bool,
    stepCount: int,
    checkStepCount: int,
    startAdc: nat,
    errTimes: Byte,
    triggered: bool)

  /** Whether the extruder has moved check_step_count steps, either way, since the baseline. */
  predicate DueForEvaluation(c: Channel)
  {
    c.stepCount >= c.checkStepCount || c.stepCount <= -c.checkStepCount
  }

  /** Whether the reading `adc` is an error against the baseline: it moved by less than the
      threshold. */
  predicate IsError(c: Channel, adc: nat, threshold: nat)
  {
    Abs(adc - c.startAdc) < threshold
  }

  /** What check() does to one extruder, given the sampler's value `adc`. */
  function CheckChannel(c: Channel, adc: nat, threshold: nat, mask: Byte): (r: Channel)
    ensures r.enabled == c.enabled && r.checkStepCount == c.checkStepCount
    ensures !c.enabled ==> r == c
    ensures c.enabled && c.startAdc == 0 ==>
              r == c.(stepCount := 0, startAdc := adc)
    ensures c.enabled && c.startAdc != 0 && !DueForEvaluation(c) ==> r == c
    ensures c.enabled && c.startAdc != 0 && DueForEvaluation(c) ==>
              && r.errTimes == ShiftIn(c.errTimes, IsError(c, adc, threshold))
              && (r.triggered <==> Matches(r.errTimes, mask))
              && r.stepCount == 0 && r.startAdc == adc
  {
    if !c.enabled then c
    else if c.startAdc == 0 then c.(stepCount := 0, startAdc := adc)
    else if DueForEvaluation(c) then
      var e := ShiftIn(c.errTimes, IsError(c, adc, threshold));
      c.(errTimes := e, triggered := Matches(e, mask), stepCount := 0, startAdc := adc)
    else c
  }

  /** The runout rule: when the register records the outcomes `h` since the last reset, an
      evaluation appends its outcome, and the extruder is flagged exactly when its last
      min(check_times, 8) evaluations all found an error. */
  lemma EvaluationFlagsRunout(c: Channel, h: seq<bool>, adc: nat, threshold: nat, k: nat)
    requires k < 32
    requires c.enabled && c.startAdc != 0 && DueForEvaluation(c)
    requires c.errTimes == History(h)
    ensures var h' := h + [IsError(c, adc, threshold)];
            var r := CheckChannel(c, adc, threshold, ErrMask(k));
            && r.errTimes == History(h')
            && (r.triggered <==> Min(k, 8) <= |h'| && forall i :: |h'| - Min(k, 8) <= i < |h'| ==> h'[i])
  {
    var h' := h + [IsError(c, adc, threshold)];
    ShiftInHistory(h, IsError(c, adc, threshold));
    MatchesHistory(h', k);
  }

  /** With check_times = 0 the mask is empty, so every evaluation flags the extruder. */
  lemma ZeroCheckTimesAlwaysTriggers(c: Channel, adc: nat, threshold: nat)
    requires c.enabled && c.startAdc != 0 && DueForEvaluation(c)
    ensures CheckChannel(c, adc, threshold, ErrMask(0)).triggered
  {
    assert ErrMask(0) == {};
  }

  /** A reading that moved by at least the threshold clears the flag whenever the mask has
      a bit (check_times >= 1). */
  lemma MovedReadingClears(c: Channel, adc: nat, threshold: nat, k: nat)
    requires 0 < k < 32
    requires c.enabled && c.startAdc != 0 && DueForEvaluation(c)
    requires !IsError(c, adc, threshold)
    ensures !CheckChannel(c, adc, threshold, ErrMask(k)).triggered
  {
    assert 0 in ErrMask(k);
  }

  /** The detector. `enabled`, `checkTimes` and `threshold` are the public filament_param
      settings; the other fields mirror the private per-extruder arrays. */
  class FilamentSensor {
    const filament: seq<FilamentSample>
    var enabled: seq<bool>
    var checkTimes: nat
    var threshold: nat
    var errMask: Byte
    var checkStepCount: seq<int>
    var errTimes: seq<Byte>
    var eStepCount: seq<int>
    var triggered: seq<bool>
    var startAdc: seq<nat>

    ghost predicate Valid()
      reads this
    {
      && |filament| == SENSOR_COUNT
      && |enabled| == SENSOR_COUNT && |checkStepCount| == SENSOR_COUNT
      && |errTimes| == SENSOR_COUNT && |eStepCount| == SENSOR_COUNT
      && |triggered| == SENSOR_COUNT && |startAdc| == SENSOR_COUNT
      && checkTimes < 256 && threshold < UINT16_LIMIT
    }

    /** Extruder i's part of the state. */
    function ChannelOf(i: nat): (c: Channel)
      requires Valid() && i < SENSOR_COUNT
      reads this
      ensures c.enabled == enabled[i] && c.triggered == triggered[i]
    {
      Channel(enabled[i], eStepCount[i], checkStepCount[i], startAdc[i], errTimes[i], triggered[i])
    }

    /** The global filament_sensor object before init(): static storage is zero, err_mask
        starts at 0x1. */
    constructor ()
      ensures Valid() && fresh(filament[0]) && fresh(filament[1]) && filament[0] != filament[1]
      ensures forall i :: 0 <= i < SENSOR_COUNT ==>
                filament[i].Valid() && ChannelOf(i) == Channel(false, 0, 0, 0, {}, false)
      ensures errMask == {0} && checkTimes == 0 && threshold == 0
    {
      var f0 := new FilamentSample();
      var f1 := new FilamentSample();
      filament := [f0, f1];
      enabled, checkTimes, threshold := [false, false], 0, 0;
      errMask := {0};
      checkStepCount, errTimes, eStepCount := [0, 0], [{}, {}], [0, 0];
      triggered, startAdc := [false, false], [0, 0];
    }

    /** e0_step(step) and e1_step(step): count one step of extruder e, forward when `step` is
        non-zero and backward otherwise, in int32. */
    method EStep(e: nat, step: nat)
      requires Valid() && e < SENSOR_COUNT
      modifies this`eStepCount
      ensures Valid()
      ensures eStepCount == old(eStepCount)[e := WrapInt32(old(eStepCount)[e] + if step != 0 then 1 else -1)]
    {
      if step != 0 {
        eStepCount := eStepCount[e := WrapInt32(eStepCount[e] + 1)];
      } else {
        eStepCount := eStepCount[e := WrapInt32(eStepCount[e] - 1)];
      }
    }

    /** next_sample(e): restart extruder e's step count and take the sampler's value as the
        new baseline. */
    method NextSample(e: nat)
      requires Valid() && e < SENSOR_COUNT
      modifies this`eStepCount, this`startAdc
      ensures Valid()
      ensures eStepCount == old(eStepCount)[e := 0]
      ensures startAdc == old(startAdc)[e := filament[e].value]
    {
      eStepCount := eStepCount[e := 0];
      startAdc := startAdc[e := filament[e].value];
    }

    /** reset(): new baselines, cleared flags and registers, the step distance per check
        (`stepsPerCheck[i]` stands for distance * steps_per_mm of extruder i, already
        converted to int32) and the mask for check_times. */
    method Reset(stepsPerCheck: seq<int>)
      requires Valid() && |stepsPerCheck| == SENSOR_COUNT && checkTimes < 32
      modifies this
      ensures Valid() && enabled == old(enabled)
      ensures checkTimes == old(checkTimes) && threshold == old(threshold)
      ensures forall i :: 0 <= i < SENSOR_COUNT ==>
                ChannelOf(i) == Channel(enabled[i], 0, stepsPerCheck[i], filament[i].value, {}, false)
      ensures errMask == ErrMask(checkTimes)
      ensures forall i :: 0 <= i < SENSOR_COUNT ==> errTimes[i] == History([])
    {
      for i := 0 to SENSOR_COUNT
        invariant Valid() && enabled == old(enabled)
        invariant checkTimes == old(checkTimes) && threshold == old(threshold)
        invariant forall j :: 0 <= j < i ==>
                    ChannelOf(j) == Channel(enabled[j], 0, stepsPerCheck[j], filament[j].value, {}, false)
        invariant forall j :: 0 <= j < i ==> errTimes[j] == {}
      {
        NextSample(i);
        triggered := triggered[i := false];
        errTimes := errTimes[i := {}];
        checkStepCount := checkStepCount[i := stepsPerCheck[i]];
      }
      errMask := ErrMask(checkTimes);
      assert History([]) == {};
    }

    /** check(): evaluate every extruder against its sampler's current value. */
    method Check()
      requires Valid()
      modifies this`eStepCount, this`startAdc, this`errTimes, this`triggered
      ensures Valid()
      ensures forall i :: 0 <= i < SENSOR_COUNT ==>
                ChannelOf(i) == CheckChannel(old(ChannelOf(i)), filament[i].value, threshold, errMask)
    {
      for i := 0 to SENSOR_COUNT
        invariant Valid()
        invariant forall j :: 0 <= j < i ==>
                    ChannelOf(j) == CheckChannel(old(ChannelOf(j)), filament[j].value, threshold, errMask)
        invariant forall j :: i <= j < SENSOR_COUNT ==> ChannelOf(j) == old(ChannelOf(j))
      {
        CheckOne(i);
      }
    }

    /** One pass of check()'s loop. */
    method CheckOne(i: nat)
      requires Valid() && i < SENSOR_COUNT
      modifies this`eStepCount, this`startAdc, this`errTimes, this`triggered
      ensures Valid()
      ensures ChannelOf(i) == CheckChannel(old(ChannelOf(i)), filament[i].value, threshold, errMask)
      ensures forall j :: 0 <= j < SENSOR_COUNT && j != i ==> ChannelOf(j) == old(ChannelOf(j))
    {
      if !enabled[i] {
        return;
      }
      if startAdc[i] == 0 {
        NextSample(i);
        return;
      }
      if eStepCount[i] >= checkStepCount[i] || eStepCount[i] <= -checkStepCount[i] {
        var diff := Abs(filament[i].value - startAdc[i]);
        var isErr := diff < threshold;
        errTimes := errTimes[i := ShiftIn(errTimes[i], isErr)];
        if Matches(errTimes[i], errMask) {
          triggered := triggered[i := true];
        } else {
          triggered := triggered[i := false];
        }
        NextSample(i);
      }
    }

    /** enable(e): watch extruder e from a fresh baseline. check_step_count is zeroed, so every
        check evaluates until the next reset(). */
    method Enable(e: nat)
      requires Valid() && e < SENSOR_COUNT
      modifies this`enabled, this`triggered, this`checkStepCount, this`eStepCount, this`startAdc
      ensures Valid()
      ensures enabled == old(enabled)[e := true] && triggered == old(triggered)[e := false]
      ensures checkStepCount == old(checkStepCount)[e := 0]
      ensures eStepCount == old(eStepCount)[e := 0]
      ensures startAdc == old(startAdc)[e := filament[e].value]
    {
      enabled := enabled[e := true];
      triggered := triggered[e := false];
      checkStepCount := checkStepCount[e := 0];
      NextSample(e);
    }

    /** disable(e) */
    method Disable(e: nat)
      requires Valid() && e < SENSOR_COUNT
      modifies this`enabled, this`triggered
      ensures Valid()
      ensures triggered == old(triggered)[e := false] && enabled == old(enabled)[e := false]
    {
      triggered := triggered[e := false];
      enabled := enabled[e := false];
    }

    /** enable_all() */
    method EnableAll()
      requires Valid()
      modifies this`enabled, this`triggered, this`checkStepCount, this`eStepCount, this`startAdc
      ensures Valid()
      ensures forall i :: 0 <= i < SENSOR_COUNT ==>
                ChannelOf(i) == Channel(true, 0, 0, filament[i].value, old(errTimes)[i], false)
    {
      for i := 0 to SENSOR_COUNT
        invariant Valid() && errTimes == old(errTimes)
        invariant forall j :: 0 <= j < i ==>
                    ChannelOf(j) == Channel(true, 0, 0, filament[j].value, old(errTimes)[j], false)
      {
        Enable(i);
      }
    }

    /** disable_all() */
    method DisableAll()
      requires Valid()
      modifies this`enabled, this`triggered
      ensures Valid()
      ensures enabled == [false, false] && triggered == [false, false]
    {
      for i := 0 to SENSOR_COUNT
        invariant Valid()
        invariant forall j :: 0 <= j < i ==> !enabled[j] && !triggered[j]
      {
        Disable(i);
      }
      assert enabled == [false, false] && triggered == [false, false];
    }

    /** ready() of the sensor: publish every sampler's average. */
    method ReadyAll()
      requires Valid() && filament[0] != filament[1]
      requires forall i :: 0 <= i < SENSOR_COUNT ==> filament[i].Valid()
      modifies filament[0], filament[1]
      ensures forall i :: 0 <= i < SENSOR_COUNT ==>
                && filament[i].Valid() && filament[i].window == []
                && filament[i].value == Averaged(old(filament[i].raw), old(filament[i].sampleNum), old(filament[i].value))
    {
      filament[0].Ready();
      filament[1].Ready();
    }

    /** is_trigger(e): only a watched extruder reports a runout. */
    predicate IsTrigger(e: nat)
      requires Valid() && e < SENSOR_COUNT
      reads this
      ensures IsTrigger(e) <==> triggered[e] && IsEnable(e)
    {
      triggered[e] && IsEnable(e)
    }

    /** is_trigger() */
    predicate IsTriggerAny()
      requires Valid()
      reads this
      ensures IsTriggerAny() <==> (triggered[0] && enabled[0]) || (triggered[1] && enabled[1])
    {
      IsTrigger(0) || IsTrigger(1)
    }

    /** is_enable(e) */
    predicate IsEnable(e: nat)
      requires Valid() && e < SENSOR_COUNT
      reads this
      ensures IsEnable(e) <==> enabled[e]
    {
      enabled[e]
    }
  }

  /** A disabled extruder never reports a runout, whatever its flag says. */
  lemma DisabledNeverTriggers(s: FilamentSensor, e: nat)
    requires s.Valid() && e < SENSOR_COUNT && !s.enabled[e]
    ensures !s.IsTrigger(e)
  {
  }

  /** is_trigger() is true exactly when some extruder reports. */
  lemma AnyTriggerMeansSomeExtruder(s: FilamentSensor)
    requires s.Valid()
    ensures s.IsTriggerAny() <==> exists e :: 0 <= e < SENSOR_COUNT && s.IsTrigger(e)
  {
    if s.IsTriggerAny() {
      if s.IsTrigger(0) {
        assert 0 < SENSOR_COUNT;
      } else {
        assert s.IsTrigger(1);
      }
    }
  }

  /** Right after enable(e), once a non-zero baseline is in place, the next check evaluates
      extruder e at once, whatever e_step did in between: check_step_count is zero, so every
      step count is due. */
  lemma EnableEvaluatesAtNextCheck(c: Channel, adc: nat, threshold: nat, mask: Byte)
    requires c.enabled && c.checkStepCount == 0 && c.startAdc != 0
    ensures CheckChannel(c, adc, threshold, mask).errTimes == ShiftIn(c.errTimes, IsError(c, adc, threshold))
  {
  }
}
