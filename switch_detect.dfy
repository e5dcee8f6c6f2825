/** The switch and probe detector of the J1 controller (snapmaker/J1/switch_detect.cpp).
    Two 32-bit registers drive it: `enable_bits` says which inputs are watched, and
    `status_bits` holds what the last check saw, plus two one-shot stop requests. The source
    touches these registers only through TEST, SBI, CBI and whole-register assignment, so a
    register is modelled as the set of its 1-bits. Pin levels are inputs of the model, and
    the call to stepper.quick_stop() is the result of Check. */
module SwitchDetect {

  const PROBE0_BIT: nat := 2
  const PROBE1_BIT: nat := 3
  const POWER_LOSS_BIT: nat := 4
  const STALL_GUARD_BIT: nat := 5
  const MANUAL_STOP_BIT: nat := 6
  const STALLGUARD_BIT: nat := 7

  /** A 32-bit register, as the set of the positions of its 1-bits. */
  type Register = r: set<nat> | forall b :: b in r ==> b < 32

  /** TEST(x, bit) */
  predicate Test(x: Register, bit: nat)
  {
    bit in x
  }

  /** SBI(x, bit): sets that bit and changes no other. */
  function SetBit(x: Register, bit: nat): (r: Register)
    requires bit < 32
    ensures Test(r, bit)
    ensures forall j :: j != bit ==> (Test(r, j) <==> Test(x, j))
  {
    x + {bit}
  }

  /** CBI(x, bit): clears that bit and changes no other. */
  function ClearBit(x: Register, bit: nat): (r: Register)
    ensures !Test(r, bit)
    ensures forall j :: j != bit ==> (Test(r, j) <==> Test(x, j))
  {
    x - {bit}
  }

  /** A probe pin reads at its active level: LOW when probe_detect_level is 0, HIGH otherwise.
      `high` is the level READ returns. */
  predicate PinActive(level: nat, high: bool)
  {
    if level == 0 then !high else high
  }

  /** A stop requested by manual_trig_stop or stall_guard_stop is pending in `status`. */
  predicate StopRequested(status: Register)
  {
    Test(status, MANUAL_STOP_BIT) || Test(status, STALLGUARD_BIT)
  }

  /** The probe on `bit` is watched and reads active. */
  predicate ProbeHit(enable: Register, level: nat, bit: nat, high: bool)
  {
    Test(enable, bit) && PinActive(level, high)
  }

  /** The decision of one check: whether to stop the steppers, and the new status bits. */
  datatype CheckResult = CheckResult(stop: bool, status: Register)

  /** What check() decides, probe by probe. A pending stop request wins and clears the status.
      Otherwise a probe stops the machine when it reads active now and its status bit says it
      read active at the previous check; once probe 0 has stopped the machine, probe 1 is
      not sampled. The new status keeps at most the two probe bits. */
  function CheckSpec(status: Register, enable: Register, level: nat, x0High: bool, x1High: bool): (r: CheckResult)
    ensures StopRequested(status) ==> r == CheckResult(true, {})
    ensures !StopRequested(status) ==>
              (r.stop <==> (ProbeHit(enable, level, PROBE0_BIT, x0High) && Test(status, PROBE0_BIT)) ||
                           (ProbeHit(enable, level, PROBE1_BIT, x1High) && Test(status, PROBE1_BIT)))
    ensures !StopRequested(status) ==>
              (Test(r.status, PROBE0_BIT) <==> ProbeHit(enable, level, PROBE0_BIT, x0High))
    ensures !StopRequested(status) ==>
              (Test(r.status, PROBE1_BIT) <==>
                 ProbeHit(enable, level, PROBE1_BIT, x1High) &&
                 !(ProbeHit(enable, level, PROBE0_BIT, x0High) && Test(status, PROBE0_BIT)))
    ensures r.status <= {PROBE0_BIT, PROBE1_BIT}
  {
    var hit0 := ProbeHit(enable, level, PROBE0_BIT, x0High);
    var trip0 := hit0 && Test(status, PROBE0_BIT);
    var hit1 := !trip0 && ProbeHit(enable, level, PROBE1_BIT, x1High);
    var trip1 := hit1 && Test(status, PROBE1_BIT);
    if StopRequested(status) then CheckResult(true, {})
    else CheckResult(trip0 || trip1, (if hit0 then {PROBE0_BIT} else {}) + (if hit1 then {PROBE1_BIT} else {}))
  }

  /** The state of the detector: enable_bits, status_bits and probe_detect_level. */
  class SwitchDetector {
    var enableBits: Register
    var statusBits: Register
    var probeDetectLevel: nat

    ghost predicate Valid()
      reads this`probeDetectLevel
    {
      probeDetectLevel < 256
    }

    /** The detector as init() leaves it, after disable_all(). */
    constructor ()
      ensures Valid()
      ensures enableBits == {} && statusBits == {} && probeDetectLevel == 0
    {
      enableBits, statusBits := {}, {};
      probeDetectLevel := 0;
    }

    /** The UPDATE_STATUS macro on the scratch register `reg`: for a watched input, record
        whether its pin reads active, and raise `trigged` when it did so at the previous check
        as well. `high` is the pin level READ returns. */
    method UpdateStatus(reg: Register, trigged: bool, bit: nat, high: bool) returns (reg': Register, trigged': bool)
      requires bit < 32
      ensures Test(reg', bit) == if Test(enableBits, bit) then PinActive(probeDetectLevel, high) else Test(reg, bit)
      ensures forall j :: j != bit ==> (Test(reg', j) <==> Test(reg, j))
      ensures trigged' <==> trigged || (ProbeHit(enableBits, probeDetectLevel, bit, high) && Test(statusBits, bit))
    {
      reg', trigged' := reg, trigged;
      if Test(enableBits, bit) {
        if PinActive(probeDetectLevel, high) {
          reg' := SetBit(reg', bit);
        } else {
          reg' := ClearBit(reg', bit);
        }
        if Test(reg', bit) && Test(statusBits, bit) {
          trigged' := true;
        }
      }
    }

    /** check(): consume a pending stop request, otherwise sample the probes; `quickStop` is
        true when the source calls stepper.quick_stop(). */
    method Check(x0High: bool, x1High: bool) returns (quickStop: bool)
      modifies this`statusBits
      ensures CheckResult(quickStop, statusBits) ==
              CheckSpec(old(statusBits), enableBits, probeDetectLevel, x0High, x1High)
    {
      var tmp: Register := {};
      var trigged := false;
      if Test(statusBits, MANUAL_STOP_BIT) {
        trigged := true;
        statusBits := ClearBit(statusBits, MANUAL_STOP_BIT);
      }
      if Test(statusBits, STALLGUARD_BIT) {
        trigged := true;
        statusBits := ClearBit(statusBits, STALLGUARD_BIT);
      }
      label sample: {
        if trigged {
          break sample;
        }
        tmp, trigged := UpdateStatus(tmp, trigged, PROBE0_BIT, x0High);
        if trigged {
          break sample;
        }
        tmp, trigged := UpdateStatus(tmp, trigged, PROBE1_BIT, x1High);
      }
      quickStop := trigged;
      ghost var spec := CheckSpec(old(statusBits), enableBits, probeDetectLevel, x0High, x1High);
      forall j | j in tmp || j in spec.status
        ensures j in tmp <==> j in spec.status
      {
        assert Test(tmp, j) <==> Test(spec.status, j);
      }
      assert tmp == spec.status;
      statusBits := tmp;
    }

    /** disable_all() */
    method DisableAll()
      modifies this`enableBits, this`statusBits
      ensures enableBits == {} && statusBits == {}
    {
      enableBits := {};
      statusBits := {};
    }

    /** set_probe_detect_level(Level) */
    method SetProbeDetectLevel(level: nat)
      requires level < 256
      modifies this`probeDetectLevel
      ensures Valid() && probeDetectLevel == level
    {
      probeDetectLevel := level;
    }

    /** enable(Item): watch the input and forget what it last read. */
    method Enable(item: nat)
      requires item < 32
      modifies this`enableBits, this`statusBits
      ensures enableBits == SetBit(old(enableBits), item)
      ensures statusBits == ClearBit(old(statusBits), item)
    {
      enableBits := SetBit(enableBits, item);
      statusBits := ClearBit(statusBits, item);
    }

    /** disable(Item): stop watching the input and forget what it last read. */
    method Disable(item: nat)
      requires item < 32
      modifies this`enableBits, this`statusBits
      ensures enableBits == ClearBit(old(enableBits), item)
      ensures statusBits == ClearBit(old(statusBits), item)
    {
      enableBits := ClearBit(enableBits, item);
      statusBits := ClearBit(statusBits, item);
    }

    /** enable_probe() */
    method EnableProbe()
      modifies this`enableBits, this`statusBits
      ensures enableBits == old(enableBits) + {PROBE0_BIT, PROBE1_BIT}
      ensures statusBits == old(statusBits) - {PROBE0_BIT, PROBE1_BIT}
    {
      Enable(PROBE0_BIT);
      Enable(PROBE1_BIT);
    }

    /** disable_probe() */
    method DisableProbe()
      modifies this`enableBits, this`statusBits
      ensures enableBits == old(enableBits) - {PROBE0_BIT, PROBE1_BIT}
      ensures statusBits == old(statusBits) - {PROBE0_BIT, PROBE1_BIT}
    {
      Disable(PROBE0_BIT);
      Disable(PROBE1_BIT);
    }

    /** enable_power_lost() */
    method EnablePowerLost()
      modifies this`enableBits, this`statusBits
      ensures enableBits == SetBit(old(enableBits), POWER_LOSS_BIT)
      ensures statusBits == ClearBit(old(statusBits), POWER_LOSS_BIT)
    {
      Enable(POWER_LOSS_BIT);
    }

    /** disable_power_lost() */
    method DisablePowerLost()
      modifies this`enableBits, this`statusBits
      ensures enableBits == ClearBit(old(enableBits), POWER_LOSS_BIT)
      ensures statusBits == ClearBit(old(statusBits), POWER_LOSS_BIT)
    {
      Disable(POWER_LOSS_BIT);
    }

    /** enable_stall_guard() */
    method EnableStallGuard()
      modifies this`enableBits, this`statusBits
      ensures enableBits == SetBit(old(enableBits), STALL_GUARD_BIT)
      ensures statusBits == ClearBit(old(statusBits), STALL_GUARD_BIT)
    {
      Enable(STALL_GUARD_BIT);
    }

    /** disable_stall_guard() */
    method DisableStallGuard()
      modifies this`enableBits, this`statusBits
      ensures enableBits == ClearBit(old(enableBits), STALL_GUARD_BIT)
      ensures statusBits == ClearBit(old(statusBits), STALL_GUARD_BIT)
    {
      Disable(STALL_GUARD_BIT);
    }

    /** manual_trig_stop(): request a stop at the next check. */
    method ManualTrigStop()
      modifies this`statusBits
      ensures statusBits == SetBit(old(statusBits), MANUAL_STOP_BIT)
    {
      statusBits := SetBit(statusBits, MANUAL_STOP_BIT);
    }

    /** stall_guard_stop(): request a stop at the next check. */
    method StallGuardStop()
      modifies this`statusBits
      ensures statusBits == SetBit(old(statusBits), STALLGUARD_BIT)
    {
      statusBits := SetBit(statusBits, STALLGUARD_BIT);
    }
  }

  /** A watched probe that reads active at two consecutive checks stops the machine at the
      second one: always for probe 0, and for probe 1 when the first check did not already
      stop (a first-check stop by probe 0 leaves probe 1 unsampled). */
  lemma TwoActiveReadsStop(status: Register, enable: Register, level: nat, a0: bool, a1: bool, b0: bool, b1: bool)
    requires !StopRequested(status)
    ensures var first := CheckSpec(status, enable, level, a0, a1);
            var second := CheckSpec(first.status, enable, level, b0, b1);
            && (ProbeHit(enable, level, PROBE0_BIT, a0) && ProbeHit(enable, level, PROBE0_BIT, b0) ==> second.stop)
            && (!first.stop && ProbeHit(enable, level, PROBE1_BIT, a1) && ProbeHit(enable, level, PROBE1_BIT, b1) ==>
                  second.stop)
  {
  }

  /** A single active read never stops the machine: right after enable(), a probe's status bit
      is clear, so the next check can stop only for a pending request or the other probe. */
  lemma FreshEnableNeedsSecondRead(status: Register, enable: Register, level: nat, x0High: bool, x1High: bool)
    ensures CheckSpec(ClearBit(status, PROBE0_BIT), SetBit(enable, PROBE0_BIT), level, x0High, x1High).stop ==>
              StopRequested(status) || (ProbeHit(enable, level, PROBE1_BIT, x1High) && Test(status, PROBE1_BIT))
    ensures CheckSpec(ClearBit(status, PROBE1_BIT), SetBit(enable, PROBE1_BIT), level, x0High, x1High).stop ==>
              StopRequested(status) || (ProbeHit(enable, level, PROBE0_BIT, x0High) && Test(status, PROBE0_BIT))
  {
  }
}
