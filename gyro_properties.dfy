/**
 * What the gyroscope's operations do to the register file and the trace,
 * stated over their bus traffic: the five ordered transfers of a pin
 * configuration, where the sequence stops when one fails, how the two pins
 * share their registers, and what the single-write operations leave behind.
 */
module GyroProperties {
  import opened Transport
  import opened Types
  import opened Gyro
  import Accel

  /** The register file after a successful pin configuration, given the pin's two byte updates. */
  function PinConfigured(regs: Registers, io: bv8, mapped: bv8): Registers
  {
    regs[GYRO_INT_CTRL as int := INT_ENABLE][GYRO_INT3_INT4_IO_CONF as int := io][GYRO_INT3_INT4_IO_MAP as int := mapped]
  }

  lemma ApplyPinPlan(regs: Registers, plan: seq<Transfer>, io: bv8, mapped: bv8)
    requires |plan| == 5
    requires plan[0].Write? && plan[0].reg == GYRO_INT_CTRL && plan[0].value == INT_ENABLE
    requires plan[1].WriteRead? && plan[3].WriteRead?
    requires plan[2].Write? && plan[2].reg == GYRO_INT3_INT4_IO_CONF && plan[2].value == io
    requires plan[4].Write? && plan[4].reg == GYRO_INT3_INT4_IO_MAP && plan[4].value == mapped
    ensures Apply(regs, plan) == PinConfigured(regs, io, mapped)
  {
    var r1 := Store(regs, plan[0]);
    var r3 := Store(r1, plan[2]);
    assert Apply(regs, plan) == Apply(r1, plan[1..]);
    assert Apply(r1, plan[1..]) == Apply(r1, plan[2..]);
    assert Apply(r1, plan[2..]) == Apply(r3, plan[3..]);
    assert Apply(r3, plan[3..]) == Apply(r3, plan[4..]);
    assert Apply(r3, plan[4..]) == Apply(Store(r3, plan[4]), []);
  }

  /** Fail-fast for any plan shaped like a pin configuration: enable, then two read-modify-writes. */
  lemma PinPlanFailFast(st: BusState, addr: bv8, plan: seq<Transfer>, k: nat)
    requires |plan| == 5 && plan[0] == Write(addr, GYRO_INT_CTRL, INT_ENABLE)
    requires plan[1].WriteRead? && plan[3].WriteRead?
    requires plan[2].Write? && plan[2].reg == GYRO_INT3_INT4_IO_CONF
    requires plan[4].Write? && plan[4].reg == GYRO_INT3_INT4_IO_MAP
    requires k < 5 && Succeeds(st.faults, k) && StatusAt(st.faults, k).Failed?
    ensures var (after, s) := Run(st, plan);
            && s == StatusAt(st.faults, k)
            && |after.trace| == |st.trace| + k + 1
            && (k == 0 ==> after.regs == st.regs
                           && after.trace == st.trace + [Event(Write(addr, GYRO_INT_CTRL, INT_ENABLE), s)])
            && (k <= 2 ==> after.regs[GYRO_INT3_INT4_IO_CONF] == st.regs[GYRO_INT3_INT4_IO_CONF])
            && after.regs[GYRO_INT3_INT4_IO_MAP] == st.regs[GYRO_INT3_INT4_IO_MAP]
  {
    RunStopsAtFailure(st, plan, k);
    if k == 0 {
      assert plan[..0] == [];
      assert Events(plan[..1], st.faults) == [Event(plan[0], StatusAt(st.faults, 0))];
    }
    if k <= 2 {
      ApplyUntouched(st.regs, plan[..k], GYRO_INT3_INT4_IO_CONF);
    }
    ApplyUntouched(st.regs, plan[..k], GYRO_INT3_INT4_IO_MAP);
  }

  // ---------------------------------------------------------------------
  // INT3 and INT4

  /**
   * `configure_int3_pin` with all five transfers succeeding: GYRO_INT_CTRL holds
   * 0x80, the IO register has bits 0-1 set from the behaviour and level, the
   * map register has bit 0 set from `mapInterrupt`, and no other register changes.
   */
  lemma ConfigureInt3PinSucceeds(st: BusState, addr: bv8, behavior: Bmi088PinBehavior, activeHigh: bool,
                                 mapInterrupt: bool)
    requires Succeeds(st.faults, 5)
    ensures var (after, s) := Run(st, ConfigureInt3PinPlan(addr, st.regs, behavior, activeHigh, mapInterrupt));
            && s == Done
            && after.regs == PinConfigured(st.regs, Int3IoConf(st.regs[GYRO_INT3_INT4_IO_CONF], behavior, activeHigh),
                                           Int3Map(st.regs[GYRO_INT3_INT4_IO_MAP], mapInterrupt))
            && |after.trace| == |st.trace| + 5
  {
    var plan := ConfigureInt3PinPlan(addr, st.regs, behavior, activeHigh, mapInterrupt);
    RunCompletes(st, plan);
    ApplyPinPlan(st.regs, plan, Int3IoConf(st.regs[GYRO_INT3_INT4_IO_CONF], behavior, activeHigh),
                 Int3Map(st.regs[GYRO_INT3_INT4_IO_MAP], mapInterrupt));
  }

  /** `configure_int4_pin` with all five transfers succeeding: as pin 3, on bits 2-3 of the IO register and bit 7 of the map. */
  lemma ConfigureInt4PinSucceeds(st: BusState, addr: bv8, behavior: Bmi088PinBehavior, activeHigh: bool,
                                 mapInterrupt: bool)
    requires Succeeds(st.faults, 5)
    ensures var (after, s) := Run(st, ConfigureInt4PinPlan(addr, st.regs, behavior, activeHigh, mapInterrupt));
            && s == Done
            && after.regs == PinConfigured(st.regs, Int4IoConf(st.regs[GYRO_INT3_INT4_IO_CONF], behavior, activeHigh),
                                           Int4Map(st.regs[GYRO_INT3_INT4_IO_MAP], mapInterrupt))
            && |after.trace| == |st.trace| + 5
  {
    var plan := ConfigureInt4PinPlan(addr, st.regs, behavior, activeHigh, mapInterrupt);
    RunCompletes(st, plan);
    ApplyPinPlan(st.regs, plan, Int4IoConf(st.regs[GYRO_INT3_INT4_IO_CONF], behavior, activeHigh),
                 Int4Map(st.regs[GYRO_INT3_INT4_IO_MAP], mapInterrupt));
  }

  /**
   * Fail-fast in `configure_int3_pin`: when the k-th transfer is the first to
   * fail, exactly k + 1 transfers are issued and the operation fails with that
   * error. A failed enable write means the IO and map registers are never
   * addressed; up to a failed IO read the IO register is not written; up to a
   * failed map read the map register is not written.
   */
  lemma ConfigureInt3PinFailFast(st: BusState, addr: bv8, behavior: Bmi088PinBehavior, activeHigh: bool,
                                 mapInterrupt: bool, k: nat)
    requires k < 5 && Succeeds(st.faults, k) && StatusAt(st.faults, k).Failed?
    ensures var (after, s) := Run(st, ConfigureInt3PinPlan(addr, st.regs, behavior, activeHigh, mapInterrupt));
            && s == StatusAt(st.faults, k)
            && |after.trace| == |st.trace| + k + 1
            && (k == 0 ==> after.regs == st.regs
                           && after.trace == st.trace + [Event(Write(addr, GYRO_INT_CTRL, INT_ENABLE), s)])
            && (k <= 2 ==> after.regs[GYRO_INT3_INT4_IO_CONF] == st.regs[GYRO_INT3_INT4_IO_CONF])
            && after.regs[GYRO_INT3_INT4_IO_MAP] == st.regs[GYRO_INT3_INT4_IO_MAP]
  {
    var plan := ConfigureInt3PinPlan(addr, st.regs, behavior, activeHigh, mapInterrupt);
    PinPlanFailFast(st, addr, plan, k);
  }

  /** Fail-fast in `configure_int4_pin`: as for pin 3. */
  lemma ConfigureInt4PinFailFast(st: BusState, addr: bv8, behavior: Bmi088PinBehavior, activeHigh: bool,
                                 mapInterrupt: bool, k: nat)
    requires k < 5 && Succeeds(st.faults, k) && StatusAt(st.faults, k).Failed?
    ensures var (after, s) := Run(st, ConfigureInt4PinPlan(addr, st.regs, behavior, activeHigh, mapInterrupt));
            && s == StatusAt(st.faults, k)
            && |after.trace| == |st.trace| + k + 1
            && (k == 0 ==> after.regs == st.regs
                           && after.trace == st.trace + [Event(Write(addr, GYRO_INT_CTRL, INT_ENABLE), s)])
            && (k <= 2 ==> after.regs[GYRO_INT3_INT4_IO_CONF] == st.regs[GYRO_INT3_INT4_IO_CONF])
            && after.regs[GYRO_INT3_INT4_IO_MAP] == st.regs[GYRO_INT3_INT4_IO_MAP]
  {
    var plan := ConfigureInt4PinPlan(addr, st.regs, behavior, activeHigh, mapInterrupt);
    PinPlanFailFast(st, addr, plan, k);
  }

  /**
   * Configuring pin 4 after pin 3, every transfer succeeding, keeps pin 3's
   * configuration: the IO register's bits 0-1 and the map register's bit 0
   * are still what pin 3 set.
   */
  lemma Pin4KeepsPin3(st: BusState, addr: bv8, behavior3: Bmi088PinBehavior, high3: bool, map3: bool,
                      behavior4: Bmi088PinBehavior, high4: bool, map4: bool)
    requires Succeeds(st.faults, 10)
    ensures var mid := Run(st, ConfigureInt3PinPlan(addr, st.regs, behavior3, high3, map3)).0;
            var after := Run(mid, ConfigureInt4PinPlan(addr, mid.regs, behavior4, high4, map4)).0;
            && (after.regs[GYRO_INT3_INT4_IO_CONF] & 0x02 != 0 <==> behavior3 == OpenDrain)
            && (after.regs[GYRO_INT3_INT4_IO_CONF] & 0x01 != 0 <==> high3)
            && (after.regs[GYRO_INT3_INT4_IO_MAP] & 0x01 != 0 <==> map3)
            && (after.regs[GYRO_INT3_INT4_IO_CONF] & 0x08 != 0 <==> behavior4 == OpenDrain)
            && (after.regs[GYRO_INT3_INT4_IO_CONF] & 0x04 != 0 <==> high4)
            && (after.regs[GYRO_INT3_INT4_IO_MAP] & 0x80 != 0 <==> map4)
  {
    var mid := Run(st, ConfigureInt3PinPlan(addr, st.regs, behavior3, high3, map3)).0;
    AfterPin3(st, addr, behavior3, high3, map3);
    AfterPin4(mid, addr, behavior4, high4, map4);
    BothPinsBits(st.regs[GYRO_INT3_INT4_IO_CONF], st.regs[GYRO_INT3_INT4_IO_MAP],
                 behavior3, high3, map3, behavior4, high4, map4);
  }

  /** After a successful pin 3 configuration: its two registers, and the scripted outcomes still to come. */
  lemma AfterPin3(st: BusState, addr: bv8, behavior: Bmi088PinBehavior, activeHigh: bool, mapInterrupt: bool)
    requires Succeeds(st.faults, 10)
    ensures var mid := Run(st, ConfigureInt3PinPlan(addr, st.regs, behavior, activeHigh, mapInterrupt)).0;
            && mid.regs[GYRO_INT3_INT4_IO_CONF] == Int3IoConf(st.regs[GYRO_INT3_INT4_IO_CONF], behavior, activeHigh)
            && mid.regs[GYRO_INT3_INT4_IO_MAP] == Int3Map(st.regs[GYRO_INT3_INT4_IO_MAP], mapInterrupt)
            && Succeeds(mid.faults, 5)
  {
    var plan := ConfigureInt3PinPlan(addr, st.regs, behavior, activeHigh, mapInterrupt);
    ConfigureInt3PinSucceeds(st, addr, behavior, activeHigh, mapInterrupt);
    RunLeavesSuccesses(st, plan, 5);
  }

  /** After a successful pin 4 configuration: its two registers. */
  lemma AfterPin4(st: BusState, addr: bv8, behavior: Bmi088PinBehavior, activeHigh: bool, mapInterrupt: bool)
    requires Succeeds(st.faults, 5)
    ensures var after := Run(st, ConfigureInt4PinPlan(addr, st.regs, behavior, activeHigh, mapInterrupt)).0;
            && after.regs[GYRO_INT3_INT4_IO_CONF] == Int4IoConf(st.regs[GYRO_INT3_INT4_IO_CONF], behavior, activeHigh)
            && after.regs[GYRO_INT3_INT4_IO_MAP] == Int4Map(st.regs[GYRO_INT3_INT4_IO_MAP], mapInterrupt)
  {
    ConfigureInt4PinSucceeds(st, addr, behavior, activeHigh, mapInterrupt);
  }

  /** Pin 3's byte updates followed by pin 4's leave each pin's bits as that pin asked. */
  lemma BothPinsBits(io: bv8, mapped: bv8, behavior3: Bmi088PinBehavior, high3: bool, map3: bool,
                     behavior4: Bmi088PinBehavior, high4: bool, map4: bool)
    ensures var conf := Int4IoConf(Int3IoConf(io, behavior3, high3), behavior4, high4);
            var bits := Int4Map(Int3Map(mapped, map3), map4);
            && (conf & 0x02 != 0 <==> behavior3 == OpenDrain)
            && (conf & 0x01 != 0 <==> high3)
            && (bits & 0x01 != 0 <==> map3)
            && (conf & 0x08 != 0 <==> behavior4 == OpenDrain)
            && (conf & 0x04 != 0 <==> high4)
            && (bits & 0x80 != 0 <==> map4)
  {
  }

  // ---------------------------------------------------------------------
  // Single writes

  /**
   * `set_bandwidth` then `get_bandwidth`: the written code decodes to the same
   * bandwidth, whether or not the device reports bit 7 set.
   */
  lemma SetBandwidthReadsBack(st: BusState, addr: bv8, bandwidth: GyroBandwidth)
    requires StatusAt(st.faults, 0).Done?
    ensures var (after, s) := Run(st, [Write(addr, GYRO_BANDWIDTH, bandwidth.Code())]);
            && s == Done
            && after.regs == st.regs[GYRO_BANDWIDTH as int := bandwidth.Code()]
            && BandwidthFromCode(BandwidthBits(after.regs[GYRO_BANDWIDTH])) == Some(bandwidth)
            && BandwidthFromCode(BandwidthBits(after.regs[GYRO_BANDWIDTH] | 0x80)) == Some(bandwidth)
  {
    RunLast(st, Write(addr, GYRO_BANDWIDTH, bandwidth.Code()));
    CodesRoundTrip(Deg2000, bandwidth);
    BandwidthIgnoresBit7(bandwidth.Code());
  }

  /** `set_range` then `get_range`: the written code decodes to the same range. */
  lemma SetRangeReadsBack(st: BusState, addr: bv8, range: GyroRange)
    requires StatusAt(st.faults, 0).Done?
    ensures var (after, s) := Run(st, [Write(addr, GYRO_RANGE, range.Code())]);
            && s == Done
            && after.regs == st.regs[GYRO_RANGE as int := range.Code()]
            && RangeFromCode(after.regs[GYRO_RANGE]) == Some(range)
  {
    RunLast(st, Write(addr, GYRO_RANGE, range.Code()));
    CodesRoundTrip(range, Data2000Filter532);
  }

  /**
   * `set_on` and `reset`: one write to their own register, every other register
   * kept. The power byte is inverted: 0x00 switches the gyroscope on.
   */
  lemma PowerAndResetWrites(st: BusState, addr: bv8, on: bool)
    requires StatusAt(st.faults, 0).Done?
    ensures Run(st, [Write(addr, GYRO_LPM1, LowPowerByte(on))]).0.regs
         == st.regs[GYRO_LPM1 as int := if on then 0x00 else 0x80]
    ensures Run(st, [Write(addr, GYRO_SOFTRESET, SOFTRESET_COMMAND)]).0.regs
         == st.regs[GYRO_SOFTRESET as int := 0xB6]
  {
    RunLast(st, Write(addr, GYRO_LPM1, LowPowerByte(on)));
    RunLast(st, Write(addr, GYRO_SOFTRESET, SOFTRESET_COMMAND));
  }

  /**
   * The two sub-devices' power bytes have opposite polarity: the gyroscope is
   * switched on by 0x00, the accelerometer by a non-zero byte.
   */
  lemma PowerPolarityInverted(on: bool)
    ensures LowPowerByte(on) == 0x00 <==> on
    ensures Accel.PowerCtrlByte(on) == 0x00 <==> !on
    ensures LowPowerByte(on) == 0x00 <==> Accel.PowerCtrlByte(on) != 0x00
  {
  }
}
