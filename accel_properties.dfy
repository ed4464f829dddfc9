/**
 * What the accelerometer's multi-transfer operations do to the register file
 * and the trace, stated over their bus traffic: the effect when every transfer
 * succeeds, where the sequence stops when one fails, and how operations on
 * shared registers combine.
 */
module AccelProperties {
  import opened Transport
  import opened Types
  import opened Accel

  // ---------------------------------------------------------------------
  // ACC_CONFIG

  /**
   * `set_bandwidth` with both transfers succeeding: only ACC_CONFIG changes,
   * it reads back as the requested bandwidth, and its data-rate field is kept.
   */
  lemma SetBandwidthSucceeds(st: BusState, addr: bv8, bandwidth: AccelFilterBandwidth)
    requires Succeeds(st.faults, 2)
    ensures var (after, s) := Run(st, SetBandwidthPlan(addr, st.regs, bandwidth));
            && s == Done
            && after.regs == st.regs[ACC_CONFIG as int := WithBandwidth(st.regs[ACC_CONFIG], bandwidth)]
            && BandwidthFromCode(BandwidthBits(after.regs[ACC_CONFIG])) == Some(bandwidth)
            && DataRateBits(after.regs[ACC_CONFIG]) == DataRateBits(st.regs[ACC_CONFIG])
  {
    var plan := SetBandwidthPlan(addr, st.regs, bandwidth);
    RunCompletes(st, plan);
    assert Apply(st.regs, plan) == Apply(st.regs, plan[1..]) == Apply(Store(st.regs, plan[1]), []);
    BandwidthReadsBack(st.regs[ACC_CONFIG], bandwidth);
    ConfigFieldsIndependent(st.regs[ACC_CONFIG], bandwidth, Hz100);
  }

  /**
   * `set_data_rate` with both transfers succeeding: only ACC_CONFIG changes,
   * it reads back as the requested rate, and its bandwidth field is kept.
   */
  lemma SetDataRateSucceeds(st: BusState, addr: bv8, rate: AccelDataRate)
    requires Succeeds(st.faults, 2)
    ensures var (after, s) := Run(st, SetDataRatePlan(addr, st.regs, rate));
            && s == Done
            && after.regs == st.regs[ACC_CONFIG as int := WithDataRate(st.regs[ACC_CONFIG], rate)]
            && DataRateFromCode(DataRateBits(after.regs[ACC_CONFIG])) == Some(rate)
            && BandwidthBits(after.regs[ACC_CONFIG]) == BandwidthBits(st.regs[ACC_CONFIG])
  {
    var plan := SetDataRatePlan(addr, st.regs, rate);
    RunCompletes(st, plan);
    assert Apply(st.regs, plan) == Apply(st.regs, plan[1..]) == Apply(Store(st.regs, plan[1]), []);
    DataRateReadsBack(st.regs[ACC_CONFIG], rate);
    ConfigFieldsIndependent(st.regs[ACC_CONFIG], Normal, rate);
  }

  /** A failed read of ACC_CONFIG stops `set_bandwidth` before its write: no register changes. */
  lemma SetBandwidthReadFails(st: BusState, addr: bv8, bandwidth: AccelFilterBandwidth)
    requires StatusAt(st.faults, 0).Failed?
    ensures var (after, s) := Run(st, SetBandwidthPlan(addr, st.regs, bandwidth));
            && s == StatusAt(st.faults, 0)
            && after.regs == st.regs
            && after.trace == st.trace + [Event(WriteRead(addr, ACC_CONFIG, 1), s)]
  {
    RunStops(st, SetBandwidthPlan(addr, st.regs, bandwidth));
  }

  /** A failed read of ACC_CONFIG stops `set_data_rate` before its write: no register changes. */
  lemma SetDataRateReadFails(st: BusState, addr: bv8, rate: AccelDataRate)
    requires StatusAt(st.faults, 0).Failed?
    ensures var (after, s) := Run(st, SetDataRatePlan(addr, st.regs, rate));
            && s == StatusAt(st.faults, 0)
            && after.regs == st.regs
            && after.trace == st.trace + [Event(WriteRead(addr, ACC_CONFIG, 1), s)]
  {
    RunStops(st, SetDataRatePlan(addr, st.regs, rate));
  }

  /**
   * The two setters of ACC_CONFIG commute: run back to back, in either order,
   * and all four transfers succeeding, they leave the same register file, and
   * both settings read back.
   */
  lemma SettersCommute(st: BusState, addr: bv8, bandwidth: AccelFilterBandwidth, rate: AccelDataRate)
    requires Succeeds(st.faults, 4)
    ensures var mid := Run(st, SetBandwidthPlan(addr, st.regs, bandwidth)).0;
            var mid' := Run(st, SetDataRatePlan(addr, st.regs, rate)).0;
            var after := Run(mid, SetDataRatePlan(addr, mid.regs, rate)).0;
            var after' := Run(mid', SetBandwidthPlan(addr, mid'.regs, bandwidth)).0;
            && after.regs == after'.regs
            && BandwidthFromCode(BandwidthBits(after.regs[ACC_CONFIG])) == Some(bandwidth)
            && DataRateFromCode(DataRateBits(after.regs[ACC_CONFIG])) == Some(rate)
  {
    var x := st.regs[ACC_CONFIG];
    var mid := Run(st, SetBandwidthPlan(addr, st.regs, bandwidth)).0;
    var mid' := Run(st, SetDataRatePlan(addr, st.regs, rate)).0;
    AfterBandwidth(st, addr, bandwidth, 2);
    AfterDataRate(st, addr, rate, 2);
    AfterDataRate(mid, addr, rate, 0);
    AfterBandwidth(mid', addr, bandwidth, 0);
    ConfigFieldsIndependent(x, bandwidth, rate);
    DataRateReadsBack(WithBandwidth(x, bandwidth), rate);
    BandwidthReadsBack(WithDataRate(x, rate), bandwidth);
  }

  /** After a successful `set_bandwidth`: the new register file, and the scripted outcomes still to come. */
  lemma AfterBandwidth(st: BusState, addr: bv8, bandwidth: AccelFilterBandwidth, n: nat)
    requires Succeeds(st.faults, 2 + n)
    ensures var mid := Run(st, SetBandwidthPlan(addr, st.regs, bandwidth)).0;
            && mid.regs == st.regs[ACC_CONFIG as int := WithBandwidth(st.regs[ACC_CONFIG], bandwidth)]
            && Succeeds(mid.faults, n)
  {
    SetBandwidthSucceeds(st, addr, bandwidth);
    RunLeavesSuccesses(st, SetBandwidthPlan(addr, st.regs, bandwidth), n);
  }

  /** After a successful `set_data_rate`: the new register file, and the scripted outcomes still to come. */
  lemma AfterDataRate(st: BusState, addr: bv8, rate: AccelDataRate, n: nat)
    requires Succeeds(st.faults, 2 + n)
    ensures var mid := Run(st, SetDataRatePlan(addr, st.regs, rate)).0;
            && mid.regs == st.regs[ACC_CONFIG as int := WithDataRate(st.regs[ACC_CONFIG], rate)]
            && Succeeds(mid.faults, n)
  {
    SetDataRateSucceeds(st, addr, rate);
    RunLeavesSuccesses(st, SetDataRatePlan(addr, st.regs, rate), n);
  }

  // ---------------------------------------------------------------------
  // Power and reset

  /**
   * `set_suspended`, `set_on` and `reset`: one write each, to its own register,
   * every other register kept. Suspend is 0x03 and active 0x00 in ACC_PWR_CONF,
   * on is 0x04 and off 0x00 in ACC_PWR_CTRL, and a soft reset writes 0xB6.
   */
  lemma PowerAndResetWrites(st: BusState, addr: bv8, suspended: bool, on: bool)
    requires StatusAt(st.faults, 0).Done?
    ensures Run(st, [Write(addr, ACC_PWR_CONF, SuspendByte(suspended))]).0.regs
         == st.regs[0x7C := if suspended then 0x03 else 0x00]
    ensures Run(st, [Write(addr, ACC_PWR_CTRL, PowerCtrlByte(on))]).0.regs
         == st.regs[0x7D := if on then 0x04 else 0x00]
    ensures Run(st, [Write(addr, ACC_SOFTRESET, SOFTRESET_COMMAND)]).0.regs
         == st.regs[0x7E := 0xB6]
  {
    RunLast(st, Write(addr, ACC_PWR_CONF, SuspendByte(suspended)));
    RunLast(st, Write(addr, ACC_PWR_CTRL, PowerCtrlByte(on)));
    RunLast(st, Write(addr, ACC_SOFTRESET, SOFTRESET_COMMAND));
  }

  // ---------------------------------------------------------------------
  // INT1 and INT2

  /**
   * `configure_int1_pin` with all three transfers succeeding: INT1_IO_CONF holds the
   * fresh configuration byte and INT1_INT2_MAP_DATA has only bit 2 updated.
   */
  lemma ConfigureInt1PinSucceeds(st: BusState, addr: bv8, mode: Bmi088PinMode, behavior: Bmi088PinBehavior,
                                  activeHigh: bool, mapInterrupt: bool)
    requires Succeeds(st.faults, 3)
    ensures var (after, s) := Run(st, ConfigureInt1PinPlan(addr, st.regs, mode, behavior, activeHigh, mapInterrupt));
            && s == Done
            && after.regs == st.regs[INT1_IO_CONF as int := IoConf(mode, behavior, activeHigh)]
                                    [INT1_INT2_MAP_DATA as int := Int1Map(st.regs[INT1_INT2_MAP_DATA], mapInterrupt)]
  {
    var plan := ConfigureInt1PinPlan(addr, st.regs, mode, behavior, activeHigh, mapInterrupt);
    RunCompletes(st, plan);
    var r1 := Store(st.regs, plan[0]);
    assert Apply(st.regs, plan) == Apply(r1, plan[1..]) == Apply(r1, plan[2..]) == Apply(Store(r1, plan[2]), []);
  }

  /**
   * Fail-fast in `configure_int1_pin`: a failed IO write issues nothing more and
   * changes nothing; a failed map read leaves the map register unwritten.
   */
  lemma ConfigureInt1PinFailFast(st: BusState, addr: bv8, mode: Bmi088PinMode, behavior: Bmi088PinBehavior,
                                  activeHigh: bool, mapInterrupt: bool)
    ensures var (after, s) := Run(st, ConfigureInt1PinPlan(addr, st.regs, mode, behavior, activeHigh, mapInterrupt));
            StatusAt(st.faults, 0).Failed? ==>
              && s == StatusAt(st.faults, 0)
              && after.regs == st.regs
              && after.trace == st.trace + [Event(Write(addr, INT1_IO_CONF, IoConf(mode, behavior, activeHigh)), s)]
    ensures var (after, s) := Run(st, ConfigureInt1PinPlan(addr, st.regs, mode, behavior, activeHigh, mapInterrupt));
            StatusAt(st.faults, 0).Done? && StatusAt(st.faults, 1).Failed? ==>
              && s == StatusAt(st.faults, 1)
              && after.regs == st.regs[INT1_IO_CONF as int := IoConf(mode, behavior, activeHigh)]
              && after.trace == st.trace + [Event(Write(addr, INT1_IO_CONF, IoConf(mode, behavior, activeHigh)), Done),
                                            Event(WriteRead(addr, INT1_INT2_MAP_DATA, 1), s)]
  {
    var plan := ConfigureInt1PinPlan(addr, st.regs, mode, behavior, activeHigh, mapInterrupt);
    if StatusAt(st.faults, 0).Failed? {
      RunStopsAtFailure(st, plan, 0);
      assert plan[..0] == [];
    } else if StatusAt(st.faults, 1).Failed? {
      RunStopsAtFailure(st, plan, 1);
      assert Apply(st.regs, plan[..1]) == Apply(Store(st.regs, plan[0]), []);
      assert Events(plan[..2], st.faults) == [Event(plan[0], Done), Event(plan[1], StatusAt(st.faults, 1))];
    }
  }

  /**
   * `configure_int2_pin` with all three transfers succeeding: INT2_IO_CONF holds the
   * fresh configuration byte and INT1_INT2_MAP_DATA has only bit 6 updated.
   */
  lemma ConfigureInt2PinSucceeds(st: BusState, addr: bv8, mode: Bmi088PinMode, behavior: Bmi088PinBehavior,
                                  activeHigh: bool, mapInterrupt: bool)
    requires Succeeds(st.faults, 3)
    ensures var (after, s) := Run(st, ConfigureInt2PinPlan(addr, st.regs, mode, behavior, activeHigh, mapInterrupt));
            && s == Done
            && after.regs == st.regs[INT2_IO_CONF as int := IoConf(mode, behavior, activeHigh)]
                                    [INT1_INT2_MAP_DATA as int := Int2Map(st.regs[INT1_INT2_MAP_DATA], mapInterrupt)]
  {
    var plan := ConfigureInt2PinPlan(addr, st.regs, mode, behavior, activeHigh, mapInterrupt);
    RunCompletes(st, plan);
    var r1 := Store(st.regs, plan[0]);
    assert Apply(st.regs, plan) == Apply(r1, plan[1..]) == Apply(r1, plan[2..]) == Apply(Store(r1, plan[2]), []);
  }

  /**
   * Fail-fast in `configure_int2_pin`: a failed IO write issues nothing more and
   * changes nothing; a failed map read leaves the map register unwritten.
   */
  lemma ConfigureInt2PinFailFast(st: BusState, addr: bv8, mode: Bmi088PinMode, behavior: Bmi088PinBehavior,
                                  activeHigh: bool, mapInterrupt: bool)
    ensures var (after, s) := Run(st, ConfigureInt2PinPlan(addr, st.regs, mode, behavior, activeHigh, mapInterrupt));
            StatusAt(st.faults, 0).Failed? ==>
              && s == StatusAt(st.faults, 0)
              && after.regs == st.regs
              && after.trace == st.trace + [Event(Write(addr, INT2_IO_CONF, IoConf(mode, behavior, activeHigh)), s)]
    ensures var (after, s) := Run(st, ConfigureInt2PinPlan(addr, st.regs, mode, behavior, activeHigh, mapInterrupt));
            StatusAt(st.faults, 0).Done? && StatusAt(st.faults, 1).Failed? ==>
              && s == StatusAt(st.faults, 1)
              && after.regs == st.regs[INT2_IO_CONF as int := IoConf(mode, behavior, activeHigh)]
              && after.trace == st.trace + [Event(Write(addr, INT2_IO_CONF, IoConf(mode, behavior, activeHigh)), Done),
                                            Event(WriteRead(addr, INT1_INT2_MAP_DATA, 1), s)]
  {
    var plan := ConfigureInt2PinPlan(addr, st.regs, mode, behavior, activeHigh, mapInterrupt);
    if StatusAt(st.faults, 0).Failed? {
      RunStopsAtFailure(st, plan, 0);
      assert plan[..0] == [];
    } else if StatusAt(st.faults, 1).Failed? {
      RunStopsAtFailure(st, plan, 1);
      assert Apply(st.regs, plan[..1]) == Apply(Store(st.regs, plan[0]), []);
      assert Events(plan[..2], st.faults) == [Event(plan[0], Done), Event(plan[1], StatusAt(st.faults, 1))];
    }
  }

  /**
   * Both accelerometer pins write their IO configuration to the same register:
   * configuring pin 1 and then pin 2, every transfer succeeding, leaves pin 2's
   * byte there, while the map register carries both pins' map bits and every
   * other bit it had.
   */
  lemma PinsShareIoConf(st: BusState, addr: bv8,
                        mode1: Bmi088PinMode, behavior1: Bmi088PinBehavior, high1: bool, map1: bool,
                        mode2: Bmi088PinMode, behavior2: Bmi088PinBehavior, high2: bool, map2: bool)
    requires Succeeds(st.faults, 6)
    ensures var mid := Run(st, ConfigureInt1PinPlan(addr, st.regs, mode1, behavior1, high1, map1)).0;
            var after := Run(mid, ConfigureInt2PinPlan(addr, mid.regs, mode2, behavior2, high2, map2)).0;
            && after.regs[INT1_IO_CONF] == IoConf(mode2, behavior2, high2)
            && (after.regs[INT1_INT2_MAP_DATA] & 0x04 != 0 <==> map1)
            && (after.regs[INT1_INT2_MAP_DATA] & 0x40 != 0 <==> map2)
            && after.regs[INT1_INT2_MAP_DATA] & 0xBB == st.regs[INT1_INT2_MAP_DATA] & 0xBB
  {
    var mid := Run(st, ConfigureInt1PinPlan(addr, st.regs, mode1, behavior1, high1, map1)).0;
    AfterInt1(st, addr, mode1, behavior1, high1, map1);
    AfterInt2(mid, addr, mode2, behavior2, high2, map2);
    BothMapBits(st.regs[INT1_INT2_MAP_DATA], map1, map2);
  }

  /** After a successful pin 1 configuration: the map register, and the three scripted outcomes still to come. */
  lemma AfterInt1(st: BusState, addr: bv8, mode: Bmi088PinMode, behavior: Bmi088PinBehavior,
                  activeHigh: bool, mapInterrupt: bool)
    requires Succeeds(st.faults, 6)
    ensures var mid := Run(st, ConfigureInt1PinPlan(addr, st.regs, mode, behavior, activeHigh, mapInterrupt)).0;
            && mid.regs[INT1_INT2_MAP_DATA] == Int1Map(st.regs[INT1_INT2_MAP_DATA], mapInterrupt)
            && Succeeds(mid.faults, 3)
  {
    ConfigureInt1PinSucceeds(st, addr, mode, behavior, activeHigh, mapInterrupt);
    RunLeavesSuccesses(st, ConfigureInt1PinPlan(addr, st.regs, mode, behavior, activeHigh, mapInterrupt), 3);
  }

  /** After a successful pin 2 configuration: the IO register it writes and the map register. */
  lemma AfterInt2(st: BusState, addr: bv8, mode: Bmi088PinMode, behavior: Bmi088PinBehavior,
                  activeHigh: bool, mapInterrupt: bool)
    requires Succeeds(st.faults, 3)
    ensures var after := Run(st, ConfigureInt2PinPlan(addr, st.regs, mode, behavior, activeHigh, mapInterrupt)).0;
            && after.regs[INT2_IO_CONF] == IoConf(mode, behavior, activeHigh)
            && after.regs[INT1_INT2_MAP_DATA] == Int2Map(st.regs[INT1_INT2_MAP_DATA], mapInterrupt)
  {
    ConfigureInt2PinSucceeds(st, addr, mode, behavior, activeHigh, mapInterrupt);
  }

  /** Pin 1's map update followed by pin 2's: each pin's bit as that pin asked, the other six bits kept. */
  lemma BothMapBits(x: bv8, map1: bool, map2: bool)
    ensures var y := Int2Map(Int1Map(x, map1), map2);
            && (y & 0x04 != 0 <==> map1)
            && (y & 0x40 != 0 <==> map2)
            && y & 0xBB == x & 0xBB
  {
  }
}
