/**
 * The gyroscope sub-device: its register map, the decoding of its range and
 * bandwidth registers, the read-modify-write updates of the IO configuration
 * and map registers shared by pins 3 and 4, the bus traffic of every
 * operation, and the driver object. Unlike the accelerometer, the gyroscope's
 * getters read the device and its cached configuration never changes.
 */
module Gyro {
  import opened Transport
  import opened Types

  // The register map as the driver has it.
  const GYRO_CHIP_ID: bv8 := 0x00
  const GYRO_X_LSB: bv8 := 0x02
  const GYRO_INT_STAT_1: bv8 := 0x0A
  const GYRO_RANGE: bv8 := 0x0F
  const GYRO_BANDWIDTH: bv8 := 0x10
  const GYRO_LPM1: bv8 := 0x11
  const GYRO_SOFTRESET: bv8 := 0x14
  const GYRO_INT_CTRL: bv8 := 0x15
  const GYRO_INT3_INT4_IO_CONF: bv8 := 0x16
  const GYRO_INT3_INT4_IO_MAP: bv8 := 0x18
  /** Written to GYRO_INT_CTRL before a pin is configured: enables the data-ready interrupt. */
  const INT_ENABLE: bv8 := 0x80
  const SOFTRESET_COMMAND: bv8 := 0xB6

  // ---------------------------------------------------------------------
  // GYRO_RANGE and GYRO_BANDWIDTH

  /** The range whose code is the whole byte; codes above 4 match no variant. */
  function RangeFromCode(c: bv8): (r: Option<GyroRange>)
    ensures r.Some? <==> c <= 0x04
    ensures r.Some? ==> r.value.Code() == c
  {
    match c
    case 0x00 => Some(Deg2000)
    case 0x01 => Some(Deg1000)
    case 0x02 => Some(Deg500)
    case 0x03 => Some(Deg250)
    case 0x04 => Some(Deg125)
    case _ => None
  }

  /** GYRO_BANDWIDTH with bit 7, which the device always reads as 1, cleared. */
  function BandwidthBits(x: bv8): (c: bv8)
    ensures c < 0x80
    ensures c == x || c == x - 0x80
  {
    x & 0x7F
  }

  /** The bandwidth whose code is the masked byte; codes above 7 match no variant. */
  function BandwidthFromCode(c: bv8): (r: Option<GyroBandwidth>)
    ensures r.Some? <==> c <= 0x07
    ensures r.Some? ==> r.value.Code() == c
  {
    match c
    case 0x00 => Some(Data2000Filter532)
    case 0x01 => Some(Data2000Filter230)
    case 0x02 => Some(Data1000Filter116)
    case 0x03 => Some(Data400Filter47)
    case 0x04 => Some(Data200Filter23)
    case 0x05 => Some(Data100Filter12)
    case 0x06 => Some(Data200Filter64)
    case 0x07 => Some(Data100Filter32)
    case _ => None
  }

  /** Every range and bandwidth is decoded from the code `set_range` and `set_bandwidth` write. */
  lemma CodesRoundTrip(range: GyroRange, bandwidth: GyroBandwidth)
    ensures RangeFromCode(range.Code()) == Some(range)
    ensures BandwidthFromCode(BandwidthBits(bandwidth.Code())) == Some(bandwidth)
  {
  }

  /** Bit 7 of GYRO_BANDWIDTH never affects the decoded bandwidth; 0x85 reads as 100 Hz with a 12 Hz filter. */
  lemma BandwidthIgnoresBit7(x: bv8)
    ensures BandwidthFromCode(BandwidthBits(x | 0x80)) == BandwidthFromCode(BandwidthBits(x))
    ensures BandwidthFromCode(BandwidthBits(x & 0x7F)) == BandwidthFromCode(BandwidthBits(x))
    ensures BandwidthFromCode(BandwidthBits(0x85)) == Some(Data100Filter12)
  {
  }

  /** The byte `set_on` writes to GYRO_LPM1: 0x00 is normal mode, 0x80 is suspend. */
  function LowPowerByte(on: bool): (b: bv8)
    ensures b == 0x00 <==> on
    ensures b & 0x7F == 0x00
  {
    if on then 0x00 else 0x80
  }

  // ---------------------------------------------------------------------
  // Interrupt pins: GYRO_INT3_INT4_IO_CONF and GYRO_INT3_INT4_IO_MAP

  /** Pin 3's IO update: bit 1 set iff open drain, bit 0 set iff active high, bits 2-7 kept. */
  function Int3IoConf(x: bv8, behavior: Bmi088PinBehavior, activeHigh: bool): (y: bv8)
    ensures y & 0xFC == x & 0xFC
    ensures y & 0x02 != 0 <==> behavior == OpenDrain
    ensures y & 0x01 != 0 <==> activeHigh
  {
    var drained := if behavior == OpenDrain then x | 0x02 else x & 0xFD;
    if activeHigh then drained | 0x01 else drained & 0xFE
  }

  /** Pin 4's IO update: bit 3 set iff open drain, bit 2 set iff active high, bits 0-1 and 4-7 kept. */
  function Int4IoConf(x: bv8, behavior: Bmi088PinBehavior, activeHigh: bool): (y: bv8)
    ensures y & 0xF3 == x & 0xF3
    ensures y & 0x08 != 0 <==> behavior == OpenDrain
    ensures y & 0x04 != 0 <==> activeHigh
  {
    var drained := if behavior == OpenDrain then x | 0x08 else x & 0xF7;
    if activeHigh then drained | 0x04 else drained & 0xFB
  }

  /** Pin 3's map update: bit 0 set iff the data-ready interrupt is mapped, every other bit kept. */
  function Int3Map(x: bv8, mapInterrupt: bool): (y: bv8)
    ensures y & 0xFE == x & 0xFE
    ensures y & 0x01 != 0 <==> mapInterrupt
  {
    if mapInterrupt then x | 0x01 else x & 0xFE
  }

  /** Pin 4's map update: bit 7 set iff the data-ready interrupt is mapped, every other bit kept. */
  function Int4Map(x: bv8, mapInterrupt: bool): (y: bv8)
    ensures y & 0x7F == x & 0x7F
    ensures y & 0x80 != 0 <==> mapInterrupt
  {
    if mapInterrupt then x | 0x80 else x & 0x7F
  }

  /** Configuring one pin's electrical behaviour never changes the other pin's bits, and the two updates commute. */
  lemma IoConfPinsIndependent(x: bv8, b3: Bmi088PinBehavior, h3: bool, b4: Bmi088PinBehavior, h4: bool)
    ensures Int3IoConf(x, b3, h3) & 0x0C == x & 0x0C
    ensures Int4IoConf(x, b4, h4) & 0x03 == x & 0x03
    ensures Int3IoConf(Int4IoConf(x, b4, h4), b3, h3) == Int4IoConf(Int3IoConf(x, b3, h3), b4, h4)
  {
  }

  /** Mapping the interrupt to one pin never changes the other pin's map bit, and the two updates commute. */
  lemma MapPinsIndependent(x: bv8, m3: bool, m4: bool)
    ensures Int3Map(x, m3) & 0x80 == x & 0x80
    ensures Int4Map(x, m4) & 0x01 == x & 0x01
    ensures Int3Map(Int4Map(x, m4), m3) == Int4Map(Int3Map(x, m3), m4)
  {
  }


  // ---------------------------------------------------------------------
  // The bus traffic of each operation, given the registers before it

  /**
   * Enable interrupts, then read-modify-write the IO register (bits 0-1 set from
   * the behaviour and level) and the map register (bit 0 set from `mapInterrupt`).
   */
  function ConfigureInt3PinPlan(addr: bv8, regs: Registers, behavior: Bmi088PinBehavior,
                                activeHigh: bool, mapInterrupt: bool): (p: seq<Transfer>)
    ensures |p| == 5 && p[0] == Write(addr, GYRO_INT_CTRL, INT_ENABLE)
    ensures p[1] == WriteRead(addr, GYRO_INT3_INT4_IO_CONF, 1) && p[3] == WriteRead(addr, GYRO_INT3_INT4_IO_MAP, 1)
    ensures p[2].Write? && p[2].addr == addr && p[2].reg == GYRO_INT3_INT4_IO_CONF
    ensures p[2].value & 0xFC == regs[GYRO_INT3_INT4_IO_CONF] & 0xFC
    ensures (p[2].value & 0x02 != 0 <==> behavior == OpenDrain) && (p[2].value & 0x01 != 0 <==> activeHigh)
    ensures p[4].Write? && p[4].addr == addr && p[4].reg == GYRO_INT3_INT4_IO_MAP
    ensures p[4].value & 0xFE == regs[GYRO_INT3_INT4_IO_MAP] & 0xFE && (p[4].value & 0x01 != 0 <==> mapInterrupt)
  {
    [Write(addr, GYRO_INT_CTRL, INT_ENABLE),
     WriteRead(addr, GYRO_INT3_INT4_IO_CONF, 1),
     Write(addr, GYRO_INT3_INT4_IO_CONF, Int3IoConf(regs[GYRO_INT3_INT4_IO_CONF], behavior, activeHigh)),
     WriteRead(addr, GYRO_INT3_INT4_IO_MAP, 1),
     Write(addr, GYRO_INT3_INT4_IO_MAP, Int3Map(regs[GYRO_INT3_INT4_IO_MAP], mapInterrupt))]
  }

  /**
   * Enable interrupts, then read-modify-write the IO register (bits 2-3 set from
   * the behaviour and level) and the map register (bit 7 set from `mapInterrupt`).
   */
  function ConfigureInt4PinPlan(addr: bv8, regs: Registers, behavior: Bmi088PinBehavior,
                                activeHigh: bool, mapInterrupt: bool): (p: seq<Transfer>)
    ensures |p| == 5 && p[0] == Write(addr, GYRO_INT_CTRL, INT_ENABLE)
    ensures p[1] == WriteRead(addr, GYRO_INT3_INT4_IO_CONF, 1) && p[3] == WriteRead(addr, GYRO_INT3_INT4_IO_MAP, 1)
    ensures p[2].Write? && p[2].addr == addr && p[2].reg == GYRO_INT3_INT4_IO_CONF
    ensures p[2].value & 0xF3 == regs[GYRO_INT3_INT4_IO_CONF] & 0xF3
    ensures (p[2].value & 0x08 != 0 <==> behavior == OpenDrain) && (p[2].value & 0x04 != 0 <==> activeHigh)
    ensures p[4].Write? && p[4].addr == addr && p[4].reg == GYRO_INT3_INT4_IO_MAP
    ensures p[4].value & 0x7F == regs[GYRO_INT3_INT4_IO_MAP] & 0x7F && (p[4].value & 0x80 != 0 <==> mapInterrupt)
  {
    [Write(addr, GYRO_INT_CTRL, INT_ENABLE),
     WriteRead(addr, GYRO_INT3_INT4_IO_CONF, 1),
     Write(addr, GYRO_INT3_INT4_IO_CONF, Int4IoConf(regs[GYRO_INT3_INT4_IO_CONF], behavior, activeHigh)),
     WriteRead(addr, GYRO_INT3_INT4_IO_MAP, 1),
     Write(addr, GYRO_INT3_INT4_IO_MAP, Int4Map(regs[GYRO_INT3_INT4_IO_MAP], mapInterrupt))]
  }

  // ---------------------------------------------------------------------
  // The driver object

  class Bmi088Gyroscope {
    const bus: Bus
    const address: bv8
    // No method of the driver assigns the cache after `new`, so it is fixed for the object's life.
    const bandwidth: GyroBandwidth
    const range: GyroRange

    /** `new`: keeps the bus and the address, and starts the cache at 2000 Hz / 532 Hz and 2000 deg/s. */
    constructor (i2c: Bus, address: bv8)
      ensures bus == i2c && this.address == address
      ensures bandwidth == Data2000Filter532 && range == Deg2000
    {
      bus := i2c;
      this.address := address;
      bandwidth := Data2000Filter532;
      range := Deg2000;
    }

    method ReadChipId() returns (r: Result<bv8>)
      modifies bus
      ensures var (st, s) := Run(old(bus.st), [WriteRead(address, GYRO_CHIP_ID, 1)]);
              bus.st == st && r == Fetched(s, old(bus.st.regs)[GYRO_CHIP_ID])
    {
      var data := new bv8[1](_ => 0);
      var s := bus.WriteRead(address, GYRO_CHIP_ID, data);
      r := Fetched(s, data[0]);
    }

    method ReadData() returns (r: Result<(int, int, int)>)
      modifies bus
      ensures var (st, s) := Run(old(bus.st), [WriteRead(address, GYRO_X_LSB, 6)]);
              bus.st == st && r == Fetched(s, AxesOf(Window(old(bus.st.regs), GYRO_X_LSB, 6)))
    {
      var data := new bv8[6](_ => 0);
      var s := bus.WriteRead(address, GYRO_X_LSB, data);
      r := Fetched(s, (I16FromLe(data[0], data[1]), I16FromLe(data[2], data[3]), I16FromLe(data[4], data[5])));
    }

    method DataReadyInterrupt() returns (r: Result<bool>)
      modifies bus
      ensures var (st, s) := Run(old(bus.st), [WriteRead(address, GYRO_INT_STAT_1, 1)]);
              bus.st == st && r == Fetched(s, DataReadyBit(old(bus.st.regs)[GYRO_INT_STAT_1]))
    {
      var data := new bv8[1](_ => 0);
      var s := bus.WriteRead(address, GYRO_INT_STAT_1, data);
      r := Fetched(s, data[0] & 0x80 != 0);
    }

    method SetRange(range: GyroRange) returns (r: Result<()>)
      modifies bus
      ensures var (st, s) := Run(old(bus.st), [Write(address, GYRO_RANGE, range.Code())]);
              bus.st == st && r == FromStatus(s)
    {
      var s := bus.Write(address, GYRO_RANGE, range.Code());
      r := FromStatus(s);
    }

    /** `get_range`: a read of GYRO_RANGE; the cached range is left as it was. */
    method GetRange() returns (r: Result<GyroRange>)
      modifies bus
      ensures var (st, s) := Run(old(bus.st), [WriteRead(address, GYRO_RANGE, 1)]);
              var raw := old(bus.st.regs)[GYRO_RANGE];
              bus.st == st && r == Decoded(s, RangeFromCode(raw), raw)
    {
      var data := new bv8[1](_ => 0);
      var s := bus.WriteRead(address, GYRO_RANGE, data);
      if s.Failed? {
        return Err(s.error);
      }
      var decoded := RangeFromCode(data[0]);
      if decoded.None? {
        return Unreachable(data[0]);
      }
      r := Ok(decoded.value);
    }

    method SetBandwidth(bandwidth: GyroBandwidth) returns (r: Result<()>)
      modifies bus
      ensures var (st, s) := Run(old(bus.st), [Write(address, GYRO_BANDWIDTH, bandwidth.Code())]);
              bus.st == st && r == FromStatus(s)
    {
      var s := bus.Write(address, GYRO_BANDWIDTH, bandwidth.Code());
      r := FromStatus(s);
    }

    /** `get_bandwidth`: a read of GYRO_BANDWIDTH with bit 7 masked off; the cached bandwidth is left as it was. */
    method GetBandwidth() returns (r: Result<GyroBandwidth>)
      modifies bus
      ensures var (st, s) := Run(old(bus.st), [WriteRead(address, GYRO_BANDWIDTH, 1)]);
              var raw := BandwidthBits(old(bus.st.regs)[GYRO_BANDWIDTH]);
              bus.st == st && r == Decoded(s, BandwidthFromCode(raw), raw)
    {
      var data := new bv8[1](_ => 0);
      var s := bus.WriteRead(address, GYRO_BANDWIDTH, data);
      if s.Failed? {
        return Err(s.error);
      }
      data[0] := data[0] & !0x80;
      var decoded := BandwidthFromCode(data[0]);
      if decoded.None? {
        return Unreachable(data[0]);
      }
      r := Ok(decoded.value);
    }

    method SetOn(on: bool) returns (r: Result<()>)
      modifies bus
      ensures var (st, s) := Run(old(bus.st), [Write(address, GYRO_LPM1, LowPowerByte(on))]);
              bus.st == st && r == FromStatus(s)
    {
      var data: bv8 := if on then 0x00 else 0x80;
      var s := bus.Write(address, GYRO_LPM1, data);
      r := FromStatus(s);
    }

    method Reset() returns (r: Result<()>)
      modifies bus
      ensures var (st, s) := Run(old(bus.st), [Write(address, GYRO_SOFTRESET, SOFTRESET_COMMAND)]);
              bus.st == st && r == FromStatus(s)
    {
      var s := bus.Write(address, GYRO_SOFTRESET, SOFTRESET_COMMAND);
      r := FromStatus(s);
    }

    method ConfigureInt3Pin(behavior: Bmi088PinBehavior, activeHigh: bool, mapInterrupt: bool)
      returns (r: Result<()>)
      modifies bus
      ensures var (st, s) := Run(old(bus.st),
                                 ConfigureInt3PinPlan(address, old(bus.st.regs), behavior, activeHigh, mapInterrupt));
              bus.st == st && r == FromStatus(s)
    {
      ghost var st0 := bus.st;
      ghost var plan := ConfigureInt3PinPlan(address, st0.regs, behavior, activeHigh, mapInterrupt);
      var data := new bv8[1](_ => 0);
      var s := bus.Write(address, GYRO_INT_CTRL, INT_ENABLE);
      if s.Failed? {
        RunStops(st0, plan);
        return Err(s.error);
      }
      ghost var st1 := bus.st;
      ghost var ioPlan := [WriteRead(address, GYRO_INT3_INT4_IO_CONF, 1),
                           Write(address, GYRO_INT3_INT4_IO_CONF, Int3IoConf(st1.regs[GYRO_INT3_INT4_IO_CONF], behavior, activeHigh))];
      ghost var mapPlan := [WriteRead(address, GYRO_INT3_INT4_IO_MAP, 1),
                            Write(address, GYRO_INT3_INT4_IO_MAP, Int3Map(st0.regs[GYRO_INT3_INT4_IO_MAP], mapInterrupt))];
      assert Run(st0, plan) == Run(st1, ioPlan + mapPlan) by {
        RunContinues(st0, plan);
        assert plan[1..] == ioPlan + mapPlan;
      }
      RunAppend(st1, ioPlan, mapPlan);

      s := ReadModifyWrite(bus, address, GYRO_INT3_INT4_IO_CONF, data, x => Int3IoConf(x, behavior, activeHigh));
      if s.Failed? {
        return Err(s.error);
      }
      RunKeeps(st1, ioPlan, GYRO_INT3_INT4_IO_MAP);

      s := ReadModifyWrite(bus, address, GYRO_INT3_INT4_IO_MAP, data, x => Int3Map(x, mapInterrupt));
      r := FromStatus(s);
    }

    method ConfigureInt4Pin(behavior: Bmi088PinBehavior, activeHigh: bool, mapInterrupt: bool)
      returns (r: Result<()>)
      modifies bus
      ensures var (st, s) := Run(old(bus.st),
                                 ConfigureInt4PinPlan(address, old(bus.st.regs), behavior, activeHigh, mapInterrupt));
              bus.st == st && r == FromStatus(s)
    {
      ghost var st0 := bus.st;
      ghost var plan := ConfigureInt4PinPlan(address, st0.regs, behavior, activeHigh, mapInterrupt);
      var data := new bv8[1](_ => 0);
      var s := bus.Write(address, GYRO_INT_CTRL, INT_ENABLE);
      if s.Failed? {
        RunStops(st0, plan);
        return Err(s.error);
      }
      ghost var st1 := bus.st;
      ghost var ioPlan := [WriteRead(address, GYRO_INT3_INT4_IO_CONF, 1),
                           Write(address, GYRO_INT3_INT4_IO_CONF, Int4IoConf(st1.regs[GYRO_INT3_INT4_IO_CONF], behavior, activeHigh))];
      ghost var mapPlan := [WriteRead(address, GYRO_INT3_INT4_IO_MAP, 1),
                            Write(address, GYRO_INT3_INT4_IO_MAP, Int4Map(st0.regs[GYRO_INT3_INT4_IO_MAP], mapInterrupt))];
      assert Run(st0, plan) == Run(st1, ioPlan + mapPlan) by {
        RunContinues(st0, plan);
        assert plan[1..] == ioPlan + mapPlan;
      }
      RunAppend(st1, ioPlan, mapPlan);

      s := ReadModifyWrite(bus, address, GYRO_INT3_INT4_IO_CONF, data, x => Int4IoConf(x, behavior, activeHigh));
      if s.Failed? {
        return Err(s.error);
      }
      RunKeeps(st1, ioPlan, GYRO_INT3_INT4_IO_MAP);

      s := ReadModifyWrite(bus, address, GYRO_INT3_INT4_IO_MAP, data, x => Int4Map(x, mapInterrupt));
      r := FromStatus(s);
    }
  }
}
