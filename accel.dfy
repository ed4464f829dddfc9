/**
 * The accelerometer sub-device: its register map, the decoding of its status
 * and data registers, the read-modify-write updates of its shared
 * configuration registers, the bus traffic of every operation, and the driver
 * object itself with its cache of the last configuration read back.
 */
module Accel {
  import opened Transport
  import opened Types

  // The register map as the driver has it.
  const ACC_CHIP_ID: bv8 := 0x00
  const ACC_ERR_REG: bv8 := 0x02
  const ACC_STATUS: bv8 := 0x03
  const ACC_X_LSB: bv8 := 0x12
  const ACC_INT_STAT_1: bv8 := 0x1D
  const TEMP_MSB: bv8 := 0x22
  const ACC_CONFIG: bv8 := 0x40
  const ACC_RANGE: bv8 := 0x41
  const INT1_IO_CONF: bv8 := 0x53
  /** Pin 2's IO configuration goes to the same address as pin 1's. */
  const INT2_IO_CONF: bv8 := 0x53
  const INT1_INT2_MAP_DATA: bv8 := 0x58
  const ACC_PWR_CONF: bv8 := 0x7C
  const ACC_PWR_CTRL: bv8 := 0x7D
  const ACC_SOFTRESET: bv8 := 0x7E
  const SOFTRESET_COMMAND: bv8 := 0xB6

  // ---------------------------------------------------------------------
  // Status and data registers

  /** ACC_ERR_REG: fatal error is bit 1, configuration error is bit 2 or bit 3. */
  function ErrorsOf(x: bv8): (e: AccelError)
    ensures e.fatalError <==> (x >> 1) & 1 == 1
    ensures e.configurationError <==> (x >> 2) & 1 == 1 || (x >> 3) & 1 == 1
  {
    AccelError(configurationError := x & 0x0C != 0, fatalError := x & 0x02 != 0)
  }

  /** A status byte that raises exactly the flags of `e`. */
  function ErrorByte(e: AccelError): bv8
  {
    (if e.configurationError then 0x04 else 0x00) | (if e.fatalError then 0x02 else 0x00)
  }

  /** The two flags are independent: every combination is read from some status byte. */
  lemma ErrorsRoundTrip(e: AccelError)
    ensures ErrorsOf(ErrorByte(e)) == e
  {
  }

  lemma ErrorExamples()
    ensures ErrorsOf(0x02) == AccelError(configurationError := false, fatalError := true)
    ensures ErrorsOf(0x0C) == AccelError(configurationError := true, fatalError := false)
    ensures ErrorsOf(0x01) == AccelError(configurationError := false, fatalError := false)
  {
  }

  // ---------------------------------------------------------------------
  // ACC_CONFIG (0x40): bandwidth code in bits 4-6, data-rate code in bits 0-3

  /** The byte `set_bandwidth` writes back: bits 4-6 carry the code, bit 7 and bits 0-3 are kept. */
  function WithBandwidth(x: bv8, bandwidth: AccelFilterBandwidth): (y: bv8)
    ensures y & 0x8F == x & 0x8F
    ensures (y & 0x70) >> 4 == bandwidth.Code()
  {
    (x & 0x8F) | (bandwidth.Code() << 4)
  }

  /** The byte `set_data_rate` writes back: bits 0-3 carry the code, bits 4-7 are kept. */
  function WithDataRate(x: bv8, rate: AccelDataRate): (y: bv8)
    ensures y & 0xF0 == x & 0xF0
    ensures y & 0x0F == rate.Code()
  {
    (x & 0xF0) | rate.Code()
  }

  /** The value `read_bandwidth` matches on. */
  function BandwidthBits(x: bv8): (c: bv8)
    ensures c <= 0x07
  {
    (x & 0x70) >> 4
  }

  /** The value `read_data_rate` matches on. */
  function DataRateBits(x: bv8): (c: bv8)
    ensures c <= 0x0F
  {
    x & 0x0F
  }

  /** The `match` of `read_bandwidth`: defined exactly on the codes, and inverse to `Code`. */
  function BandwidthFromCode(c: bv8): (r: Option<AccelFilterBandwidth>)
    ensures r.Some? <==> c <= 0x02
    ensures r.Some? ==> r.value.Code() == c
  {
    if c == 0x00 then Some(OSR4)
    else if c == 0x01 then Some(OSR2)
    else if c == 0x02 then Some(Normal)
    else None
  }

  /** The `match` of `read_data_rate`: defined exactly on the codes, and inverse to `Code`. */
  function DataRateFromCode(c: bv8): (r: Option<AccelDataRate>)
    ensures r.Some? <==> 0x05 <= c <= 0x0C
    ensures r.Some? ==> r.value.Code() == c
  {
    if c == 0x05 then Some(Hz12_5)
    else if c == 0x06 then Some(Hz25)
    else if c == 0x07 then Some(Hz50)
    else if c == 0x08 then Some(Hz100)
    else if c == 0x09 then Some(Hz200)
    else if c == 0x0A then Some(Hz400)
    else if c == 0x0B then Some(Hz800)
    else if c == 0x0C then Some(Hz1600)
    else None
  }

  /** The `match` of `read_range`, on the unmasked byte: defined exactly on the codes, and inverse to `Code`. */
  function RangeFromCode(c: bv8): (r: Option<AccelRange>)
    ensures r.Some? <==> c <= 0x03
    ensures r.Some? ==> r.value.Code() == c
  {
    if c == 0x00 then Some(G3)
    else if c == 0x01 then Some(G6)
    else if c == 0x02 then Some(G12)
    else if c == 0x03 then Some(G24)
    else None
  }

  /** Decoding a variant's code gives the variant back, for all three accelerometer enumerations. */
  lemma CodesRoundTrip(bandwidth: AccelFilterBandwidth, rate: AccelDataRate, range: AccelRange)
    ensures BandwidthFromCode(bandwidth.Code()) == Some(bandwidth)
    ensures DataRateFromCode(rate.Code()) == Some(rate)
    ensures RangeFromCode(range.Code()) == Some(range)
  {
    CodesInjective();
  }

  /** Each code fits its field: shifted bandwidth codes lie inside 0x70, data-rate codes inside 0x0F. */
  lemma CodesFitFields(bandwidth: AccelFilterBandwidth, rate: AccelDataRate)
    ensures (bandwidth.Code() << 4) & 0x70 == bandwidth.Code() << 4
    ensures rate.Code() & 0x0F == rate.Code()
  {
  }

  /** After `set_bandwidth`'s write, `read_bandwidth` decodes the same bandwidth, whatever the other bits were. */
  lemma BandwidthReadsBack(x: bv8, bandwidth: AccelFilterBandwidth)
    ensures BandwidthFromCode(BandwidthBits(WithBandwidth(x, bandwidth))) == Some(bandwidth)
  {
    CodesRoundTrip(bandwidth, Hz100, G6);
  }

  /** After `set_data_rate`'s write, `read_data_rate` decodes the same rate, whatever the other bits were. */
  lemma DataRateReadsBack(x: bv8, rate: AccelDataRate)
    ensures DataRateFromCode(DataRateBits(WithDataRate(x, rate))) == Some(rate)
  {
    CodesRoundTrip(Normal, rate, G6);
  }

  /** The two fields of ACC_CONFIG are disjoint: each update keeps the other field, and the updates commute. */
  lemma ConfigFieldsIndependent(x: bv8, bandwidth: AccelFilterBandwidth, rate: AccelDataRate)
    ensures DataRateBits(WithBandwidth(x, bandwidth)) == DataRateBits(x)
    ensures BandwidthBits(WithDataRate(x, rate)) == BandwidthBits(x)
    ensures WithBandwidth(WithDataRate(x, rate), bandwidth) == WithDataRate(WithBandwidth(x, bandwidth), rate)
  {
  }

  // ---------------------------------------------------------------------
  // Interrupt pins: INT1_IO_CONF / INT2_IO_CONF and INT1_INT2_MAP_DATA

  /** The fresh IO configuration byte: mode in bits 3-4, open drain in bit 2, active high in bit 1, nothing else. */
  function IoConf(mode: Bmi088PinMode, behavior: Bmi088PinBehavior, activeHigh: bool): (b: bv8)
    ensures b & 0xE1 == 0x00
  {
    (match mode
     case Input => 0x10
     case Output => 0x08
     case Disabled => 0x00)
    | (if behavior == OpenDrain then 0x04 else 0x00)
    | (if activeHigh then 0x02 else 0x00)
  }

  /** Reading an IO configuration byte back: bits 3-4 give the mode (both set is no mode), bit 2 the behaviour, bit 1 the level. */
  function IoConfFields(b: bv8): Option<(Bmi088PinMode, Bmi088PinBehavior, bool)>
  {
    var mode := b & 0x18;
    if mode == 0x18 then None
    else
      Some((if mode == 0x10 then Input else if mode == 0x08 then Output else Disabled,
            if b & 0x04 != 0 then OpenDrain else PushPull,
            b & 0x02 != 0))
  }

  /** The IO configuration byte determines the pin settings it was made from. */
  lemma IoConfRoundTrip(mode: Bmi088PinMode, behavior: Bmi088PinBehavior, activeHigh: bool)
    ensures IoConfFields(IoConf(mode, behavior, activeHigh)) == Some((mode, behavior, activeHigh))
  {
  }

  /** Pin 1's map update: bit 2 set iff the data-ready interrupt is mapped, every other bit kept. */
  function Int1Map(x: bv8, mapInterrupt: bool): (y: bv8)
    ensures y & 0xFB == x & 0xFB
    ensures y & 0x04 != 0 <==> mapInterrupt
  {
    if mapInterrupt then x | 0x04 else x & 0xFB
  }

  /** Pin 2's map update: bit 6 set iff the data-ready interrupt is mapped, every other bit kept. */
  function Int2Map(x: bv8, mapInterrupt: bool): (y: bv8)
    ensures y & 0xBF == x & 0xBF
    ensures y & 0x40 != 0 <==> mapInterrupt
  {
    if mapInterrupt then x | 0x40 else x & 0xBF
  }

  /** Mapping one pin never changes the other pin's map bit, and the two updates commute. */
  lemma MapBitsIndependent(x: bv8, map1: bool, map2: bool)
    ensures Int1Map(x, map1) & 0x40 == x & 0x40
    ensures Int2Map(x, map2) & 0x04 == x & 0x04
    ensures Int1Map(Int2Map(x, map2), map1) == Int2Map(Int1Map(x, map1), map2)
  {
  }

  /** The byte `set_suspended` writes to ACC_PWR_CONF. */
  function SuspendByte(suspended: bool): (b: bv8)
    ensures b == 0x00 <==> !suspended
    ensures b & 0xFC == 0x00 && (suspended ==> b & 0x03 == 0x03)
  {
    if suspended then 0x03 else 0x00
  }

  /** The byte `set_on` writes to ACC_PWR_CTRL. */
  function PowerCtrlByte(on: bool): (b: bv8)
    ensures b == 0x00 <==> !on
    ensures b & 0xFB == 0x00
  {
    if on then 0x04 else 0x00
  }

  // ---------------------------------------------------------------------
  // The bus traffic of each operation, given the registers before it

  /** Read ACC_CONFIG, then write back a byte whose bits 4-6 decode to `bandwidth` and whose other bits are those read. */
  function SetBandwidthPlan(addr: bv8, regs: Registers, bandwidth: AccelFilterBandwidth): (p: seq<Transfer>)
    ensures |p| == 2 && p[0] == WriteRead(addr, ACC_CONFIG, 1)
    ensures p[1].Write? && p[1].addr == addr && p[1].reg == ACC_CONFIG
    ensures BandwidthFromCode(BandwidthBits(p[1].value)) == Some(bandwidth)
    ensures p[1].value & 0x8F == regs[ACC_CONFIG] & 0x8F
  {
    BandwidthReadsBack(regs[ACC_CONFIG], bandwidth);
    [WriteRead(addr, ACC_CONFIG, 1), Write(addr, ACC_CONFIG, WithBandwidth(regs[ACC_CONFIG], bandwidth))]
  }

  /** Read ACC_CONFIG, then write back a byte whose bits 0-3 decode to `rate` and whose other bits are those read. */
  function SetDataRatePlan(addr: bv8, regs: Registers, rate: AccelDataRate): (p: seq<Transfer>)
    ensures |p| == 2 && p[0] == WriteRead(addr, ACC_CONFIG, 1)
    ensures p[1].Write? && p[1].addr == addr && p[1].reg == ACC_CONFIG
    ensures DataRateFromCode(DataRateBits(p[1].value)) == Some(rate)
    ensures p[1].value & 0xF0 == regs[ACC_CONFIG] & 0xF0
  {
    DataRateReadsBack(regs[ACC_CONFIG], rate);
    [WriteRead(addr, ACC_CONFIG, 1), Write(addr, ACC_CONFIG, WithDataRate(regs[ACC_CONFIG], rate))]
  }

  /** Write the IO byte to INT1_IO_CONF, then read INT1_INT2_MAP_DATA and write it back with only bit 2 set from `mapInterrupt`. */
  function ConfigureInt1PinPlan(addr: bv8, regs: Registers, mode: Bmi088PinMode, behavior: Bmi088PinBehavior,
                                activeHigh: bool, mapInterrupt: bool): (p: seq<Transfer>)
    ensures |p| == 3 && p[0] == Write(addr, INT1_IO_CONF, IoConf(mode, behavior, activeHigh))
    ensures p[1] == WriteRead(addr, INT1_INT2_MAP_DATA, 1)
    ensures p[2].Write? && p[2].addr == addr && p[2].reg == INT1_INT2_MAP_DATA
    ensures p[2].value & 0xFB == regs[INT1_INT2_MAP_DATA] & 0xFB && (p[2].value & 0x04 != 0 <==> mapInterrupt)
  {
    [Write(addr, INT1_IO_CONF, IoConf(mode, behavior, activeHigh)),
     WriteRead(addr, INT1_INT2_MAP_DATA, 1),
     Write(addr, INT1_INT2_MAP_DATA, Int1Map(regs[INT1_INT2_MAP_DATA], mapInterrupt))]
  }

  /** Write the IO byte to INT2_IO_CONF, then read INT1_INT2_MAP_DATA and write it back with only bit 6 set from `mapInterrupt`. */
  function ConfigureInt2PinPlan(addr: bv8, regs: Registers, mode: Bmi088PinMode, behavior: Bmi088PinBehavior,
                                activeHigh: bool, mapInterrupt: bool): (p: seq<Transfer>)
    ensures |p| == 3 && p[0] == Write(addr, INT2_IO_CONF, IoConf(mode, behavior, activeHigh))
    ensures p[1] == WriteRead(addr, INT1_INT2_MAP_DATA, 1)
    ensures p[2].Write? && p[2].addr == addr && p[2].reg == INT1_INT2_MAP_DATA
    ensures p[2].value & 0xBF == regs[INT1_INT2_MAP_DATA] & 0xBF && (p[2].value & 0x40 != 0 <==> mapInterrupt)
  {
    [Write(addr, INT2_IO_CONF, IoConf(mode, behavior, activeHigh)),
     WriteRead(addr, INT1_INT2_MAP_DATA, 1),
     Write(addr, INT1_INT2_MAP_DATA, Int2Map(regs[INT1_INT2_MAP_DATA], mapInterrupt))]
  }

  /** Both pins build their IO configuration byte in place, in the zeroed one-byte buffer. */
  method ComposeIoConf(data: array<bv8>, mode: Bmi088PinMode, behavior: Bmi088PinBehavior, activeHigh: bool)
    requires data.Length == 1 && data[0] == 0x00
    modifies data
    ensures data[0] == IoConf(mode, behavior, activeHigh)
  {
    match mode {
      case Input => data[0] := data[0] | 0x10;
      case Output => data[0] := data[0] | 0x08;
      case Disabled =>
    }
    if behavior == OpenDrain {
      data[0] := data[0] | 0x04;
    }
    if activeHigh {
      data[0] := data[0] | 0x02;
    }
  }

  // ---------------------------------------------------------------------
  // The driver object

  class Bmi088Accelerometer {
    const bus: Bus
    const address: bv8
    var bandwidth: AccelFilterBandwidth
    var dataRate: AccelDataRate
    var range: AccelRange


    /** `new`: keeps the bus and the address, and starts the cache at Normal, 100 Hz and 6 g. */
    constructor (i2c: Bus, address: bv8)
      ensures bus == i2c && this.address == address
      ensures bandwidth == Normal && dataRate == Hz100 && range == G6
    {
      bus := i2c;
      this.address := address;
      bandwidth := Normal;
      dataRate := Hz100;
      range := G6;
    }

    method ReadChipId() returns (r: Result<bv8>)
      modifies bus
      ensures var (st, s) := Run(old(bus.st), [WriteRead(address, ACC_CHIP_ID, 1)]);
              bus.st == st && r == Fetched(s, old(bus.st.regs)[ACC_CHIP_ID])
    {
      var data := new bv8[1](_ => 0);
      var s := bus.WriteRead(address, ACC_CHIP_ID, data);
      r := Fetched(s, data[0]);
    }

    method ReadErrors() returns (r: Result<AccelError>)
      modifies bus
      ensures var (st, s) := Run(old(bus.st), [WriteRead(address, ACC_ERR_REG, 1)]);
              bus.st == st && r == Fetched(s, ErrorsOf(old(bus.st.regs)[ACC_ERR_REG]))
    {
      var data := new bv8[1](_ => 0);
      var s := bus.WriteRead(address, ACC_ERR_REG, data);
      r := Fetched(s, AccelError(configurationError := data[0] & 0x0C != 0, fatalError := data[0] & 0x02 != 0));
    }

    method IsDataReady() returns (r: Result<bool>)
      modifies bus
      ensures var (st, s) := Run(old(bus.st), [WriteRead(address, ACC_STATUS, 1)]);
              bus.st == st && r == Fetched(s, DataReadyBit(old(bus.st.regs)[ACC_STATUS]))
    {
      var data := new bv8[1](_ => 0);
      var s := bus.WriteRead(address, ACC_STATUS, data);
      r := Fetched(s, data[0] & 0x80 != 0);
    }

    method ReadData() returns (r: Result<(int, int, int)>)
      modifies bus
      ensures var (st, s) := Run(old(bus.st), [WriteRead(address, ACC_X_LSB, 6)]);
              bus.st == st && r == Fetched(s, AxesOf(Window(old(bus.st.regs), ACC_X_LSB, 6)))
    {
      var data := new bv8[6](_ => 0);
      var s := bus.WriteRead(address, ACC_X_LSB, data);
      r := Fetched(s, (I16FromLe(data[0], data[1]), I16FromLe(data[2], data[3]), I16FromLe(data[4], data[5])));
    }

    method DataReadyInterrupt() returns (r: Result<bool>)
      modifies bus
      ensures var (st, s) := Run(old(bus.st), [WriteRead(address, ACC_INT_STAT_1, 1)]);
              bus.st == st && r == Fetched(s, DataReadyBit(old(bus.st.regs)[ACC_INT_STAT_1]))
    {
      var data := new bv8[1](_ => 0);
      var s := bus.WriteRead(address, ACC_INT_STAT_1, data);
      r := Fetched(s, data[0] & 0x80 != 0);
    }

    /** `read_temperature`: two bytes from TEMP_MSB, the second of them (register 0x23) as the high byte. */
    method ReadTemperature() returns (r: Result<int>)
      modifies bus
      ensures var (st, s) := Run(old(bus.st), [WriteRead(address, TEMP_MSB, 2)]);
              bus.st == st && r == Fetched(s, I16FromLe(old(bus.st.regs)[TEMP_MSB], old(bus.st.regs)[TEMP_MSB + 1]))
    {
      var data := new bv8[2](_ => 0);
      var s := bus.WriteRead(address, TEMP_MSB, data);
      r := Fetched(s, I16FromLe(data[0], data[1]));
    }

    method SetBandwidth(bandwidth: AccelFilterBandwidth) returns (r: Result<()>)
      modifies bus
      ensures var (st, s) := Run(old(bus.st), SetBandwidthPlan(address, old(bus.st.regs), bandwidth));
              bus.st == st && r == FromStatus(s)
    {
      var data := new bv8[1](_ => 0);
      var s := ReadModifyWrite(bus, address, ACC_CONFIG, data, x => WithBandwidth(x, bandwidth));
      r := FromStatus(s);
    }

    method ReadBandwidth() returns (r: Result<AccelFilterBandwidth>)
      modifies bus, this`bandwidth
      ensures var (st, s) := Run(old(bus.st), [WriteRead(address, ACC_CONFIG, 1)]);
              var raw := BandwidthBits(old(bus.st.regs)[ACC_CONFIG]);
              bus.st == st && r == Decoded(s, BandwidthFromCode(raw), raw)
      ensures bandwidth == if r.Ok? then r.value else old(bandwidth)
    {
      var data := new bv8[1](_ => 0);
      var s := bus.WriteRead(address, ACC_CONFIG, data);
      if s.Failed? {
        return Err(s.error);
      }
      data[0] := data[0] & 0x70;
      data[0] := data[0] >> 4;
      var decoded := BandwidthFromCode(data[0]);
      if decoded.None? {
        return Unreachable(data[0]);
      }
      bandwidth := decoded.value;
      r := Ok(bandwidth);
    }

    /** `get_bandwidth`: the cached value; no bus traffic. */
    function GetBandwidth(): (b: AccelFilterBandwidth)
      reads this
      ensures b == bandwidth
    {
      bandwidth
    }

    method SetDataRate(rate: AccelDataRate) returns (r: Result<()>)
      modifies bus
      ensures var (st, s) := Run(old(bus.st), SetDataRatePlan(address, old(bus.st.regs), rate));
              bus.st == st && r == FromStatus(s)
    {
      var data := new bv8[1](_ => 0);
      var s := ReadModifyWrite(bus, address, ACC_CONFIG, data, x => WithDataRate(x, rate));
      r := FromStatus(s);
    }

    method ReadDataRate() returns (r: Result<AccelDataRate>)
      modifies bus, this`dataRate
      ensures var (st, s) := Run(old(bus.st), [WriteRead(address, ACC_CONFIG, 1)]);
              var raw := DataRateBits(old(bus.st.regs)[ACC_CONFIG]);
              bus.st == st && r == Decoded(s, DataRateFromCode(raw), raw)
      ensures dataRate == if r.Ok? then r.value else old(dataRate)
    {
      var data := new bv8[1](_ => 0);
      var s := bus.WriteRead(address, ACC_CONFIG, data);
      if s.Failed? {
        return Err(s.error);
      }
      data[0] := data[0] & 0x0F;
      var decoded := DataRateFromCode(data[0]);
      if decoded.None? {
        return Unreachable(data[0]);
      }
      dataRate := decoded.value;
      r := Ok(dataRate);
    }

    /** `get_data_rate`: the cached value; no bus traffic. */
    function GetDataRate(): (d: AccelDataRate)
      reads this
      ensures d == dataRate
    {
      dataRate
    }

    method SetRange(range: AccelRange) returns (r: Result<()>)
      modifies bus
      ensures var (st, s) := Run(old(bus.st), [Write(address, ACC_RANGE, range.Code())]);
              bus.st == st && r == FromStatus(s)
    {
      var s := bus.Write(address, ACC_RANGE, range.Code());
      r := FromStatus(s);
    }

    method ReadRange() returns (r: Result<AccelRange>)
      modifies bus, this`range
      ensures var (st, s) := Run(old(bus.st), [WriteRead(address, ACC_RANGE, 1)]);
              var raw := old(bus.st.regs)[ACC_RANGE];
              bus.st == st && r == Decoded(s, RangeFromCode(raw), raw)
      ensures range == if r.Ok? then r.value else old(range)
    {
      var data := new bv8[1](_ => 0);
      var s := bus.WriteRead(address, ACC_RANGE, data);
      if s.Failed? {
        return Err(s.error);
      }
      var decoded := RangeFromCode(data[0]);
      if decoded.None? {
        return Unreachable(data[0]);
      }
      range := decoded.value;
      r := Ok(range);
    }

    /** `get_range`: the cached value; no bus traffic. */
    function GetRange(): (g: AccelRange)
      reads this
      ensures g == range
    {
      range
    }

    method ConfigureInt1Pin(mode: Bmi088PinMode, behavior: Bmi088PinBehavior, activeHigh: bool, mapInterrupt: bool)
      returns (r: Result<()>)
      modifies bus
      ensures var (st, s) := Run(old(bus.st),
                                 ConfigureInt1PinPlan(address, old(bus.st.regs), mode, behavior, activeHigh, mapInterrupt));
              bus.st == st && r == FromStatus(s)
    {
      ghost var st0 := bus.st;
      ghost var plan := ConfigureInt1PinPlan(address, st0.regs, mode, behavior, activeHigh, mapInterrupt);
      var data := new bv8[1](_ => 0);
      ComposeIoConf(data, mode, behavior, activeHigh);
      var s := bus.Write(address, INT1_IO_CONF, data[0]);
      if s.Failed? {
        RunStops(st0, plan);
        return Err(s.error);
      }
      RunContinues(st0, plan);
      ghost var st1 := bus.st;
      assert plan[1..] == [WriteRead(address, INT1_INT2_MAP_DATA, 1),
                           Write(address, INT1_INT2_MAP_DATA, Int1Map(st1.regs[INT1_INT2_MAP_DATA], mapInterrupt))];
      s := ReadModifyWrite(bus, address, INT1_INT2_MAP_DATA, data, x => Int1Map(x, mapInterrupt));
      r := FromStatus(s);
    }

    method ConfigureInt2Pin(mode: Bmi088PinMode, behavior: Bmi088PinBehavior, activeHigh: bool, mapInterrupt: bool)
      returns (r: Result<()>)
      modifies bus
      ensures var (st, s) := Run(old(bus.st),
                                 ConfigureInt2PinPlan(address, old(bus.st.regs), mode, behavior, activeHigh, mapInterrupt));
              bus.st == st && r == FromStatus(s)
    {
      ghost var st0 := bus.st;
      ghost var plan := ConfigureInt2PinPlan(address, st0.regs, mode, behavior, activeHigh, mapInterrupt);
      var data := new bv8[1](_ => 0);
      ComposeIoConf(data, mode, behavior, activeHigh);
      var s := bus.Write(address, INT2_IO_CONF, data[0]);
      if s.Failed? {
        RunStops(st0, plan);
        return Err(s.error);
      }
      RunContinues(st0, plan);
      ghost var st1 := bus.st;
      assert plan[1..] == [WriteRead(address, INT1_INT2_MAP_DATA, 1),
                           Write(address, INT1_INT2_MAP_DATA, Int2Map(st1.regs[INT1_INT2_MAP_DATA], mapInterrupt))];
      s := ReadModifyWrite(bus, address, INT1_INT2_MAP_DATA, data, x => Int2Map(x, mapInterrupt));
      r := FromStatus(s);
    }

    method SetSuspended(suspended: bool) returns (r: Result<()>)
      modifies bus
      ensures var (st, s) := Run(old(bus.st), [Write(address, ACC_PWR_CONF, SuspendByte(suspended))]);
              bus.st == st && r == FromStatus(s)
    {
      var data: bv8 := if suspended then 0x03 else 0x00;
      var s := bus.Write(address, ACC_PWR_CONF, data);
      r := FromStatus(s);
    }

    method SetOn(on: bool) returns (r: Result<()>)
      modifies bus
      ensures var (st, s) := Run(old(bus.st), [Write(address, ACC_PWR_CTRL, PowerCtrlByte(on))]);
              bus.st == st && r == FromStatus(s)
    {
      var data: bv8 := if on then 0x04 else 0x00;
      var s := bus.Write(address, ACC_PWR_CTRL, data);
      r := FromStatus(s);
    }

    method Reset() returns (r: Result<()>)
      modifies bus
      ensures var (st, s) := Run(old(bus.st), [Write(address, ACC_SOFTRESET, SOFTRESET_COMMAND)]);
              bus.st == st && r == FromStatus(s)
    {
      var s := bus.Write(address, ACC_SOFTRESET, SOFTRESET_COMMAND);
      r := FromStatus(s);
    }
  }
}
