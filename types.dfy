/**
 * The value types shared by both sub-devices: the configuration enumerations,
 * whose discriminants are their register codes, the accelerometer's error
 * flags, the pin settings, and the little-endian two's-complement 16-bit
 * composition used for sensor data and temperature.
 */
module Types {
  import opened Transport

  datatype Option<T> = None | Some(value: T)

  /**
   * What a driver operation returns: its value, the transport's error
   * unchanged, or the panic of an `unreachable!()` arm, carrying the byte the
   * `match` inspected (masked where the code masks it) that no variant matched.
   */
  datatype Result<T> = Ok(value: T) | Err(error: BusError) | Unreachable(raw: bv8)

  /** The outcome of an operation that returns `()`: that of its last transfer. */
  function FromStatus(s: Status): (r: Result<()>)
    ensures r.Ok? <==> s.Done?
    ensures s.Failed? ==> r == Err(s.error)
  {
    if s.Done? then Ok(()) else Err(s.error)
  }

  /** The outcome of a read whose bytes decode to `v` (the `.map` of the source). */
  function Fetched<T>(s: Status, v: T): (r: Result<T>)
    ensures r.Ok? <==> s.Done?
    ensures r.Ok? ==> r.value == v
    ensures s.Failed? ==> r == Err(s.error)
  {
    if s.Done? then Ok(v) else Err(s.error)
  }

  /** The outcome of a read whose byte `raw`, masked or not, goes through a `match` with an `unreachable!()` arm. */
  function Decoded<T>(s: Status, d: Option<T>, raw: bv8): (r: Result<T>)
    ensures r.Ok? <==> s.Done? && d.Some?
    ensures r.Ok? ==> r.value == d.value
    ensures r.Unreachable? <==> s.Done? && d.None?
    ensures r.Unreachable? ==> r.raw == raw
    ensures s.Failed? ==> r == Err(s.error)
  {
    if s.Failed? then Err(s.error)
    else if d.None? then Unreachable(raw)
    else Ok(d.value)
  }

  /** The accelerometer's own fault flags, decoded from one status byte. */
  datatype AccelError = AccelError(configurationError: bool, fatalError: bool)

  datatype AccelFilterBandwidth = OSR4 | OSR2 | Normal {
    /** The discriminant, which is the code of bits 4-6 of ACC_CONFIG. */
    function Code(): (c: bv8)
      ensures c <= 0x02
    {
      match this
      case OSR4 => 0x00
      case OSR2 => 0x01
      case Normal => 0x02
    }
  }

  datatype AccelDataRate = Hz12_5 | Hz25 | Hz50 | Hz100 | Hz200 | Hz400 | Hz800 | Hz1600 {
    /** The discriminant, which is the code of bits 0-3 of ACC_CONFIG. */
    function Code(): (c: bv8)
      ensures 0x05 <= c <= 0x0C
    {
      match this
      case Hz12_5 => 0x05
      case Hz25 => 0x06
      case Hz50 => 0x07
      case Hz100 => 0x08
      case Hz200 => 0x09
      case Hz400 => 0x0A
      case Hz800 => 0x0B
      case Hz1600 => 0x0C
    }
  }

  datatype AccelRange = G3 | G6 | G12 | G24 {
    /** The discriminant, which is the whole byte of ACC_RANGE. */
    function Code(): (c: bv8)
      ensures c <= 0x03
    {
      match this
      case G3 => 0x00
      case G6 => 0x01
      case G12 => 0x02
      case G24 => 0x03
    }
  }

  datatype GyroRange = Deg2000 | Deg1000 | Deg500 | Deg250 | Deg125 {
    /** The discriminant, which is the whole byte of GYRO_RANGE. */
    function Code(): (c: bv8)
      ensures c <= 0x04
    {
      match this
      case Deg2000 => 0x00
      case Deg1000 => 0x01
      case Deg500 => 0x02
      case Deg250 => 0x03
      case Deg125 => 0x04
    }
  }

  datatype GyroBandwidth =
    | Data2000Filter532 | Data2000Filter230 | Data1000Filter116 | Data400Filter47
    | Data200Filter23 | Data100Filter12 | Data200Filter64 | Data100Filter32
  {
    /** The discriminant, which is the byte written to GYRO_BANDWIDTH. */
    function Code(): (c: bv8)
      ensures c <= 0x07
    {
      match this
      case Data2000Filter532 => 0x00
      case Data2000Filter230 => 0x01
      case Data1000Filter116 => 0x02
      case Data400Filter47 => 0x03
      case Data200Filter23 => 0x04
      case Data100Filter12 => 0x05
      case Data200Filter64 => 0x06
      case Data100Filter32 => 0x07
    }
  }

  datatype Bmi088PinMode = Input | Output | Disabled

  datatype Bmi088PinBehavior = PushPull | OpenDrain

  /** Distinct variants have distinct register codes, for every enumeration. */
  lemma CodesInjective()
    ensures forall a: AccelFilterBandwidth, b: AccelFilterBandwidth :: a.Code() == b.Code() ==> a == b
    ensures forall a: AccelDataRate, b: AccelDataRate :: a.Code() == b.Code() ==> a == b
    ensures forall a: AccelRange, b: AccelRange :: a.Code() == b.Code() ==> a == b
    ensures forall a: GyroRange, b: GyroRange :: a.Code() == b.Code() ==> a == b
    ensures forall a: GyroBandwidth, b: GyroBandwidth :: a.Code() == b.Code() ==> a == b
  {
  }

  /** The bounds of `i16`. */
  predicate IsI16(v: int)
  {
    -0x8000 <= v <= 0x7FFF
  }

  lemma ComposeBytes(lo: bv8, hi: bv8)
    ensures ((hi as bv16 << 8) | lo as bv16) as int == hi as int * 0x100 + lo as int
  {
    assert (hi as bv16 << 8) | lo as bv16 == (hi as bv16) * 0x100 + lo as bv16;
  }

  /** The sign bit of the composed word is the high byte's top bit. */
  lemma SignBit(lo: bv8, hi: bv8)
    ensures (((hi as bv16 << 8) | lo as bv16) & 0x8000 == 0) <==> hi as int < 0x80
  {
    assert (((hi as bv16 << 8) | lo as bv16) & 0x8000 == 0) <==> hi & 0x80 == 0;
    assert hi & 0x80 == 0 <==> hi < 0x80;
  }

  /**
   * `(i16::from(hi) << 8) | i16::from(lo)`: the two bytes side by side in a
   * 16-bit word, read as two's complement. The result is the one `i16` whose
   * bit pattern is the unsigned number hi * 256 + lo.
   */
  function I16FromLe(lo: bv8, hi: bv8): (v: int)
    ensures IsI16(v)
    ensures v % 0x1_0000 == hi as int * 0x100 + lo as int
  {
    var w: bv16 := (hi as bv16 << 8) | lo as bv16;
    ComposeBytes(lo, hi);
    SignBit(lo, hi);
    if w & 0x8000 == 0 then w as int else w as int - 0x1_0000
  }

  /** The little-endian bytes (low, high) of an `i16`. */
  function I16ToLe(v: int): (bytes: (bv8, bv8))
    requires IsI16(v)
  {
    var u := v % 0x1_0000;
    ((u % 0x100) as bv8, (u / 0x100) as bv8)
  }

  lemma ByteValue(n: int)
    requires 0 <= n < 0x100
    ensures (n as bv8) as int == n
  {
    assert n % 0x100 == n;
  }

  lemma SameResidue(a: int, b: int)
    requires IsI16(a) && IsI16(b)
    requires a % 0x1_0000 == b % 0x1_0000
    ensures a == b
  {
  }

  /** Every `i16` survives being split into its little-endian bytes and composed again. */
  lemma I16RoundTrip(v: int)
    requires IsI16(v)
    ensures I16FromLe(I16ToLe(v).0, I16ToLe(v).1) == v
  {
    var u := v % 0x1_0000;
    var lo, hi := (u % 0x100) as bv8, (u / 0x100) as bv8;
    ByteValue(u % 0x100);
    ByteValue(u / 0x100);
    assert hi as int * 0x100 + lo as int == u;
    SameResidue(I16FromLe(lo, hi), v);
  }

  /** Every pair of bytes survives being composed into an `i16` and split again. */
  lemma LeRoundTrip(lo: bv8, hi: bv8)
    ensures I16ToLe(I16FromLe(lo, hi)) == (lo, hi)
  {
    var u := hi as int * 0x100 + lo as int;
    assert I16FromLe(lo, hi) % 0x1_0000 == u;
    assert u % 0x100 == lo as int && u / 0x100 == hi as int;
  }

  /** The sign comes from bit 7 of the high byte: [0x00, 0x80] is -32768, [0xFF, 0x7F] is 32767, [0xFF, 0xFF] is -1. */
  lemma I16Extremes()
    ensures I16FromLe(0x00, 0x80) == -0x8000
    ensures I16FromLe(0xFF, 0x7F) == 0x7FFF
    ensures I16FromLe(0xFF, 0xFF) == -1
    ensures forall lo: bv8, hi: bv8 :: I16FromLe(lo, hi) < 0 <==> hi >= 0x80
  {
    forall lo: bv8, hi: bv8 ensures I16FromLe(lo, hi) < 0 <==> hi >= 0x80 {
      ComposeBytes(lo, hi);
    }
  }

  /** The data-ready bit 7 of a status register: set exactly when the byte is at least 0x80. */
  function DataReadyBit(x: bv8): (ready: bool)
    ensures ready <==> x >= 0x80
  {
    x & 0x80 != 0
  }

  /** Three little-endian `i16` axes, X first. */
  function AxesOf(d: seq<bv8>): (xyz: (int, int, int))
    requires |d| == 6
    ensures IsI16(xyz.0) && IsI16(xyz.1) && IsI16(xyz.2)
  {
    (I16FromLe(d[0], d[1]), I16FromLe(d[2], d[3]), I16FromLe(d[4], d[5]))
  }

  /** The six register bytes that hold the given axis values. */
  function AxesBytes(x: int, y: int, z: int): (d: seq<bv8>)
    requires IsI16(x) && IsI16(y) && IsI16(z)
    ensures |d| == 6
  {
    [I16ToLe(x).0, I16ToLe(x).1, I16ToLe(y).0, I16ToLe(y).1, I16ToLe(z).0, I16ToLe(z).1]
  }

  /** Every triple of `i16` values is read back from its bytes. */
  lemma AxesRoundTrip(x: int, y: int, z: int)
    requires IsI16(x) && IsI16(y) && IsI16(z)
    ensures AxesOf(AxesBytes(x, y, z)) == (x, y, z)
  {
    I16RoundTrip(x);
    I16RoundTrip(y);
    I16RoundTrip(z);
  }

  /** Every six register bytes are what their decoded axes would be written as. */
  lemma AxesBytesRoundTrip(d: seq<bv8>)
    requires |d| == 6
    ensures AxesBytes(AxesOf(d).0, AxesOf(d).1, AxesOf(d).2) == d
  {
    LeRoundTrip(d[0], d[1]);
    LeRoundTrip(d[2], d[3]);
    LeRoundTrip(d[4], d[5]);
  }

  /** The data-ready bit: 0x80 is ready, 0x7F is not. */
  lemma DataReadyExamples()
    ensures DataReadyBit(0x80) && !DataReadyBit(0x7F)
  {
  }
}
