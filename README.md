# BMI088 driver, modelled in Dafny

The BMI088 inertial measurement unit holds two sub-devices in one package: an
accelerometer, which also carries a temperature sensor, and a gyroscope. Each
sub-device has its own bus address and its own space of 8-bit registers. The
driver turns every public operation into a short series of ordered transfers
on a two-wire bus. There are two kinds of transfer: a write of one register
byte, and a write_read of consecutive registers into a buffer. Every transfer
but the last is followed by Rust's `?`, and the operation returns the last
transfer's result (through `.map` for a read), so it stops at the first
transfer that fails and returns that error.

This project models that driver:

- `transport.dfy` (module `Transport`) is the bus. It holds the sub-device as
  256 passive byte registers, a script of transfer outcomes (the failure
  oracle) and a trace of every transfer issued.
  - `Step` performs one transfer. `Run` performs an operation's transfers in
    order and stops at the first failure, as the `?` after every transfer but
    the last does; the last transfer's result is the operation's.
  - The class `Bus` offers the two transfers as methods, each proved equal to
    one `Step`.
  - `ReadModifyWrite` is the driver's pattern of reading one register into
    the one-byte buffer, changing it in place and writing it back.
  - The lemmas compose plans: a plan whose transfers all succeed, a plan that
    fails at its k-th transfer, two plans in sequence, and a register that no
    write of the plan addresses.
- `types.dfy` (module `Types`) holds the value types of `src/lib.rs`: the
  enumerations with their register codes, `AccelError` and the pin settings.
  It also holds the operation result and the little-endian two's-complement
  composition of two bytes into an `i16`.
- `accel.dfy` (module `Accel`) is `src/acc.rs` plus `new` and
  `read_temperature` from `src/lib.rs`. It holds the register constants, the
  pure byte encoders and decoders, the bus plan of every multi-transfer
  operation, and the class `Bmi088Accelerometer` with its cache of bandwidth,
  data rate and range. Each method is proved to leave the bus exactly as
  `Run` of its plan does, and to return the matching result. The three
  `read_*` methods update their own cached field, and only on success.
- `gyro.dfy` (module `Gyro`) is `src/gyro.rs` plus the gyroscope's `new`. It
  has the same structure as the accelerometer module. The class
  `Bmi088Gyroscope` holds its cached bandwidth and range as constants: no
  method of the driver assigns them, so they keep the values `new` gives them.
- `accel_properties.dfy` and `gyro_properties.dfy` state what each
  multi-transfer operation does to the registers and the trace:
  - when every transfer succeeds;
  - when a given transfer is the first to fail;
  - how operations on shared registers combine.

A `Result` is `Ok(value)`, `Err(error)` carrying the transport's error
unchanged, or `Unreachable(raw)`. The last one stands for the panic of an
`unreachable!()` arm and carries the byte the `match` inspected, masked where
the code masks it, that no variant matched.

## Model

| member | source | states |
|---|---|---|
| `Transport.Window` | src/acc.rs:46-57 | a write_read with an n-byte buffer returns the n consecutive registers starting at the addressed one |
| `Transport.Step` | src/acc.rs:77 | definition: one transfer consumes one scripted outcome, is appended to the trace with that outcome, and stores its byte only if it is a write that succeeded |
| `Transport.Run` | src/gyro.rs:94-138 | definition: the transfers of an operation in order, stopping after the first that fails, as the `?` after every transfer but the last does; the operation's status is that of the last transfer issued, which the code returns as it is |
| `Transport.RunOutcome` | src/gyro.rs:94-138 | an operation keeps the old trace and appends at most as many transfers as its plan holds, and at least one when the plan is not empty; every one but the last succeeded, its outcome is the last one's, and an operation that succeeded issued its whole plan |
| `Transport.Apply` | src/gyro.rs:94-138 | the register file after every transfer of a plan succeeded; a plan that ends with a write leaves that write's byte in its register |
| `Transport.Bus.Write` | src/acc.rs:146-148 | a write consumes one scripted outcome, is appended to the trace, and stores its byte only if it succeeded |
| `Transport.Bus.WriteRead` | src/acc.rs:151-154 | a write_read consumes one outcome and is traced; on success the buffer holds the register window, on failure the buffer and the registers are unchanged |
| `Transport.ReadModifyWrite` | src/acc.rs:66-78 | read one register into the buffer, update the byte in place, write it back: exactly the two-transfer plan, and the write is skipped when the read fails |
| `Transport.RunCompletes` | src/acc.rs:196-209 | when every transfer of a plan succeeds, all of them are issued in order, each write takes effect, and the operation succeeds |
| `Transport.RunStopsAtFailure` | src/acc.rs:196-209 | when the k-th transfer is the first to fail, exactly k+1 transfers are traced, only the writes before it take effect, and the operation returns that failure |
| `Transport.ApplyUntouched` | src/gyro.rs:103-137 | a register that no write of a plan addresses keeps its value |
| `Transport.RunAppend` | src/gyro.rs:103-137 | running two plans back to back is running their concatenation, and the second is skipped when the first fails |
| `Transport.RunKeeps` | src/gyro.rs:122-128 | a register that no write of a plan addresses holds, after the plan, the value it held before, whether or not the plan failed |
| `Types.FromStatus` | src/acc.rs:146-148 | an operation returning `()` succeeds exactly when its last transfer did, and otherwise returns that transfer's error unchanged |
| `Types.Fetched` | src/acc.rs:22-27 | a read returns the decoded bytes exactly when the transfer succeeded, and otherwise the transfer's error |
| `Types.Decoded` | src/acc.rs:150-165 | a decoding read returns the variant when the transfer succeeded and the byte matched one, the unreachable result carrying the byte when it matched none, and the transfer's error otherwise |
| `Types.AccelFilterBandwidth.Code` | src/lib.rs:17-22 | the bandwidth discriminants are 0x00 to 0x02 |
| `Types.AccelDataRate.Code` | src/lib.rs:24-34 | the data-rate discriminants are 0x05 to 0x0C |
| `Types.AccelRange.Code` | src/lib.rs:36-42 | the accelerometer range discriminants are 0x00 to 0x03 |
| `Types.GyroRange.Code` | src/lib.rs:44-51 | the gyroscope range discriminants are 0x00 to 0x04 |
| `Types.GyroBandwidth.Code` | src/lib.rs:53-63 | the gyroscope bandwidth discriminants are 0x00 to 0x07 |
| `Types.CodesInjective` | src/lib.rs:17-63 | in every enumeration, distinct variants have distinct register codes |
| `Types.I16FromLe` | src/acc.rs:52-54 | the high byte shifted left by 8 and ORed with the low byte, read as an `i16`, is the one `i16` congruent to hi*256+lo modulo 2^16 |
| `Types.I16RoundTrip` | src/acc.rs:46-57 | every `i16` is read back from its two little-endian bytes |
| `Types.LeRoundTrip` | src/acc.rs:46-57 | every byte pair is the little-endian encoding of the `i16` composed from it |
| `Types.I16Extremes` | src/acc.rs:52-54 | [0x00,0x80] is -32768, [0xFF,0x7F] is 32767, [0xFF,0xFF] is -1, and a value is negative exactly when bit 7 of the high byte is set |
| `Types.DataReadyBit` | src/acc.rs:39-44 | the data-ready flag is bit 7 of the status byte |
| `Types.DataReadyExamples` | src/acc.rs:59-64 | 0x80 reads as ready and 0x7F as not ready |
| `Types.AxesOf` | src/acc.rs:50-56 | the three axes are `i16` values, X from bytes 0-1, Y from bytes 2-3, Z from bytes 4-5 |
| `Types.AxesRoundTrip` | src/acc.rs:46-57 | every triple of `i16` values is decoded back from its six register bytes |
| `Types.AxesBytesRoundTrip` | src/gyro.rs:23-34 | every six register bytes are the encoding of the axes decoded from them |
| `Accel.ErrorsOf` | src/acc.rs:29-37 | `fatal_error` is bit 1 of the error register, and `configuration_error` is bit 2 or bit 3 |
| `Accel.ErrorsRoundTrip` | src/acc.rs:33-36 | the two flags are independent: every combination is decoded from some byte |
| `Accel.ErrorExamples` | src/acc.rs:34-35 | 0x02 is fatal only, 0x0C is configuration only, and 0x01 is neither |
| `Accel.WithBandwidth` | src/acc.rs:73-75 | the byte written back carries the bandwidth code in bits 4-6 and keeps bit 7 and bits 0-3 |
| `Accel.WithDataRate` | src/acc.rs:111-113 | the byte written back carries the rate code in bits 0-3 and keeps bits 4-7 |
| `Accel.BandwidthBits` | src/acc.rs:87-88 | `read_bandwidth` matches on bits 4-6 shifted down, a value of at most 7 |
| `Accel.DataRateBits` | src/acc.rs:125 | `read_data_rate` matches on bits 0-3 |
| `Accel.BandwidthFromCode` | src/acc.rs:90-95 | a variant is found exactly for codes 0 to 2, and it is the variant with that code |
| `Accel.DataRateFromCode` | src/acc.rs:127-137 | a variant is found exactly for codes 5 to 12, and it is the variant with that code |
| `Accel.RangeFromCode` | src/acc.rs:156-162 | a variant is found exactly for the unmasked bytes 0 to 3, and it is the variant with that code |
| `Accel.CodesRoundTrip` | src/lib.rs:17-42 | each decoder inverts the encoding of its accelerometer enumeration |
| `Accel.CodesFitFields` | src/lib.rs:17-34 | shifted bandwidth codes lie inside mask 0x70 and rate codes inside 0x0F |
| `Accel.BandwidthReadsBack` | src/acc.rs:66-98 | after `set_bandwidth`'s byte, `read_bandwidth` decodes the same bandwidth, whatever the other bits were |
| `Accel.DataRateReadsBack` | src/acc.rs:104-140 | after `set_data_rate`'s byte, `read_data_rate` decodes the same rate, whatever the other bits were |
| `Accel.ConfigFieldsIndependent` | src/acc.rs:66-116 | each update of ACC_CONFIG keeps the other field, and the two updates commute |
| `Accel.IoConf` | src/acc.rs:182-194 | the fresh IO configuration byte never has bits 0, 5, 6 or 7 set |
| `Accel.IoConfRoundTrip` | src/acc.rs:182-194 | the IO configuration byte determines the mode, the behaviour and the level it was built from |
| `Accel.Int1Map` | src/acc.rs:203-207 | pin 1's map byte has bit 2 set exactly when the interrupt is mapped, and every other bit is kept |
| `Accel.Int2Map` | src/acc.rs:244-248 | pin 2's map byte has bit 6 set exactly when the interrupt is mapped, and every other bit is kept |
| `Accel.MapBitsIndependent` | src/acc.rs:198-251 | mapping one pin never changes the other pin's map bit, and the two updates commute |
| `Accel.ComposeIoConf` | src/acc.rs:178-194 | the in-place OR sequence on the zeroed buffer produces exactly the IO configuration byte |
| `Accel.SuspendByte` | src/acc.rs:254 | the byte `set_suspended` writes is zero exactly when not suspended, and only bits 0-1 can be set, both when suspended (0x03) |
| `Accel.PowerCtrlByte` | src/acc.rs:259 | the byte `set_on` writes is zero exactly when off, and only bit 2 can be set (0x04) |
| `Accel.SetBandwidthPlan` | src/acc.rs:66-78 | a read of ACC_CONFIG, then one write to it whose bits 4-6 decode to the requested bandwidth and whose other bits are those read |
| `Accel.SetDataRatePlan` | src/acc.rs:104-116 | a read of ACC_CONFIG, then one write to it whose bits 0-3 decode to the requested rate and whose bits 4-7 are those read |
| `Accel.ConfigureInt1PinPlan` | src/acc.rs:171-210 | the IO byte written to 0x53, then a read of 0x58 and a write back to it with bit 2 set exactly when mapped and every other bit as read |
| `Accel.ConfigureInt2PinPlan` | src/acc.rs:212-251 | the IO byte written to 0x53 as well, then a read of 0x58 and a write back to it with bit 6 set exactly when mapped and every other bit as read |
| `Accel.Bmi088Accelerometer.constructor` | src/lib.rs:96-104 | `new` keeps the bus and the address, and the cache starts at Normal, 100 Hz and 6 g |
| `Accel.Bmi088Accelerometer.ReadChipId` | src/acc.rs:22-27 | one write_read of register 0x00, returning its byte |
| `Accel.Bmi088Accelerometer.ReadErrors` | src/acc.rs:29-37 | one write_read of register 0x02, returning its decoded flags |
| `Accel.Bmi088Accelerometer.IsDataReady` | src/acc.rs:39-44 | one write_read of register 0x03, returning bit 7 |
| `Accel.Bmi088Accelerometer.ReadData` | src/acc.rs:46-57 | one six-byte write_read from register 0x12, returning the three axes decoded from registers 0x12 to 0x17 |
| `Accel.Bmi088Accelerometer.DataReadyInterrupt` | src/acc.rs:59-64 | one write_read of register 0x1D, returning bit 7 |
| `Accel.Bmi088Accelerometer.ReadTemperature` | src/lib.rs:106-111 | one two-byte write_read from 0x22, with the byte of 0x23 as the high byte |
| `Accel.Bmi088Accelerometer.SetBandwidth` | src/acc.rs:66-78 | the bus ends as the read-modify-write plan on ACC_CONFIG leaves it, the result is that of the last transfer, and the cache is untouched |
| `Accel.Bmi088Accelerometer.ReadBandwidth` | src/acc.rs:80-98 | one read of ACC_CONFIG decoded through bits 4-6; the cached bandwidth becomes the result on success and is kept otherwise |
| `Accel.Bmi088Accelerometer.GetBandwidth` | src/acc.rs:100-102 | returns the cached bandwidth with no bus traffic |
| `Accel.Bmi088Accelerometer.SetDataRate` | src/acc.rs:104-116 | the bus ends as the read-modify-write plan on ACC_CONFIG leaves it, and the cache is untouched |
| `Accel.Bmi088Accelerometer.ReadDataRate` | src/acc.rs:118-140 | one read of ACC_CONFIG decoded through bits 0-3; the cached rate becomes the result on success and is kept otherwise |
| `Accel.Bmi088Accelerometer.GetDataRate` | src/acc.rs:142-144 | returns the cached data rate with no bus traffic |
| `Accel.Bmi088Accelerometer.SetRange` | src/acc.rs:146-148 | one write of the range code to 0x41; the cache is untouched |
| `Accel.Bmi088Accelerometer.ReadRange` | src/acc.rs:150-165 | one read of 0x41 decoded unmasked; the cached range becomes the result on success and is kept otherwise |
| `Accel.Bmi088Accelerometer.GetRange` | src/acc.rs:167-169 | returns the cached range with no bus traffic |
| `Accel.Bmi088Accelerometer.ConfigureInt1Pin` | src/acc.rs:171-210 | the bus ends as the plan leaves it: the IO byte written to 0x53, then a read-modify-write of 0x58, stopping at the first failure |
| `Accel.Bmi088Accelerometer.ConfigureInt2Pin` | src/acc.rs:212-251 | the same as pin 1, with pin 2's byte also written to 0x53 and bit 6 of 0x58 updated |
| `Accel.Bmi088Accelerometer.SetSuspended` | src/acc.rs:253-256 | one write of 0x03 (suspended) or 0x00 to 0x7C |
| `Accel.Bmi088Accelerometer.SetOn` | src/acc.rs:258-261 | one write of 0x04 (on) or 0x00 to 0x7D |
| `Accel.Bmi088Accelerometer.Reset` | src/acc.rs:263-265 | one write of 0xB6 to 0x7E |
| `AccelProperties.SetBandwidthSucceeds` | src/acc.rs:66-78 | with both transfers succeeding, only ACC_CONFIG changes, it reads back as the requested bandwidth, and its data-rate field is kept |
| `AccelProperties.SetDataRateSucceeds` | src/acc.rs:104-116 | with both transfers succeeding, only ACC_CONFIG changes, it reads back as the requested rate, and its bandwidth field is kept |
| `AccelProperties.SetBandwidthReadFails` | src/acc.rs:70-71 | a failed read of ACC_CONFIG issues no write and changes no register |
| `AccelProperties.SetDataRateReadFails` | src/acc.rs:108-109 | a failed read of ACC_CONFIG issues no write and changes no register |
| `AccelProperties.SettersCommute` | src/acc.rs:66-116 | `set_bandwidth` then `set_data_rate` leaves the same registers as the reverse order, and both settings read back |
| `AccelProperties.PowerAndResetWrites` | src/acc.rs:253-265 | each power or reset operation changes only its own register, to 0x03/0x00, 0x04/0x00 or 0xB6 |
| `AccelProperties.ConfigureInt1PinSucceeds` | src/acc.rs:171-210 | with all three transfers succeeding, 0x53 holds the fresh IO byte, 0x58 has only bit 2 updated, and nothing else changes |
| `AccelProperties.ConfigureInt1PinFailFast` | src/acc.rs:196-209 | a failed IO write issues nothing more and changes nothing; a failed map read leaves 0x58 unwritten |
| `AccelProperties.ConfigureInt2PinSucceeds` | src/acc.rs:212-251 | with all three transfers succeeding, 0x53 holds the fresh IO byte, 0x58 has only bit 6 updated, and nothing else changes |
| `AccelProperties.ConfigureInt2PinFailFast` | src/acc.rs:237-250 | a failed IO write issues nothing more and changes nothing; a failed map read leaves 0x58 unwritten |
| `AccelProperties.PinsShareIoConf` | src/acc.rs:14-15 | because both pins' IO constants are 0x53, configuring pin 2 after pin 1 leaves pin 2's IO byte there, while both map bits are kept as asked |
| `Gyro.RangeFromCode` | src/gyro.rs:52-59 | a variant is found exactly for the unmasked bytes 0 to 4, and it is the variant with that code |
| `Gyro.BandwidthBits` | src/gyro.rs:71 | the masked byte is below 0x80 and differs from the raw byte at most in bit 7 |
| `Gyro.BandwidthFromCode` | src/gyro.rs:71-82 | a variant is found exactly for masked codes 0 to 7, and it is the variant with that code |
| `Gyro.CodesRoundTrip` | src/gyro.rs:43-83 | every range and bandwidth is decoded from the code its setter writes |
| `Gyro.BandwidthIgnoresBit7` | src/gyro.rs:71-72 | a raw byte with or without bit 7 decodes alike, and 0x85 reads as 100 Hz with a 12 Hz filter |
| `Gyro.LowPowerByte` | src/gyro.rs:85-88 | the power byte is 0x00 exactly when switching on, and only bit 7 can be set |
| `Gyro.Int3IoConf` | src/gyro.rs:110-120 | pin 3's IO byte has bit 1 set exactly for open drain and bit 0 exactly for active high, and bits 2-7 are kept |
| `Gyro.Int4IoConf` | src/gyro.rs:156-166 | pin 4's IO byte has bit 3 set exactly for open drain and bit 2 exactly for active high, and the other bits are kept |
| `Gyro.Int3Map` | src/gyro.rs:130-134 | pin 3's map byte has bit 0 set exactly when the interrupt is mapped, and every other bit is kept |
| `Gyro.Int4Map` | src/gyro.rs:176-180 | pin 4's map byte has bit 7 set exactly when the interrupt is mapped, and every other bit is kept |
| `Gyro.IoConfPinsIndependent` | src/gyro.rs:110-166 | one pin's IO update never changes the other pin's two bits, and the two updates commute |
| `Gyro.MapPinsIndependent` | src/gyro.rs:130-180 | one pin's map update never changes the other pin's bit, and the two updates commute |
| `Gyro.ConfigureInt3PinPlan` | src/gyro.rs:94-138 | 0x80 written to GYRO_INT_CTRL, then read-modify-writes of 0x16 (bit 1 iff open drain, bit 0 iff active high, bits 2-7 as read) and of 0x18 (bit 0 iff mapped, bits 1-7 as read) |
| `Gyro.ConfigureInt4PinPlan` | src/gyro.rs:140-184 | 0x80 written to GYRO_INT_CTRL, then read-modify-writes of 0x16 (bit 3 iff open drain, bit 2 iff active high, the other bits as read) and of 0x18 (bit 7 iff mapped, bits 0-6 as read) |
| `Gyro.Bmi088Gyroscope.constructor` | src/lib.rs:115-122 | `new` keeps the bus and the address, and the cache starts at 2000 Hz / 532 Hz and 2000 deg/s |
| `Gyro.Bmi088Gyroscope.ReadChipId` | src/gyro.rs:16-21 | one write_read of register 0x00, returning its byte |
| `Gyro.Bmi088Gyroscope.ReadData` | src/gyro.rs:23-34 | one six-byte write_read from register 0x02, returning the three axes decoded from registers 0x02 to 0x07 |
| `Gyro.Bmi088Gyroscope.DataReadyInterrupt` | src/gyro.rs:36-41 | one write_read of register 0x0A, returning bit 7 |
| `Gyro.Bmi088Gyroscope.SetRange` | src/gyro.rs:43-46 | one write of the range code to 0x0F |
| `Gyro.Bmi088Gyroscope.GetRange` | src/gyro.rs:48-60 | one read of 0x0F decoded unmasked; the cached range is not touched |
| `Gyro.Bmi088Gyroscope.SetBandwidth` | src/gyro.rs:62-65 | one write of the bandwidth code to 0x10 |
| `Gyro.Bmi088Gyroscope.GetBandwidth` | src/gyro.rs:67-83 | one read of 0x10 decoded after masking bit 7 off; the cached bandwidth is not touched |
| `Gyro.Bmi088Gyroscope.SetOn` | src/gyro.rs:85-88 | one write of 0x00 (on) or 0x80 to 0x11 |
| `Gyro.Bmi088Gyroscope.Reset` | src/gyro.rs:90-92 | one write of 0xB6 to 0x14 |
| `Gyro.Bmi088Gyroscope.ConfigureInt3Pin` | src/gyro.rs:94-138 | the bus ends as the five-transfer plan leaves it: 0x80 to 0x15, then read-modify-writes of 0x16 and 0x18, stopping at the first failure |
| `Gyro.Bmi088Gyroscope.ConfigureInt4Pin` | src/gyro.rs:140-184 | the same five-transfer plan with pin 4's bits |
| `GyroProperties.ConfigureInt3PinSucceeds` | src/gyro.rs:94-138 | with all five transfers succeeding, 0x15 holds 0x80, 0x16 and 0x18 hold pin 3's updates, and nothing else changes |
| `GyroProperties.ConfigureInt4PinSucceeds` | src/gyro.rs:140-184 | with all five transfers succeeding, 0x15 holds 0x80, 0x16 and 0x18 hold pin 4's updates, and nothing else changes |
| `GyroProperties.ConfigureInt3PinFailFast` | src/gyro.rs:103-137 | when the k-th transfer fails first, k+1 transfers are traced; a failed 0x15 write leaves 0x16 and 0x18 untouched, and a failed read skips its write-back |
| `GyroProperties.ConfigureInt4PinFailFast` | src/gyro.rs:149-183 | the same fail-fast behaviour for pin 4 |
| `GyroProperties.Pin4KeepsPin3` | src/gyro.rs:94-184 | configuring pin 4 after pin 3 keeps pin 3's three bits and sets pin 4's as asked |
| `GyroProperties.SetBandwidthReadsBack` | src/gyro.rs:62-83 | after `set_bandwidth`, `get_bandwidth` decodes the same variant, with or without bit 7 set |
| `GyroProperties.SetRangeReadsBack` | src/gyro.rs:43-60 | after `set_range`, `get_range` decodes the same variant |
| `GyroProperties.PowerAndResetWrites` | src/gyro.rs:85-92 | `set_on` and `reset` each change only their own register |
| `GyroProperties.PowerPolarityInverted` | src/gyro.rs:85-88 | the gyroscope is switched on by 0x00, the accelerometer by a non-zero byte |

## Left out

- The `embedded_hal` I2C trait, clocking and acknowledge handling are not modelled. The bus is a passive register file with a script of outcomes, and the transport's error is an opaque `BusError` passed through unchanged.
- Bus addressing is not modelled. The device address is recorded in every traced transfer, and each sub-device is modelled with its own register file.
- The sensor's own reactions are not modelled, because they are not in the driver: a soft reset clears nothing, the data and status registers never change by themselves, and bit 7 of the gyroscope's bandwidth register is not forced to 1.
- Conversion to physical units is not modelled; the driver has none.
- Concurrency between the read and the write of a read-modify-write is not modelled. The driver is strictly sequential.
- The generic `I2C` parameter and the derive and crate attributes are not modelled.
- The `unreachable!()` panics are not modelled as panics. They become the `Unreachable(raw)` result, which carries the byte the `match` inspected (masked where the code masks it) that matched no variant, so that every input stays in the model.
- `Transport.ReadModifyWrite`: the in-place `&=` and `|=` steps on the buffer are given to it as one update function. For each register, that function's body is the source's sequence of steps. This covers `Accel.WithBandwidth`, `Accel.WithDataRate`, `Accel.Int1Map`, `Accel.Int2Map`, `Gyro.Int3IoConf`, `Gyro.Int4IoConf`, `Gyro.Int3Map` and `Gyro.Int4Map`. The accelerometer's fresh IO byte is built in place step by step by `Accel.ComposeIoConf`.

The model follows three details of the code as written:

- The bandwidth field of ACC_CONFIG is bits 4-6: the code clears it with the mask 0x8F and reads it with 0x70.
- INT2_IO_CONF has the same value (0x53) as INT1_IO_CONF, so configuring pin 2 overwrites pin 1's IO byte. `AccelProperties.PinsShareIoConf` proves this.
- `read_temperature` makes the byte read from 0x23 the high byte, although the constant for 0x22 is named TEMP_MSB.
