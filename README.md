# FXOS8700 accelerometer/magnetometer driver, modelled in Dafny

This project models the core of the `nxp_imu` FXOS8700 driver, which has two parts.

- **Construction.** The driver reads WHO_AM_I and refuses any chip that does not answer `0xC7`. It then writes CTRL_REG1 = 0 (standby). It selects the accelerometer range: XYZ_DATA_CFG = 0, 1 or 2 for 2G (or no range given), 4G and 8G, and it stores the matching scale. Next it writes CTRL_REG2 = 0x02 (high resolution), MCTRL_REG1 = 0x00 and CTRL_REG1 = 0x05 (active). Any other range fails after the standby write.
- **Decoding.** `get` reads 12 bytes in one burst from OUT_X_MSB. It decodes them as six big-endian signed 16-bit words. The three acceleration words are shifted right by 2 (floor division by 4, so the sign is kept) and multiplied by the range's scale. The three magnetometer words are multiplied by 0.1 µT. `temperature` reads one byte as a signed 8-bit value.

Files and modules:

- `wrappers.dfy` (`Wrappers`): `Option` and `Result`.
- `bytes.dfy` (`Bytes`): the `Byte` type and `Pow2`.
- `registers.dfy` (`Registers`): the register map, the identity byte, and the range codes and scales. `AccelRange` is the range setting and `ParseRange` interprets the constructor's `gs` argument.
- `twos_complement.dfy` (`TwosComplement`): 8- and 16-bit two's-complement decoding and its inverse. It also holds Python's `>> 2`, with a bit-level arithmetic shift and logical shift to compare against. The reference definition `TwosComp` follows the commented-out `twos_comp` helper.
- `decoding.dfy` (`Decoding`): `struct.unpack('>hhhhhh')`, the counts of a sample, and the scaled reading.
- `register_bus.dfy` (`RegisterBus`): the bus handle as a class. It holds read oracles and a write log. `Apply` gives the register contents a sequence of writes leaves behind.
- `fxos8700.dfy` (`Fxos8700`): the `Driver` class (constructor, `Init`, `Temperature`, `Get`), `Open` for the whole constructor call, and the lemmas about the configuration sequence.

Modelling choices:

- Scales are exact `real`s. `0.000244` is exactly 244 micro-g, and `MicroGPerCount` gives the integer 244/488/976 (that is, 122 × full scale).
- Python's `__init__` raises an exception when it fails. Here it is split in two. The `Driver` constructor opens the handle (`I2C.__init__`) and leaves `scale` unset. `Driver.Init` runs the identity check and configuration, and returns a `Result`. `Open` chains the two.
- The range argument `gs` is `Option<int>`, where `None` is Python's `None` and selects 2G, as `ParseRange` states.
- A read returns whatever the bus oracle gives for the writes issued so far. A burst read may return any number of bytes.
- `get` is specified for any driver state. If `scale` is unset, Python's multiplication `(x >> 2) * None` raises. The model reports this as `ScaleUnset`, checked after the unpacking, in the same order as the code.

Behaviour worth knowing:

- An unsupported range is rejected only after the standby write `CTRL_REG1 = 0`. That is exactly one write, and the chip is left in standby (`InvalidRangeOnlyStandby`).
- The identity error in the code carries only the device address (`nxp_imu/FXOS8700.py:68`). As a deliberate extension, the model's `WrongDevice` also carries the byte that was read.

## Model

| member | source | states |
|---|---|---|
| Registers.AccelRange.Code | nxp_imu/FXOS8700.py:39-41 | the range code is a 2-bit value, and each step up doubles the full scale: 2G→0, 4G→1, 8G→2 |
| Registers.AccelRange.MicroGPerCount | nxp_imu/FXOS8700.py:43-45 | the scale in micro-g per count is 122 × the full scale, and 244 × 2^code, so the 4G and 8G scales are 2× and 4× the 2G scale |
| Registers.AccelRange.GPerCount | nxp_imu/FXOS8700.py:43-45 | the stored scale is positive and equals the micro-g count divided by 10^6 |
| Registers.AccelRange.FullScale | nxp_imu/FXOS8700.py:75-85 | the magnitudes that gs is compared with are 2, 4 and 8 g |
| Registers.ParseRange | nxp_imu/FXOS8700.py:75-88 | a range is selected exactly when gs is None, 2, 4 or 8; the selected range's magnitude is gs; None selects 2G |
| Registers.ParseFullScale | nxp_imu/FXOS8700.py:75-85 | asking for a range by its own magnitude selects that range |
| TwosComplement.TwosComp | nxp_imu/FXOS8700.py:49-53 | the reference two's-complement reading: it keeps the low `bits` bits of the value (the difference is a multiple of 2^bits) and never increases it |
| TwosComplement.TwosCompBySignBit | nxp_imu/FXOS8700.py:49-53 | for an in-range value, testing the sign bit is the same as comparing with 2^(bits-1) |
| TwosComplement.Int8 | nxp_imu/FXOS8700.py:117-121 | the temperature byte decodes into -128..127, keeps the same 8-bit pattern, and is negative iff the byte is at least 128 |
| TwosComplement.Int8IsTwosComp | nxp_imu/FXOS8700.py:121 | the signed-byte decoding agrees with the twos_comp reference at 8 bits |
| TwosComplement.Signed16 | nxp_imu/FXOS8700.py:130 | a 16-bit pattern reads as a value in -32768..32767 with the same pattern, negative iff the pattern is at least 32768 |
| TwosComplement.Word16 | nxp_imu/FXOS8700.py:130 | a big-endian field decodes into -32768..32767, keeps the 16-bit pattern hi·256+lo, and is negative iff hi is at least 128 |
| TwosComplement.Word16IsTwosComp | nxp_imu/FXOS8700.py:130 | the 16-bit decoding agrees with the twos_comp reference at 16 bits |
| TwosComplement.Unsigned16 | nxp_imu/FXOS8700.py:130 | every signed 16-bit value has a 16-bit pattern that decodes back to it |
| TwosComplement.Word16OfEncode16 | nxp_imu/FXOS8700.py:130 | encoding a signed 16-bit value big-endian and then decoding it gives the value back |
| TwosComplement.Encode16OfWord16 | nxp_imu/FXOS8700.py:130 | decoding two bytes and then encoding the result gives the same two bytes |
| TwosComplement.ShiftRight2 | nxp_imu/FXOS8700.py:133 | `v >> 2` is the floor of v/4: 4r <= v < 4r+4 |
| TwosComplement.ShiftRight2Int16 | nxp_imu/FXOS8700.py:133 | a shifted 16-bit value lies in -8192..8191, is negative iff v is, and is zero iff 0 <= v < 4 |
| TwosComplement.ArithmeticShiftIsFloor | nxp_imu/FXOS8700.py:133 | the shift equals the sign-filling arithmetic shift of the 16-bit pattern |
| TwosComplement.LogicalShiftLosesSign | nxp_imu/FXOS8700.py:133 | a logical shift would turn every negative reading non-negative, unlike the shift the driver uses |
| Decoding.Words | nxp_imu/FXOS8700.py:130 | an even-length buffer gives one word per byte pair, word i made from bytes 2i and 2i+1 |
| Decoding.WordsOfEncodeWords | nxp_imu/FXOS8700.py:130 | decoding the big-endian encoding of 16-bit words gives the words back |
| Decoding.EncodeWordsOfWords | nxp_imu/FXOS8700.py:130 | encoding the decoded words of an even-length buffer gives the buffer back |
| Decoding.Unpack6 | nxp_imu/FXOS8700.py:127-130 | unpacking succeeds iff the buffer has exactly 12 bytes; it gives six signed words built from consecutive byte pairs, and otherwise an error carrying the length |
| Decoding.DecodeCounts | nxp_imu/FXOS8700.py:132-136 | the accel counts are words 0-2 (bytes 0-5) shifted right by 2, and the mag counts are words 3-5 (bytes 6-11) unshifted, in X, Y, Z order; any other length fails |
| Decoding.Scale | nxp_imu/FXOS8700.py:133-136 | each acceleration in g is the count times the range's micro-g per count divided by 10^6; each field value times 10 is its count (0.1 µT per count) |
| Decoding.DecodeReading | nxp_imu/FXOS8700.py:127-138 | the reading succeeds iff there are 12 bytes and a stored scale; a wrong length fails first, then a missing scale; the result is the counts times the range scale and times 0.1 µT |
| Decoding.CountsBounds | nxp_imu/FXOS8700.py:130-136 | the accel counts lie in -8192..8191 and the mag counts in -32768..32767 |
| Decoding.DecodeCountsOfEncoded | nxp_imu/FXOS8700.py:127-136 | encoding six 16-bit values as a burst and decoding it gives the shifted accel values and the unshifted mag values |
| Decoding.AccelSignFollowsRaw | nxp_imu/FXOS8700.py:133 | each scaled acceleration is negative exactly when its raw word is negative |
| Decoding.AccelWithinFullScale | nxp_imu/FXOS8700.py:133 | each scaled acceleration lies strictly inside ±(full scale) g for the selected range |
| Decoding.ExampleReading | nxp_imu/FXOS8700.py:127-138 | the raw words 0x0190, 0xFE70 and 0 at 2G give 0.0244, -0.0244 and 0 g, and the mag word 0x03E8 gives 100 µT |
| Decoding.ShortReadFails | nxp_imu/FXOS8700.py:127-130 | a burst read of fewer than 12 bytes gives an unpack error, never a partial reading |
| RegisterBus.Bus.Write8 | nxp_imu/FXOS8700.py:71 | a register write appends exactly one (register, value) entry to the log |
| Fxos8700.ConfigWrites | nxp_imu/FXOS8700.py:67-97 | the writes of construction: none iff the identity byte is wrong; otherwise standby comes first; there are five writes, the last being CTRL_REG1 = 0x05, iff the range is supported; only CTRL_REG1, XYZ_DATA_CFG, CTRL_REG2 and MCTRL_REG1 are written |
| Fxos8700.ConfigResult | nxp_imu/FXOS8700.py:67-88 | construction succeeds iff the identity byte is 0xC7 and the range is supported; a wrong identity byte gives WrongDevice at 0x1E, and otherwise an unsupported range gives InvalidRange(gs) |
| Fxos8700.ConfigSucceedsIff | nxp_imu/FXOS8700.py:67-88 | construction succeeds iff WHO_AM_I reads 0xC7 and gs is None, 2, 4 or 8 |
| Fxos8700.WrongDeviceWritesNothing | nxp_imu/FXOS8700.py:67-68 | if the identity byte is not 0xC7, there are no writes and the error names address 0x1E |
| Fxos8700.InvalidRangeOnlyStandby | nxp_imu/FXOS8700.py:71-88 | an unsupported gs fails with InvalidRange after exactly the one write (0x2A, 0); there is no range write, and CTRL_REG1 is left in standby |
| Fxos8700.ConfigSequence | nxp_imu/FXOS8700.py:71-97 | for gs in {None, 2, 4, 8} the writes are exactly (0x2A,0), (0x0E,code), (0x2B,0x02), (0x5B,0), (0x2A,0x05), with code 0 for None and 2, 1 for 4, and 2 for 8 |
| Fxos8700.RangeWrittenInStandby | nxp_imu/FXOS8700.py:70-76 | whenever XYZ_DATA_CFG is written, the ACTIVE bit of CTRL_REG1 is clear |
| Fxos8700.ConfiguredChip | nxp_imu/FXOS8700.py:71-97 | after a successful configuration, CTRL_REG1 = 0x05 (active), CTRL_REG2 = 0x02, MCTRL_REG1 = 0, and XYZ_DATA_CFG holds the selected range code, whatever the registers held before |
| Fxos8700.ConfigKeepsScaleConsistent | nxp_imu/FXOS8700.py:75-85 | after a construction attempt, a stored scale is always the range held in the chip's range register |
| Fxos8700.ConfigKeepsDriverValid | nxp_imu/FXOS8700.py:71-88 | appending the configuration writes to any log keeps the stored scale equal to the range register's content |
| RegisterBus.Apply | nxp_imu/FXOS8700.py:71-97 | the register contents left by a write sequence keep every register already present and contain every register written |
| Fxos8700.Driver.constructor | nxp_imu/FXOS8700.py:57-66 | opening the handle at address 0x1E issues no writes and leaves the scale unset |
| Fxos8700.Driver.Init | nxp_imu/FXOS8700.py:67-97 | the outcome and the appended writes are those of the identity check and configuration, given the WHO_AM_I byte read first; the scale becomes the parsed range on success and is unchanged on failure; the scale/register consistency is kept |
| Fxos8700.Driver.Temperature | nxp_imu/FXOS8700.py:112-121 | the result is register 0x51 read as a signed byte, in -128..127 |
| Fxos8700.Driver.Get | nxp_imu/FXOS8700.py:123-138 | the result is the decoding of the 12-byte burst read from 0x01 with the stored scale; it succeeds iff the read returned exactly 12 bytes and a scale is stored |
| Fxos8700.Open | nxp_imu/FXOS8700.py:59-97 | constructing the driver gives a fresh handle at address 0x1E on the given bus oracles, whose write log is exactly the configuration writes for the WHO_AM_I byte; the scale is set only on success |
| Fxos8700.ExampleTemperatures | nxp_imu/FXOS8700.py:117-121 | the byte 0xFF reads as -1 °C and 0x19 as 25 °C |

## Left out

- The I2C transport (`read8`, `write8`, `read_block`, opening the numbered bus). `nxp_imu/I2C.py` is not part of this model. It is reduced to read oracles and a write log, and the `bus` number argument is replaced by the oracles.
- Transport failures. Bus errors raised by `read8`, `write8` or `read_block` are not modelled, because the transport code is not available. Every write succeeds, and a burst read may return any length.
- Floating-point arithmetic. Scales and readings are exact reals, so IEEE rounding of `x * 0.000244` is not captured.
- Non-integer `gs` values. Python would accept something like `2.0` because `2.0 == 2`; the model covers only integers and `None`.
- The `verbose` printing block (lines 99-107), including its call to `temperature`. It is output only.
- `__del__` and the closing of the bus handle (lines 109-110). It is resource cleanup with no logic.
- Time-varying sensor data. Repeated reads see the same oracle for the same write log, so a changing measurement is not modelled.
- Hardware meaning that the code does not check. The model does not say whether the magnetometer outputs are meaningful after MCTRL_REG1 = 0. It does not say which chip registers the 12 bytes from 0x01 cover; they are decoded as the code decodes them. The comment on line 124 about 13 bytes is not followed.
