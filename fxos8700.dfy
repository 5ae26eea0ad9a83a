/**
 * The FXOS8700 driver: construction checks the chip's identity and brings it
 * from standby into active mode with the requested accelerometer range; a
 * sample is one 12-byte burst read decoded to g and microtesla.
 */
module Fxos8700 {
  import opened Wrappers
  import opened Bytes
  import opened Registers
  import opened TwosComplement
  import opened Decoding
  import opened RegisterBus

  /** Why construction failed: the wrong chip answered, or the range is not 2, 4 or 8. */
  datatype InitError = WrongDevice(address: Byte, found: Byte) | InvalidRange(gs: Option<int>)

  /** CTRL_REG1 values: standby and active (ACTIVE = bit 0, plus the low-noise bit 2). */
  const STANDBY: Byte := 0x00
  const ACTIVE: Byte := 0x05
  /** CTRL_REG2 high-resolution oversampling, and MCTRL_REG1 cleared. */
  const HIGH_RESOLUTION: Byte := 0x02
  const MAG_CONTROL_CLEARED: Byte := 0x00

  /** Whether a CTRL_REG1 value has its ACTIVE bit set. */
  predicate IsActive(ctrlReg1: Byte) {
    ctrlReg1 % 2 == 1
  }

  /** The writes construction issues, given the WHO_AM_I byte it read and the requested range. */
  function ConfigWrites(found: Byte, gs: Option<int>): (w: seq<Write>)
    ensures w == [] <==> found != FXOS8700_ID
    ensures w != [] ==> w[0] == Write(CTRL_REG1, STANDBY)
    ensures |w| == 5 <==> found == FXOS8700_ID && ParseRange(gs).Some?
    ensures |w| == 5 ==> w[4] == Write(CTRL_REG1, ACTIVE)
    ensures |w| <= 5
    ensures forall i :: 0 <= i < |w| ==> w[i].reg == CTRL_REG1 || w[i].reg == XYZ_DATA_CFG || w[i].reg == CTRL_REG2 || w[i].reg == MCTRL_REG1
  {
    if found != FXOS8700_ID then []
    else match ParseRange(gs)
      case None => [Write(CTRL_REG1, STANDBY)]
      case Some(range) =>
        [Write(CTRL_REG1, STANDBY), Write(XYZ_DATA_CFG, range.Code()), Write(CTRL_REG2, HIGH_RESOLUTION),
         Write(MCTRL_REG1, MAG_CONTROL_CLEARED), Write(CTRL_REG1, ACTIVE)]
  }

  /** The outcome of construction, given the WHO_AM_I byte it read and the requested range. */
  function ConfigResult(found: Byte, gs: Option<int>): (r: Result<(), InitError>)
    ensures r.Success? <==> found == FXOS8700_ID && ParseRange(gs).Some?
    ensures found != FXOS8700_ID ==> r == Failure(WrongDevice(FXOS8700_ADDRESS, found))
    ensures found == FXOS8700_ID && r.Failure? ==> r.error == InvalidRange(gs)
  {
    if found != FXOS8700_ID then Failure(WrongDevice(FXOS8700_ADDRESS, found))
    else if ParseRange(gs).None? then Failure(InvalidRange(gs))
    else Success(())
  }

  /** The chip's range register holds the code of `range`. */
  predicate ScaleMatchesChip(regs: map<Byte, Byte>, range: AccelRange) {
    XYZ_DATA_CFG in regs && regs[XYZ_DATA_CFG] == range.Code()
  }

  /** Construction succeeds exactly for the right chip and a range of None, 2, 4 or 8. */
  lemma ConfigSucceedsIff(found: Byte, gs: Option<int>)
    ensures ConfigResult(found, gs).Success? <==>
      found == 0xC7 && (gs == None || gs == Some(2) || gs == Some(4) || gs == Some(8))
  {
  }

  /** A chip that does not identify as 0xC7 receives no write at all. */
  lemma WrongDeviceWritesNothing(found: Byte, gs: Option<int>)
    requires found != 0xC7
    ensures ConfigWrites(found, gs) == []
    ensures ConfigResult(found, gs) == Failure(WrongDevice(0x1E, found))
  {
  }

  /**
   * An unsupported range still puts the chip in standby first: exactly one write,
   * no range write, and the chip is left in standby.
   */
  lemma InvalidRangeOnlyStandby(gs: Option<int>, regs: map<Byte, Byte>)
    requires gs != None && gs != Some(2) && gs != Some(4) && gs != Some(8)
    ensures ConfigResult(0xC7, gs) == Failure(InvalidRange(gs))
    ensures ConfigWrites(0xC7, gs) == [Write(0x2A, 0x00)]
    ensures forall w :: w in ConfigWrites(0xC7, gs) ==> w.reg != XYZ_DATA_CFG
    ensures Apply(regs, ConfigWrites(0xC7, gs))[CTRL_REG1] == 0x00
    ensures !IsActive(Apply(regs, ConfigWrites(0xC7, gs))[CTRL_REG1])
  {
  }

  /** For a supported range, the exact five writes, with range code 0, 1 or 2. */
  lemma ConfigSequence(gs: Option<int>)
    requires gs == None || gs == Some(2) || gs == Some(4) || gs == Some(8)
    ensures var code := if gs == Some(4) then 1 else if gs == Some(8) then 2 else 0;
      ConfigWrites(0xC7, gs) ==
        [Write(0x2A, 0x00), Write(0x0E, code), Write(0x2B, 0x02), Write(0x5B, 0x00), Write(0x2A, 0x05)]
  {
  }

  /** The range register is only ever written while the chip is in standby. */
  lemma RangeWrittenInStandby(found: Byte, gs: Option<int>, regs: map<Byte, Byte>)
    ensures var w := ConfigWrites(found, gs);
      forall i :: 0 <= i < |w| && w[i].reg == XYZ_DATA_CFG ==>
        CTRL_REG1 in Apply(regs, w[..i]) && !IsActive(Apply(regs, w[..i])[CTRL_REG1])
  {
  }

  /**
   * After a successful construction the chip is active in high-resolution mode,
   * with the magnetometer control cleared and the selected range code, whatever
   * the registers held before.
   */
  lemma ConfiguredChip(gs: Option<int>, regs: map<Byte, Byte>)
    requires ParseRange(gs).Some?
    ensures var m := Apply(regs, ConfigWrites(FXOS8700_ID, gs));
      CTRL_REG1 in m && CTRL_REG2 in m && MCTRL_REG1 in m &&
      m[CTRL_REG1] == ACTIVE && IsActive(m[CTRL_REG1]) && m[CTRL_REG2] == HIGH_RESOLUTION &&
      m[MCTRL_REG1] == MAG_CONTROL_CLEARED && ScaleMatchesChip(m, ParseRange(gs).value)
  {
    var w, c := ConfigWrites(FXOS8700_ID, gs), ParseRange(gs).value.Code();
    var m1 := regs[CTRL_REG1 := STANDBY];
    var m2 := m1[XYZ_DATA_CFG := c];
    var m3 := m2[CTRL_REG2 := HIGH_RESOLUTION];
    var m4 := m3[MCTRL_REG1 := MAG_CONTROL_CLEARED];
    var m5 := m4[CTRL_REG1 := ACTIVE];
    assert w[1..] == [Write(XYZ_DATA_CFG, c), Write(CTRL_REG2, HIGH_RESOLUTION),
      Write(MCTRL_REG1, MAG_CONTROL_CLEARED), Write(CTRL_REG1, ACTIVE)];
    assert w[2..] == [Write(CTRL_REG2, HIGH_RESOLUTION), Write(MCTRL_REG1, MAG_CONTROL_CLEARED), Write(CTRL_REG1, ACTIVE)];
    assert w[3..] == [Write(MCTRL_REG1, MAG_CONTROL_CLEARED), Write(CTRL_REG1, ACTIVE)];
    assert w[4..] == [Write(CTRL_REG1, ACTIVE)];
    assert Apply(m4, w[4..]) == m5 by { assert w[4..][1..] == []; }
    assert Apply(m3, w[3..]) == m5 by { assert w[3..][1..] == w[4..]; }
    assert Apply(m2, w[2..]) == m5 by { assert w[2..][1..] == w[3..]; }
    assert Apply(m1, w[1..]) == m5 by { assert w[1..][1..] == w[2..]; }
  }

  /** Construction keeps the stored scale equal to the range the chip was last given. */
  lemma ConfigKeepsScaleConsistent(regs: map<Byte, Byte>, found: Byte, gs: Option<int>, scale: Option<AccelRange>)
    requires scale.Some? ==> ScaleMatchesChip(regs, scale.value)
    ensures var newScale := if ConfigResult(found, gs).Success? then ParseRange(gs) else scale;
      newScale.Some? ==> ScaleMatchesChip(Apply(regs, ConfigWrites(found, gs)), newScale.value)
  {
    var w := ConfigWrites(found, gs);
    if ConfigResult(found, gs).Success? {
      ConfiguredChip(gs, regs);
    } else if scale.Some? && found == FXOS8700_ID {
      ApplyUntouched(regs, w, XYZ_DATA_CFG);
    }
  }

  /** The driver invariant, stated over a whole write log, survives appending the configuration writes. */
  lemma ConfigKeepsDriverValid(log: seq<Write>, found: Byte, gs: Option<int>, scale: Option<AccelRange>)
    requires scale.Some? ==> ScaleMatchesChip(Apply(map[], log), scale.value)
    ensures var newScale := if ConfigResult(found, gs).Success? then ParseRange(gs) else scale;
      newScale.Some? ==> ScaleMatchesChip(Apply(map[], log + ConfigWrites(found, gs)), newScale.value)
  {
    ApplyAppend(map[], log, ConfigWrites(found, gs));
    ConfigKeepsScaleConsistent(Apply(map[], log), found, gs, scale);
  }

  class Driver {
    /** The bus handle, owned by the driver for its whole life. */
    const bus: Bus
    /** The accelerometer range whose scale `get` applies; unset until construction selects one. */
    var scale: Option<AccelRange>

    /** The stored scale, when set, is the range the chip's range register holds. */
    ghost predicate Valid()
      reads this, bus
    {
      scale.Some? ==> ScaleMatchesChip(Apply(map[], bus.log), scale.value)
    }

    /** Opens the bus handle at the chip's address; nothing is read or written yet. */
    constructor (read8: (seq<Write>, Byte) -> Byte, readBlock: (seq<Write>, Byte, nat) -> seq<Byte>)
      ensures fresh(bus) && Valid()
      ensures bus.address == FXOS8700_ADDRESS && bus.read8 == read8 && bus.readBlock == readBlock
      ensures bus.log == [] && scale == None
    {
      bus := new Bus(FXOS8700_ADDRESS, read8, readBlock);
      scale := None;
    }

    /** The identity check and configuration sequence of construction. */
    method Init(gs: Option<int>) returns (r: Result<(), InitError>)
      requires Valid()
      modifies this, bus
      ensures Valid()
      ensures r == ConfigResult(old(bus.Read8(WHO_AM_I)), gs)
      ensures bus.log == old(bus.log) + ConfigWrites(old(bus.Read8(WHO_AM_I)), gs)
      ensures scale == if r.Success? then ParseRange(gs) else old(scale)
    {
      ghost var log0, scale0 := bus.log, scale;
      var found := bus.Read8(WHO_AM_I);
      if found != FXOS8700_ID {
        assert bus.log == log0 + ConfigWrites(found, gs);
        ConfigKeepsDriverValid(log0, found, gs, scale0);
        return Failure(WrongDevice(FXOS8700_ADDRESS, found));
      }
      bus.Write8(CTRL_REG1, STANDBY);
      if gs == Some(2) || gs == None {
        bus.Write8(XYZ_DATA_CFG, ACCEL_RANGE_2G);
        scale := Some(Range2G);
      } else if gs == Some(4) {
        bus.Write8(XYZ_DATA_CFG, ACCEL_RANGE_4G);
        scale := Some(Range4G);
      } else if gs == Some(8) {
        bus.Write8(XYZ_DATA_CFG, ACCEL_RANGE_8G);
        scale := Some(Range8G);
      } else {
        assert bus.log == log0 + ConfigWrites(found, gs);
        ConfigKeepsDriverValid(log0, found, gs, scale0);
        return Failure(InvalidRange(gs));
      }
      bus.Write8(CTRL_REG2, HIGH_RESOLUTION);
      bus.Write8(MCTRL_REG1, MAG_CONTROL_CLEARED);
      bus.Write8(CTRL_REG1, ACTIVE);
      AppendFiveWrites(log0, Write(CTRL_REG1, STANDBY), Write(XYZ_DATA_CFG, scale.value.Code()),
        Write(CTRL_REG2, HIGH_RESOLUTION), Write(MCTRL_REG1, MAG_CONTROL_CLEARED), Write(CTRL_REG1, ACTIVE));
      ConfigKeepsDriverValid(log0, found, gs, scale0);
      r := Success(());
    }

    /** `temperature`: the TEMPERATURE register read as a signed byte, in degrees Celsius. */
    method Temperature() returns (t: int)
      ensures t == Int8(bus.Read8(TEMPERATURE))
      ensures -128 <= t <= 127
    {
      var raw := bus.Read8(TEMPERATURE);
      t := Int8(raw);
    }

    /** `get`: one 12-byte burst read from OUT_X_MSB, decoded and scaled. */
    method Get() returns (r: Result<Reading, GetError>)
      ensures r == DecodeReading(bus.ReadBlock(OUT_X_MSB, SAMPLE_BYTES), scale)
      ensures r.Success? <==> |bus.ReadBlock(OUT_X_MSB, SAMPLE_BYTES)| == SAMPLE_BYTES && scale.Some?
    {
      var data := bus.ReadBlock(OUT_X_MSB, SAMPLE_BYTES);
      var unpacked := Unpack6(data);
      if unpacked.Failure? {
        return Failure(unpacked.error);
      }
      if scale.None? {
        return Failure(ScaleUnset);
      }
      var w := unpacked.value;
      var counts := Counts(Vector3(ShiftRight2(w[0]), ShiftRight2(w[1]), ShiftRight2(w[2])), Vector3(w[3], w[4], w[5]));
      r := Success(Scale(counts, scale.value));
    }
  }

  /** `FXOS8700(gs)`: open the bus, then check the identity and configure the chip. */
  method Open(gs: Option<int>, read8: (seq<Write>, Byte) -> Byte, readBlock: (seq<Write>, Byte, nat) -> seq<Byte>)
    returns (d: Driver, r: Result<(), InitError>)
    ensures fresh(d) && fresh(d.bus) && d.Valid()
    ensures d.bus.address == FXOS8700_ADDRESS && d.bus.read8 == read8 && d.bus.readBlock == readBlock
    ensures r == ConfigResult(read8([], WHO_AM_I), gs)
    ensures d.bus.log == ConfigWrites(read8([], WHO_AM_I), gs)
    ensures d.scale == if r.Success? then ParseRange(gs) else None
  {
    d := new Driver(read8, readBlock);
    r := d.Init(gs);
  }

  /** A client: a chip that is found but given an unsupported range, then sampled over an empty bus. */
  method OpenInvalidRangeThenGet()
  {
    var d, r := Open(Some(3), (_, _) => 0xC7, (_, _, _) => []);
    assert r == Failure(InvalidRange(Some(3)));
    assert d.bus.log == [Write(CTRL_REG1, STANDBY)];
    var sample := d.Get();
    assert sample == Failure(UnpackError(0));
  }

  /** Temperature examples: 0xFF is -1 degree, 0x19 is 25 degrees. */
  lemma ExampleTemperatures()
    ensures Int8(0xFF) == -1 && Int8(0x19) == 25
  {
  }
}
