/** The FXOS8700 register map, the identity byte and the accelerometer ranges with their scales. */
module Registers {
  import opened Wrappers
  import opened Bytes

  /** The chip's 7-bit bus address and the value its WHO_AM_I register must hold. */
  const FXOS8700_ADDRESS: Byte := 0x1E
  const FXOS8700_ID: Byte := 0xC7

  const STATUS: Byte := 0x00
  const OUT_X_MSB: Byte := 0x01
  const OUT_X_LSB: Byte := 0x02
  const OUT_Y_MSB: Byte := 0x03
  const OUT_Y_LSB: Byte := 0x04
  const OUT_Z_MSB: Byte := 0x05
  const OUT_Z_LSB: Byte := 0x06
  const WHO_AM_I: Byte := 0x0D
  const XYZ_DATA_CFG: Byte := 0x0E
  const CTRL_REG1: Byte := 0x2A
  const CTRL_REG2: Byte := 0x2B
  const CTRL_REG3: Byte := 0x2C
  const CTRL_REG4: Byte := 0x2D
  const CTRL_REG5: Byte := 0x2E
  const MSTATUS: Byte := 0x32
  const MOUT_X_MSB: Byte := 0x33
  const MOUT_X_LSB: Byte := 0x34
  const MOUT_Y_MSB: Byte := 0x35
  const MOUT_Y_LSB: Byte := 0x36
  const MOUT_Z_MSB: Byte := 0x37
  const MOUT_Z_LSB: Byte := 0x38
  const TEMPERATURE: Byte := 0x51
  const MCTRL_REG1: Byte := 0x5B
  const MCTRL_REG2: Byte := 0x5C
  const MCTRL_REG3: Byte := 0x5D

  /** Full-scale range codes written to XYZ_DATA_CFG. */
  const ACCEL_RANGE_2G: Byte := 0x00
  const ACCEL_RANGE_4G: Byte := 0x01
  const ACCEL_RANGE_8G: Byte := 0x02

  /** Acceleration scales in g per count, magnetic scale in microtesla per count. */
  const ACCEL_MG_LSB_2G: real := 0.000244
  const ACCEL_MG_LSB_4G: real := 0.000488
  const ACCEL_MG_LSB_8G: real := 0.000976
  const MAG_UT_LSB: real := 0.1

  /** The three accelerometer full-scale ranges the driver can select. */
  datatype AccelRange = Range2G | Range4G | Range8G {

    /** The full-scale magnitude in g. */
    function FullScale(): (g: nat)
      ensures g == 2 || g == 4 || g == 8
    {
      match this
      case Range2G => 2
      case Range4G => 4
      case Range8G => 8
    }

    /** The 2-bit code written to XYZ_DATA_CFG: each step up the code doubles the range. */
    function Code(): (c: Byte)
      ensures c < 4
      ensures FullScale() == 2 * Pow2(c)
    {
      match this
      case Range2G => ACCEL_RANGE_2G
      case Range4G => ACCEL_RANGE_4G
      case Range8G => ACCEL_RANGE_8G
    }

    /** The scale as an integer number of micro-g per count: proportional to the range. */
    function MicroGPerCount(): (m: nat)
      ensures m == 122 * FullScale()
      ensures m == 244 * Pow2(Code())
    {
      match this
      case Range2G => 244
      case Range4G => 488
      case Range8G => 976
    }

    /** The scale in g per count, the constant the driver stores. */
    function GPerCount(): (s: real)
      ensures s > 0.0
      ensures s == (MicroGPerCount() as real) / 1000000.0
    {
      match this
      case Range2G => ACCEL_MG_LSB_2G
      case Range4G => ACCEL_MG_LSB_4G
      case Range8G => ACCEL_MG_LSB_8G
    }
  }

  /** The range selected by the constructor's `gs` argument; None means "use 2G". */
  function ParseRange(gs: Option<int>): (r: Option<AccelRange>)
    ensures r.Some? <==> gs == None || gs == Some(2) || gs == Some(4) || gs == Some(8)
    ensures r.Some? && gs.Some? ==> gs.value == r.value.FullScale()
    ensures gs == None ==> r == Some(Range2G)
  {
    if gs == Some(2) || gs == None then Some(Range2G)
    else if gs == Some(4) then Some(Range4G)
    else if gs == Some(8) then Some(Range8G)
    else None
  }

  /** Asking for a range by its own magnitude selects that range. */
  lemma ParseFullScale(range: AccelRange)
    ensures ParseRange(Some(range.FullScale())) == Some(range)
  {
  }
}
