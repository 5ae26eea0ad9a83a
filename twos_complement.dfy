/** Two's-complement reinterpretation of 8- and 16-bit patterns, and the arithmetic right shift. */
module TwosComplement {
  import opened Bytes

  predicate IsInt16(v: int) {
    -32768 <= v < 32768
  }

  /**
   * Reference definition: a `bits`-wide pattern whose sign bit is set stands for
   * the pattern minus 2^bits (the driver's commented-out `twos_comp` helper).
   */
  function TwosComp(val: int, bits: nat): (t: int)
    requires bits >= 1
    ensures (val - t) % Pow2(bits) == 0
    ensures t <= val
  {
    if (val / Pow2(bits - 1)) % 2 != 0 then val - Pow2(bits) else val
  }

  lemma DivIsOne(val: int, h: int)
    requires 0 < h <= val < 2 * h
    ensures val / h == 1
  {
    assert (val - h) / h == 0;
  }

  /** For a pattern that fits in `bits` bits, the sign-bit test is a comparison with 2^(bits-1). */
  lemma TwosCompBySignBit(val: int, bits: nat)
    requires bits >= 1 && 0 <= val < Pow2(bits)
    ensures TwosComp(val, bits) == if val < Pow2(bits - 1) then val else val - Pow2(bits)
  {
    var h := Pow2(bits - 1);
    assert Pow2(bits) == 2 * h;
    if val < h {
      assert val / h == 0;
    } else {
      DivIsOne(val, h);
    }
  }

  /** `struct.unpack('b', ...)`: one byte read as a signed 8-bit integer. */
  function Int8(b: Byte): (t: int)
    ensures -128 <= t < 128
    ensures (t + 256) % 256 == b
    ensures t < 0 <==> b >= 128
  {
    if b < 128 then b else b - 256
  }

  lemma Int8IsTwosComp(b: Byte)
    ensures Int8(b) == TwosComp(b, 8)
  {
  }

  /** A 16-bit pattern read as a signed integer. */
  function Signed16(u: nat): (v: int)
    requires u < 65536
    ensures IsInt16(v)
    ensures (v + 65536) % 65536 == u
    ensures v < 0 <==> u >= 32768
  {
    if u < 32768 then u else u - 65536
  }

  /** The 16-bit pattern of a signed integer. */
  function Unsigned16(v: int): (u: nat)
    requires IsInt16(v)
    ensures u < 65536
    ensures Signed16(u) == v
  {
    if v < 0 then v + 65536 else v
  }

  lemma Unsigned16Signed16(u: nat)
    requires u < 65536
    ensures Unsigned16(Signed16(u)) == u
  {
  }

  /** One big-endian signed 16-bit field (`'>h'`): high byte first. */
  function Word16(hi: Byte, lo: Byte): (v: int)
    ensures IsInt16(v)
    ensures v < 0 <==> hi >= 128
    ensures (v + 65536) % 65536 == hi * 256 + lo
  {
    Signed16(hi * 256 + lo)
  }

  lemma Word16IsTwosComp(hi: Byte, lo: Byte)
    ensures Word16(hi, lo) == TwosComp(hi * 256 + lo, 16)
  {
    assert Pow2(15) == 32768 && Pow2(16) == 65536;
    TwosCompBySignBit(hi * 256 + lo, 16);
  }

  /** The two bytes, high first, that encode a signed 16-bit value big-endian. */
  function Encode16(v: int): (bytes: (Byte, Byte))
    requires IsInt16(v)
  {
    var u := Unsigned16(v);
    (u / 256, u % 256)
  }

  lemma Word16OfEncode16(v: int)
    requires IsInt16(v)
    ensures Word16(Encode16(v).0, Encode16(v).1) == v
  {
  }

  lemma Encode16OfWord16(hi: Byte, lo: Byte)
    ensures Encode16(Word16(hi, lo)) == (hi, lo)
  {
  }

  /** Python's `v >> 2` on an integer: floor division by 4, so the sign is kept. */
  function ShiftRight2(v: int): (r: int)
    ensures 4 * r <= v < 4 * r + 4
  {
    v / 4
  }

  /** A 16-bit value shifted right by 2 keeps its sign and fits in 14 bits. */
  lemma ShiftRight2Int16(v: int)
    requires IsInt16(v)
    ensures -8192 <= ShiftRight2(v) < 8192
    ensures ShiftRight2(v) < 0 <==> v < 0
    ensures ShiftRight2(v) == 0 <==> 0 <= v < 4
  {
  }

  /** Bit-level arithmetic shift of a 16-bit pattern: the two vacated high bits copy the sign bit. */
  function ArithmeticShift16(u: nat): (s: nat)
    requires u < 65536
    ensures s < 65536
  {
    u / 4 + (if u >= 0x8000 then 0xC000 else 0)
  }

  /** Bit-level logical shift of a 16-bit pattern: the vacated high bits are zero. */
  function LogicalShift16(u: nat): (s: nat)
    requires u < 65536
    ensures s < 16384
  {
    u / 4
  }

  /** The driver's shift on Python integers is the arithmetic shift of the 16-bit pattern. */
  lemma ArithmeticShiftIsFloor(v: int)
    requires IsInt16(v)
    ensures Signed16(ArithmeticShift16(Unsigned16(v))) == ShiftRight2(v)
  {
  }

  /** A logical shift would lose the sign of every negative reading. */
  lemma LogicalShiftLosesSign(v: int)
    requires -32768 <= v < 0
    ensures Signed16(LogicalShift16(Unsigned16(v))) >= 0 > ShiftRight2(v)
  {
  }
}
