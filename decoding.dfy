/**
 * Decoding of the 12-byte burst read of `get`: six big-endian signed 16-bit
 * words, the first three accelerometer counts shifted right by 2, the last
 * three magnetometer counts used as they are, then scaled to g and microtesla.
 */
module Decoding {
  import opened Wrappers
  import opened Bytes
  import opened Registers
  import opened TwosComplement

  datatype Vector3<T> = Vector3(x: T, y: T, z: T)

  /** Integer counts of one sample, before scaling. */
  datatype Counts = Counts(accel: Vector3<int>, mag: Vector3<int>)

  /** A sample in physical units: acceleration in g, magnetic field in microtesla. */
  datatype Reading = Reading(accel: Vector3<real>, mag: Vector3<real>)

  /** `struct.unpack` rejects a buffer of the wrong length; `get` fails without a stored scale. */
  datatype GetError = UnpackError(length: nat) | ScaleUnset

  /** The burst-read length of `get` and the number of words it unpacks. */
  const SAMPLE_BYTES: nat := 12
  const SAMPLE_WORDS: nat := 6

  predicate AllInt16(ws: seq<int>) {
    forall i :: 0 <= i < |ws| ==> IsInt16(ws[i])
  }

  /** An even-length buffer as consecutive big-endian signed 16-bit words. */
  function Words(data: seq<Byte>): (ws: seq<int>)
    requires |data| % 2 == 0
    ensures |ws| == |data| / 2
    ensures forall i :: 0 <= i < |ws| ==> ws[i] == Word16(data[2 * i], data[2 * i + 1])
  {
    if data == [] then [] else [Word16(data[0], data[1])] + Words(data[2..])
  }

  /** The big-endian byte encoding of a sequence of signed 16-bit words. */
  function EncodeWords(ws: seq<int>): (data: seq<Byte>)
    requires AllInt16(ws)
    ensures |data| == 2 * |ws|
  {
    if ws == [] then [] else [Encode16(ws[0]).0, Encode16(ws[0]).1] + EncodeWords(ws[1..])
  }

  lemma {:induction false} WordsOfEncodeWords(ws: seq<int>)
    requires AllInt16(ws)
    ensures Words(EncodeWords(ws)) == ws
  {
    if ws != [] {
      var data := EncodeWords(ws);
      assert data[2..] == EncodeWords(ws[1..]);
      WordsOfEncodeWords(ws[1..]);
      Word16OfEncode16(ws[0]);
    }
  }

  lemma {:induction false} EncodeWordsOfWords(data: seq<Byte>)
    requires |data| % 2 == 0
    ensures AllInt16(Words(data)) && EncodeWords(Words(data)) == data
  {
    if data != [] {
      var ws := Words(data);
      assert ws[1..] == Words(data[2..]);
      EncodeWordsOfWords(data[2..]);
      Encode16OfWord16(data[0], data[1]);
      assert data == [data[0], data[1]] + data[2..];
    }
  }

  /** `struct.unpack('>hhhhhh', data)`: exactly twelve bytes or an error. */
  function Unpack6(data: seq<Byte>): (r: Result<seq<int>, GetError>)
    ensures r.Success? <==> |data| == SAMPLE_BYTES
    ensures r.Failure? ==> r.error == UnpackError(|data|)
    ensures r.Success? ==> |r.value| == SAMPLE_WORDS && AllInt16(r.value)
    ensures r.Success? ==> forall i :: 0 <= i < SAMPLE_WORDS ==> r.value[i] == Word16(data[2 * i], data[2 * i + 1])
  {
    if |data| == SAMPLE_BYTES then Success(Words(data)) else Failure(UnpackError(|data|))
  }

  /** The counts of one sample: accelerometer words shifted, magnetometer words unshifted. */
  function DecodeCounts(data: seq<Byte>): (r: Result<Counts, GetError>)
    ensures r.Success? <==> |data| == SAMPLE_BYTES
    ensures r.Failure? ==> r.error == UnpackError(|data|)
    ensures r.Success? ==> r.value.accel == Vector3(
      ShiftRight2(Word16(data[0], data[1])),
      ShiftRight2(Word16(data[2], data[3])),
      ShiftRight2(Word16(data[4], data[5])))
    ensures r.Success? ==> r.value.mag == Vector3(
      Word16(data[6], data[7]),
      Word16(data[8], data[9]),
      Word16(data[10], data[11]))
  {
    match Unpack6(data)
    case Failure(e) => Failure(e)
    case Success(w) =>
      Success(Counts(
        Vector3(ShiftRight2(w[0]), ShiftRight2(w[1]), ShiftRight2(w[2])),
        Vector3(w[3], w[4], w[5])))
  }

  /** Counts in physical units for the given range. */
  function Scale(c: Counts, range: AccelRange): (r: Reading)
    ensures r.accel.x == ((c.accel.x * range.MicroGPerCount()) as real) / 1000000.0
    ensures r.accel.y == ((c.accel.y * range.MicroGPerCount()) as real) / 1000000.0
    ensures r.accel.z == ((c.accel.z * range.MicroGPerCount()) as real) / 1000000.0
    ensures r.mag.x * 10.0 == c.mag.x as real && r.mag.y * 10.0 == c.mag.y as real && r.mag.z * 10.0 == c.mag.z as real
  {
    var s := range.GPerCount();
    Reading(
      Vector3((c.accel.x as real) * s, (c.accel.y as real) * s, (c.accel.z as real) * s),
      Vector3((c.mag.x as real) * MAG_UT_LSB, (c.mag.y as real) * MAG_UT_LSB, (c.mag.z as real) * MAG_UT_LSB))
  }

  /** What `get` returns for the bytes of one burst read and the driver's stored scale. */
  function DecodeReading(data: seq<Byte>, scale: Option<AccelRange>): (r: Result<Reading, GetError>)
    ensures r.Success? <==> |data| == SAMPLE_BYTES && scale.Some?
    ensures |data| != SAMPLE_BYTES ==> r == Failure(UnpackError(|data|))
    ensures |data| == SAMPLE_BYTES && scale.None? ==> r == Failure(ScaleUnset)
    ensures r.Success? ==> r.value == Scale(DecodeCounts(data).value, scale.value)
  {
    match DecodeCounts(data)
    case Failure(e) => Failure(e)
    case Success(c) => if scale.None? then Failure(ScaleUnset) else Success(Scale(c, scale.value))
  }

  /** Every decoded count lies in the range of a 14-bit or 16-bit signed field. */
  lemma CountsBounds(data: seq<Byte>)
    requires |data| == SAMPLE_BYTES
    ensures var c := DecodeCounts(data).value;
      -8192 <= c.accel.x < 8192 && -8192 <= c.accel.y < 8192 && -8192 <= c.accel.z < 8192 &&
      IsInt16(c.mag.x) && IsInt16(c.mag.y) && IsInt16(c.mag.z)
  {
  }

  /** Encoding six counts as a burst and decoding it gives the shifted accel and raw mag values back. */
  lemma DecodeCountsOfEncoded(ws: seq<int>)
    requires |ws| == SAMPLE_WORDS && AllInt16(ws)
    ensures DecodeCounts(EncodeWords(ws)) == Success(Counts(
      Vector3(ShiftRight2(ws[0]), ShiftRight2(ws[1]), ShiftRight2(ws[2])),
      Vector3(ws[3], ws[4], ws[5])))
  {
    WordsOfEncodeWords(ws);
  }

  lemma ScaleSign(v: int, s: real)
    requires s > 0.0
    ensures (v as real) * s < 0.0 <==> v < 0
    ensures (v as real) * s == 0.0 <==> v == 0
  {
    if v < 0 {
      assert (v as real) * s == -((-v) as real * s);
    }
  }

  /** A decoded acceleration is negative exactly when its raw word is negative. */
  lemma AccelSignFollowsRaw(data: seq<Byte>, range: AccelRange)
    requires |data| == SAMPLE_BYTES
    ensures var r := DecodeReading(data, Some(range)).value;
      (r.accel.x < 0.0 <==> Word16(data[0], data[1]) < 0) &&
      (r.accel.y < 0.0 <==> Word16(data[2], data[3]) < 0) &&
      (r.accel.z < 0.0 <==> Word16(data[4], data[5]) < 0)
  {
    var c := DecodeCounts(data).value;
    ShiftRight2Int16(Word16(data[0], data[1]));
    ShiftRight2Int16(Word16(data[2], data[3]));
    ShiftRight2Int16(Word16(data[4], data[5]));
    ScaleSign(c.accel.x, range.GPerCount());
    ScaleSign(c.accel.y, range.GPerCount());
    ScaleSign(c.accel.z, range.GPerCount());
  }

  /** A decoded acceleration always lies strictly inside the selected full-scale range. */
  lemma AccelWithinFullScale(data: seq<Byte>, range: AccelRange)
    requires |data| == SAMPLE_BYTES
    ensures var r := DecodeReading(data, Some(range)).value; var g := range.FullScale() as real;
      -g < r.accel.x < g && -g < r.accel.y < g && -g < r.accel.z < g
  {
  }

  /** The example sample: X = 0x0190, Y = 0xFE70, Z = 0 at 2G; magnetometer X = 0x03E8. */
  lemma ExampleReading(data: seq<Byte>)
    requires data == [0x01, 0x90, 0xFE, 0x70, 0x00, 0x00, 0x03, 0xE8, 0x00, 0x00, 0x00, 0x00]
    ensures DecodeReading(data, Some(Range2G)) == Success(Reading(Vector3(0.0244, -0.0244, 0.0), Vector3(100.0, 0.0, 0.0)))
  {
    ExampleWords();
    var c := Counts(Vector3(100, -100, 0), Vector3(1000, 0, 0));
    assert DecodeCounts(data) == Success(c);
    assert Scale(c, Range2G).accel == Vector3(0.0244, -0.0244, 0.0);
    assert Scale(c, Range2G).mag == Vector3(100.0, 0.0, 0.0);
  }

  /** The three raw words of the example sample. */
  lemma ExampleWords()
    ensures Word16(0x01, 0x90) == 400 && Word16(0xFE, 0x70) == -400 && Word16(0x03, 0xE8) == 1000
  {
  }

  /** A burst read that returns fewer bytes never yields a partial reading. */
  lemma ShortReadFails(data: seq<Byte>, scale: Option<AccelRange>)
    requires |data| < SAMPLE_BYTES
    ensures DecodeReading(data, scale) == Failure(UnpackError(|data|))
  {
  }
}
