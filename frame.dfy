/** The raw frame: one bus read that spans the MPU6500 registers and, when present, the
    AK8963 magnetometer and LPS25H barometer registers chained behind it
    (src/modules/src/sensors_task.c). Byte assembly and the length/offset arithmetic are pure. */
module Frame {
  import opened ImuTypes

  newtype byte = b: int | 0 <= b < 256

  // ---------------------------------------------------------------------------------------
  // Integer assembly
  // ---------------------------------------------------------------------------------------

  predicate IsInt16(v: int) { -32768 <= v < 32768 }

  predicate IsUInt24(v: int) { 0 <= v < 0x100_0000 }

  predicate IsInt16Axis(a: Axis3i) { IsInt16(a.x) && IsInt16(a.y) && IsInt16(a.z) }

  /** `(int16_t)((hi << 8) | lo)`: the two bytes read as a two's-complement 16-bit value. */
  function Int16(hi: byte, lo: byte): (v: int)
    ensures IsInt16(v)
    ensures (v - (hi as int * 256 + lo as int)) % 65536 == 0
  {
    var u := hi as int * 256 + lo as int;
    if u >= 32768 then u - 65536 else u
  }

  /** The high byte of the two's-complement encoding of `v`. */
  function HighByte(v: int): byte
    requires IsInt16(v)
  {
    (((v + 65536) % 65536) / 256) as byte
  }

  /** The low byte of the two's-complement encoding of `v`. */
  function LowByte(v: int): byte
    requires IsInt16(v)
  {
    ((v + 65536) % 256) as byte
  }

  /** Every signed 16-bit value is assembled back from its two encoding bytes. */
  lemma Int16OfEncoding(v: int)
    requires IsInt16(v)
    ensures Int16(HighByte(v), LowByte(v)) == v
  {
  }

  /** No two byte pairs assemble to the same value: the conversion loses nothing. */
  lemma EncodingOfInt16(hi: byte, lo: byte)
    ensures HighByte(Int16(hi, lo)) == hi && LowByte(Int16(hi, lo)) == lo
  {
  }

  /** `(b3 << 16) | (b2 << 8) | b1`: a little-endian unsigned 24-bit value. */
  function UInt24(b1: byte, b2: byte, b3: byte): (v: int)
    ensures IsUInt24(v)
    ensures v % 256 == b1 as int && (v / 256) % 256 == b2 as int && v / 65536 == b3 as int
  {
    b3 as int * 65536 + b2 as int * 256 + b1 as int
  }

  /** True when any bit of `mask` is set in `b` (`b & mask` in a C condition). */
  predicate Masked(b: byte, mask: bv8) {
    (b as bv8) & mask != 0
  }

  // ---------------------------------------------------------------------------------------
  // Layout of one read
  // ---------------------------------------------------------------------------------------

  const MPU6500_BUFF_LEN: nat := 14
  const MAG_BUFF_LEN: nat := 8
  const BARO_BUFF_LEN: nat := 6
  /** The static buffer holds all three segments. */
  const BUFFER_LEN: nat := MPU6500_BUFF_LEN + MAG_BUFF_LEN + BARO_BUFF_LEN

  /** Number of bytes read in one cycle (computed into a `uint8_t`). */
  function DataLen(magPresent: bool, baroPresent: bool): nat {
    MPU6500_BUFF_LEN + (if magPresent then MAG_BUFF_LEN else 0) + (if baroPresent then BARO_BUFF_LEN else 0)
  }

  /** Offset of the barometer segment: right after the magnetometer's when that one is read. */
  function BaroOffset(magPresent: bool): nat {
    if magPresent then MPU6500_BUFF_LEN + MAG_BUFF_LEN else MPU6500_BUFF_LEN
  }

  datatype Segment = AccGyroSegment | MagSegment | BaroSegment

  predicate SegmentPresent(s: Segment, magPresent: bool, baroPresent: bool) {
    match s
    case AccGyroSegment => true
    case MagSegment => magPresent
    case BaroSegment => baroPresent
  }

  function SegmentStart(s: Segment, magPresent: bool): nat {
    match s
    case AccGyroSegment => 0
    case MagSegment => MPU6500_BUFF_LEN
    case BaroSegment => BaroOffset(magPresent)
  }

  function SegmentLen(s: Segment): nat {
    match s
    case AccGyroSegment => MPU6500_BUFF_LEN
    case MagSegment => MAG_BUFF_LEN
    case BaroSegment => BARO_BUFF_LEN
  }

  predicate InSegment(s: Segment, magPresent: bool, i: int) {
    SegmentStart(s, magPresent) <= i < SegmentStart(s, magPresent) + SegmentLen(s)
  }

  /** Byte `i` belongs to the segment of some sensor that is present. */
  predicate Owned(magPresent: bool, baroPresent: bool, i: int) {
    exists s :: SegmentPresent(s, magPresent, baroPresent) && InSegment(s, magPresent, i)
  }

  /** The read fits the static buffer and a `uint8_t`; the segments of the present sensors lie
      inside the read, do not overlap, and together cover every byte read. */
  lemma LayoutTilesRead(magPresent: bool, baroPresent: bool)
    ensures DataLen(magPresent, baroPresent) <= BUFFER_LEN < 256
    ensures forall s :: SegmentPresent(s, magPresent, baroPresent) ==>
              SegmentStart(s, magPresent) + SegmentLen(s) <= DataLen(magPresent, baroPresent)
    ensures forall s, t, i :: s != t && InSegment(s, magPresent, i) && InSegment(t, magPresent, i) ==>
              !(SegmentPresent(s, magPresent, baroPresent) && SegmentPresent(t, magPresent, baroPresent))
    ensures forall i :: 0 <= i < DataLen(magPresent, baroPresent) <==> Owned(magPresent, baroPresent, i)
  {
    forall i | 0 <= i < DataLen(magPresent, baroPresent)
      ensures Owned(magPresent, baroPresent, i)
    {
      if i < MPU6500_BUFF_LEN {
        assert InSegment(AccGyroSegment, magPresent, i);
      } else if magPresent && i < MPU6500_BUFF_LEN + MAG_BUFF_LEN {
        assert InSegment(MagSegment, magPresent, i);
      } else {
        assert SegmentPresent(BaroSegment, magPresent, baroPresent) && InSegment(BaroSegment, magPresent, i);
      }
    }
  }

  // ---------------------------------------------------------------------------------------
  // MPU6500 segment: ACCEL_XOUT_H .. GYRO_ZOUT_L, big-endian
  // ---------------------------------------------------------------------------------------

  /** Raw accelerometer and gyro triplets, already in the board's axis order. */
  datatype ImuRaw = ImuRaw(acc: Axis3i, gyro: Axis3i)

  /** Decodes the 14-byte MPU6500 segment. The sensor is mounted rotated by 90 degrees, so the
      board's Y axis is the first pair on the wire and X the second; bytes 6-7 (the die
      temperature) are not used. */
  function DecodeAccGyro(seg: seq<byte>): (r: ImuRaw)
    requires |seg| == MPU6500_BUFF_LEN
    ensures IsInt16Axis(r.acc) && IsInt16Axis(r.gyro)
  {
    ImuRaw(Axis3i(Int16(seg[2], seg[3]), Int16(seg[0], seg[1]), Int16(seg[4], seg[5])),
           Axis3i(Int16(seg[10], seg[11]), Int16(seg[8], seg[9]), Int16(seg[12], seg[13])))
  }

  /** The MPU6500 segment a sensor with these readings and die temperature would send. */
  function EncodeAccGyro(r: ImuRaw, temperature: int): (seg: seq<byte>)
    requires IsInt16Axis(r.acc) && IsInt16Axis(r.gyro) && IsInt16(temperature)
    ensures |seg| == MPU6500_BUFF_LEN
  {
    [HighByte(r.acc.y), LowByte(r.acc.y), HighByte(r.acc.x), LowByte(r.acc.x),
     HighByte(r.acc.z), LowByte(r.acc.z), HighByte(temperature), LowByte(temperature),
     HighByte(r.gyro.y), LowByte(r.gyro.y), HighByte(r.gyro.x), LowByte(r.gyro.x),
     HighByte(r.gyro.z), LowByte(r.gyro.z)]
  }

  /** Decoding a sent segment gives back the readings, whatever the temperature bytes hold. */
  lemma DecodeEncodeAccGyro(r: ImuRaw, temperature: int)
    requires IsInt16Axis(r.acc) && IsInt16Axis(r.gyro) && IsInt16(temperature)
    ensures DecodeAccGyro(EncodeAccGyro(r, temperature)) == r
  {
    var seg := EncodeAccGyro(r, temperature);
    Int16OfEncoding(r.acc.x); Int16OfEncoding(r.acc.y); Int16OfEncoding(r.acc.z);
    Int16OfEncoding(r.gyro.x); Int16OfEncoding(r.gyro.y); Int16OfEncoding(r.gyro.z);
  }

  /** Every segment is the encoding of what it decodes to and its own temperature bytes. */
  lemma EncodeDecodeAccGyro(seg: seq<byte>)
    requires |seg| == MPU6500_BUFF_LEN
    ensures EncodeAccGyro(DecodeAccGyro(seg), Int16(seg[6], seg[7])) == seg
  {
    EncodingOfInt16(seg[0], seg[1]); EncodingOfInt16(seg[2], seg[3]);
    EncodingOfInt16(seg[4], seg[5]); EncodingOfInt16(seg[6], seg[7]);
    EncodingOfInt16(seg[8], seg[9]); EncodingOfInt16(seg[10], seg[11]);
    EncodingOfInt16(seg[12], seg[13]);
  }

  /** Bytes 6-7 never affect the decoded readings. */
  lemma TemperatureBytesIgnored(seg: seq<byte>, seg': seq<byte>)
    requires |seg| == |seg'| == MPU6500_BUFF_LEN
    requires forall i :: 0 <= i < MPU6500_BUFF_LEN && i != 6 && i != 7 ==> seg[i] == seg'[i]
    ensures DecodeAccGyro(seg) == DecodeAccGyro(seg')
  {
    assert seg[0] == seg'[0] && seg[1] == seg'[1] && seg[2] == seg'[2] && seg[3] == seg'[3];
    assert seg[4] == seg'[4] && seg[5] == seg'[5] && seg[8] == seg'[8] && seg[9] == seg'[9];
    assert seg[10] == seg'[10] && seg[11] == seg'[11] && seg[12] == seg'[12] && seg[13] == seg'[13];
  }

  // ---------------------------------------------------------------------------------------
  // AK8963 segment: ST1, HXL .. HZH, ST2, little-endian
  // ---------------------------------------------------------------------------------------

  /** Bit number of DRDY (data ready) in the AK8963 ST1 status register. */
  const AK8963_ST1_DRDY_BIT: nat := 0

  predicate MagDataReady(status: byte) {
    Masked(status, (1 as bv8) << AK8963_ST1_DRDY_BIT)
  }

  /** Decodes the 8-byte magnetometer segment: a heading triplet when the status byte flags new
      data, nothing otherwise. The trailing ST2 byte is not used. */
  function DecodeMag(seg: seq<byte>): (r: Option<Axis3i>)
    requires |seg| == MAG_BUFF_LEN
    ensures r.Some? <==> MagDataReady(seg[0])
    ensures r.Some? ==> IsInt16Axis(r.value)
  {
    if MagDataReady(seg[0]) then
      Some(Axis3i(Int16(seg[2], seg[1]), Int16(seg[4], seg[3]), Int16(seg[6], seg[5])))
    else
      None
  }

  /** The magnetometer segment a sensor with this status, heading and ST2 byte would send. */
  function EncodeMag(status: byte, heading: Axis3i, st2: byte): (seg: seq<byte>)
    requires IsInt16Axis(heading)
    ensures |seg| == MAG_BUFF_LEN
  {
    [status, LowByte(heading.x), HighByte(heading.x), LowByte(heading.y), HighByte(heading.y),
     LowByte(heading.z), HighByte(heading.z), st2]
  }

  /** A sent heading is decoded exactly when its status flags data ready. */
  lemma DecodeEncodeMag(status: byte, heading: Axis3i, st2: byte)
    requires IsInt16Axis(heading)
    ensures DecodeMag(EncodeMag(status, heading, st2)) ==
            if MagDataReady(status) then Some(heading) else None
  {
    Int16OfEncoding(heading.x); Int16OfEncoding(heading.y); Int16OfEncoding(heading.z);
  }

  // ---------------------------------------------------------------------------------------
  // LPS25H segment: STATUS, PRESS_OUT_XL/L/H, TEMP_OUT_L/H, little-endian
  // ---------------------------------------------------------------------------------------

  /** STATUS_REG bits: new pressure (P_DA) and new temperature (T_DA). */
  const LPS25H_P_DA: bv8 := 0x02
  const LPS25H_T_DA: bv8 := 0x01

  /** The last raw barometer values, kept across cycles. */
  datatype BaroRaw = BaroRaw(pressure: int, temperature: int)

  predicate IsBaroRaw(r: BaroRaw) { IsUInt24(r.pressure) && IsInt16(r.temperature) }

  /** Updates the kept raw values from the 6-byte barometer segment: each value is replaced only
      when its own status bit flags new data, and kept otherwise. */
  function UpdateBaroRaw(seg: seq<byte>, prev: BaroRaw): (r: BaroRaw)
    requires |seg| == BARO_BUFF_LEN
    ensures IsBaroRaw(prev) ==> IsBaroRaw(r)
    ensures !Masked(seg[0], LPS25H_P_DA) ==> r.pressure == prev.pressure
    ensures !Masked(seg[0], LPS25H_T_DA) ==> r.temperature == prev.temperature
    ensures Masked(seg[0], LPS25H_P_DA) ==>
              (IsUInt24(r.pressure) && r.pressure % 256 == seg[1] as int &&
               (r.pressure / 256) % 256 == seg[2] as int && r.pressure / 65536 == seg[3] as int)
    ensures Masked(seg[0], LPS25H_T_DA) ==>
              (IsInt16(r.temperature) && (r.temperature - (seg[5] as int * 256 + seg[4] as int)) % 65536 == 0)
  {
    BaroRaw(if Masked(seg[0], LPS25H_P_DA) then UInt24(seg[1], seg[2], seg[3]) else prev.pressure,
            if Masked(seg[0], LPS25H_T_DA) then Int16(seg[5], seg[4]) else prev.temperature)
  }

  /** The barometer segment a sensor with this status and these raw values would send. */
  function EncodeBaro(status: byte, raw: BaroRaw): (seg: seq<byte>)
    requires IsBaroRaw(raw)
    ensures |seg| == BARO_BUFF_LEN
  {
    [status, (raw.pressure % 256) as byte, ((raw.pressure / 256) % 256) as byte,
     (raw.pressure / 65536) as byte, LowByte(raw.temperature), HighByte(raw.temperature)]
  }

  /** A sent value replaces the kept one exactly when its status bit is set. */
  lemma DecodeEncodeBaro(status: byte, raw: BaroRaw, prev: BaroRaw)
    requires IsBaroRaw(raw)
    ensures UpdateBaroRaw(EncodeBaro(status, raw), prev) ==
            BaroRaw(if Masked(status, LPS25H_P_DA) then raw.pressure else prev.pressure,
                    if Masked(status, LPS25H_T_DA) then raw.temperature else prev.temperature)
  {
    Int16OfEncoding(raw.temperature);
  }
}
