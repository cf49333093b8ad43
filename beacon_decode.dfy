/**
 * The pure decoding logic of blescanner.cpp: the hex rendering and `strtoul`
 * parsing used by the Tilt decoder, the `%6x` chip-id format, the Tilt UUID
 * to colour mapping, the GravityMon iBeacon and Eddystone field layouts, the
 * JSON-to-record mappings of the two JSON paths, and the routing decision of
 * `onResult`.
 */
module BeaconDecode {
  import opened Wrappers
  import opened Units
  import opened JsonDoc
  import opened BleData

  type byte = x: int | 0 <= x < 256

  function Min(a: int, b: int): int { if a <= b then a else b }

  // ------------------------------------------------------ hex and integers

  predicate IsHexDigit(c: char)
  {
    ('0' <= c <= '9') || ('a' <= c <= 'f') || ('A' <= c <= 'F')
  }

  predicate AllHex(s: string)
  {
    forall i :: 0 <= i < |s| ==> IsHexDigit(s[i])
  }

  /** One lowercase hex digit. */
  function HexDigit(d: int): (c: char)
    requires 0 <= d < 16
    ensures IsHexDigit(c) && HexValue(c) == d
  {
    if d < 10 then ('0' as int + d) as char else ('a' as int + d - 10) as char
  }

  /** The value of one hex digit, as `strtoul` reads it. */
  function HexValue(c: char): (v: nat)
    requires IsHexDigit(c)
    ensures v < 16
  {
    if '0' <= c <= '9' then c as int - '0' as int
    else if 'a' <= c <= 'f' then c as int - 'a' as int + 10
    else c as int - 'A' as int + 10
  }

  /** `snprintf(hexCode, 3, "%.2x", b)`: two lowercase hex digits. */
  function ByteHex(b: byte): (s: string)
    ensures |s| == 2 && IsHexDigit(s[0]) && IsHexDigit(s[1])
  {
    [HexDigit(b / 16), HexDigit(b % 16)]
  }

  /** The concatenated `%.2x` renderings of a byte sequence. */
  function HexString(bs: seq<byte>): (s: string)
    ensures |s| == 2 * |bs|
  {
    if bs == [] then "" else HexString(bs[..|bs| - 1]) + ByteHex(bs[|bs| - 1])
  }

  /** `strtoul(s, nullptr, 16)` on a string made only of hex digits ("" gives 0). */
  function ParseHex(s: string): nat
    requires AllHex(s)
  {
    if s == [] then 0 else ParseHex(s[..|s| - 1]) * 16 + HexValue(s[|s| - 1])
  }

  /** The unsigned big-endian value of a byte sequence. */
  function BigEndian(bs: seq<byte>): nat
  {
    if bs == [] then 0 else BigEndian(bs[..|bs| - 1]) * 256 + bs[|bs| - 1]
  }

  /** Reading back the hex rendering of bytes gives their big-endian value. */
  lemma {:induction false} ParseHexOfHexString(bs: seq<byte>)
    ensures AllHex(HexString(bs))
    ensures ParseHex(HexString(bs)) == BigEndian(bs)
  {
    if bs != [] {
      var init, b := bs[..|bs| - 1], bs[|bs| - 1];
      ParseHexOfHexString(init);
      var h := HexString(init);
      var s := h + ByteHex(b);
      assert HexString(bs) == s;
      assert s[..|s| - 1] == h + [HexDigit(b / 16)];
      assert (h + [HexDigit(b / 16)])[..|h|] == h;
      calc {
        ParseHex(s);
        ParseHex(h + [HexDigit(b / 16)]) * 16 + b % 16;
        (ParseHex(h) * 16 + b / 16) * 16 + b % 16;
        BigEndian(init) * 256 + b;
      }
    }
  }

  /** The bytes at positions lo..hi-1 that exist in `data`. */
  function Window(data: seq<byte>, lo: nat, hi: nat): (w: seq<byte>)
    requires lo <= hi
    ensures |w| <= hi - lo
    ensures hi <= |data| ==> w == data[lo..hi]
  {
    if |data| <= lo then [] else data[lo..Min(hi, |data|)]
  }

  /** Extending the scanned prefix by one byte extends each window by at most that byte. */
  lemma WindowStep(data: seq<byte>, i: nat, lo: nat, hi: nat)
    requires i < |data| && lo <= hi
    ensures Window(data[..i + 1], lo, hi)
         == Window(data[..i], lo, hi) + (if lo <= i < hi then [data[i]] else [])
  {
  }

  lemma HexStringSnoc(bs: seq<byte>, b: byte)
    ensures HexString(bs + [b]) == HexString(bs) + ByteHex(b)
  {
    assert (bs + [b])[..|bs|] == bs;
  }

  /** Two-byte big-endian field `(p[i] << 8) | p[i + 1]`. */
  function U16(data: seq<byte>, i: nat): (v: nat)
    requires i + 2 <= |data|
    ensures v < 0x1_0000
  {
    data[i] as int * 0x100 + data[i + 1] as int
  }

  /** Four-byte big-endian field `(p[i] << 24) | ... | p[i + 3]`, kept as a `uint32_t`. */
  function U32(data: seq<byte>, i: nat): (v: u32)
    requires i + 4 <= |data|
  {
    data[i] as int * 0x100_0000 + data[i + 1] as int * 0x1_0000 + data[i + 2] as int * 0x100 + data[i + 3] as int
  }

  // ------------------------------------------------------------ chip id

  /** `%x`: the shortest lowercase hex rendering ("0" for 0). */
  function HexDigits(n: nat): (s: string)
    ensures 1 <= |s| && AllHex(s)
    ensures forall i :: 0 <= i < |s| ==> s[i] != ' '
    decreases n
  {
    if n < 16 then [HexDigit(n)] else HexDigits(n / 16) + [HexDigit(n % 16)]
  }

  /** `%x` renderings read back to the number. */
  lemma {:induction false} ParseHexDigits(n: nat)
    ensures ParseHex(HexDigits(n)) == n
    decreases n
  {
    if n >= 16 {
      ParseHexDigits(n / 16);
      var s := HexDigits(n / 16) + [HexDigit(n % 16)];
      assert s[..|s| - 1] == HexDigits(n / 16);
    }
  }

  /** A value below 16^k needs at most k digits. */
  lemma {:induction false} HexDigitsLength(n: nat, k: nat, bound: nat)
    requires 1 <= k && n < bound && bound == Pow16(k)
    ensures |HexDigits(n)| <= k
    decreases k
  {
    if n >= 16 {
      assert Pow16(1) == 16;
      assert Pow16(k) == 16 * Pow16(k - 1);
      HexDigitsLength(n / 16, k - 1, Pow16(k - 1));
    }
  }

  function Pow16(k: nat): nat
  {
    if k == 0 then 1 else 16 * Pow16(k - 1)
  }

  function Spaces(k: nat): (s: string)
    ensures |s| == k && forall i :: 0 <= i < k ==> s[i] == ' '
  {
    seq(k, _ => ' ')
  }

  /**
   * `snprintf(chip, 20, "%6x", chipId)`: lowercase hex, right-aligned with
   * spaces to width 6, never truncated (a `uint32_t` has at most 8 digits,
   * the buffer holds 19).
   */
  function FormatChipId(chipId: u32): (s: string)
    ensures 6 <= |s| <= 8
    ensures s != ""
  {
    var h := HexDigits(chipId);
    HexDigitsLength(chipId, 8, Pow16(8));
    if |h| >= 6 then h else Spaces(6 - |h|) + h
  }

  function StripLeadingSpaces(s: string): string
  {
    if s != [] && s[0] == ' ' then StripLeadingSpaces(s[1..]) else s
  }

  lemma {:induction false} StripSpacesPrefix(k: nat, h: string)
    requires h != [] && h[0] != ' '
    ensures StripLeadingSpaces(Spaces(k) + h) == h
    decreases k
  {
    if k > 0 {
      assert (Spaces(k) + h)[1..] == Spaces(k - 1) + h;
      StripSpacesPrefix(k - 1, h);
    }
  }

  /** The chip id string determines the chip id: dropping the padding and reading it back. */
  lemma ChipIdRoundTrip(chipId: u32)
    ensures AllHex(StripLeadingSpaces(FormatChipId(chipId)))
    ensures ParseHex(StripLeadingSpaces(FormatChipId(chipId))) == chipId
  {
    var h := HexDigits(chipId);
    if |h| >= 6 {
      StripSpacesPrefix(0, h);
      assert Spaces(0) + h == h;
    } else {
      StripSpacesPrefix(6 - |h|, h);
    }
    ParseHexDigits(chipId);
  }

  /** Different chips get different registry keys. */
  lemma ChipIdInjective(a: u32, b: u32)
    requires FormatChipId(a) == FormatChipId(b)
    ensures a == b
  {
    ChipIdRoundTrip(a);
    ChipIdRoundTrip(b);
  }

  /** Chip id bytes `00 00 FA 41` render as "  fa41". */
  lemma ChipIdExample()
    ensures FormatChipId(U32([0x00, 0x00, 0xFA, 0x41], 0)) == "  fa41"
  {
    assert U32([0x00, 0x00, 0xFA, 0x41], 0) == 0xfa41;
    assert HexDigits(0xfa41) == "fa41";
  }

  // ------------------------------------------------------------ Tilt

  const TILT_PREAMBLE: seq<byte> := [0x4c, 0x00, 0x02, 0x15]
  const GRAVITYMON_PREAMBLE: seq<byte> := [0x4c, 0x00, 0x03, 0x15]

  const TILT_COLOR_RED_UUID: string := "a495bb10c5b14b44b5121370f02d74de"
  const TILT_COLOR_GREEN_UUID: string := "a495bb20c5b14b44b5121370f02d74de"
  const TILT_COLOR_BLACK_UUID: string := "a495bb30c5b14b44b5121370f02d74de"
  const TILT_COLOR_PURPLE_UUID: string := "a495bb40c5b14b44b5121370f02d74de"
  const TILT_COLOR_ORANGE_UUID: string := "a495bb50c5b14b44b5121370f02d74de"
  const TILT_COLOR_BLUE_UUID: string := "a495bb60c5b14b44b5121370f02d74de"
  const TILT_COLOR_YELLOW_UUID: string := "a495bb70c5b14b44b5121370f02d74de"
  const TILT_COLOR_PINK_UUID: string := "a495bb80c5b14b44b5121370f02d74de"

  /** The UUID constant of each colour. */
  function TiltColorUuid(c: TiltColor): string
    requires c != TiltColor.None
  {
    match c
    case Red => TILT_COLOR_RED_UUID
    case Green => TILT_COLOR_GREEN_UUID
    case Black => TILT_COLOR_BLACK_UUID
    case Purple => TILT_COLOR_PURPLE_UUID
    case Orange => TILT_COLOR_ORANGE_UUID
    case Blue => TILT_COLOR_BLUE_UUID
    case Yellow => TILT_COLOR_YELLOW_UUID
    case Pink => TILT_COLOR_PINK_UUID
  }

  /**
   * `uuidToTiltColor`: a colour exactly when the string is that colour's
   * UUID constant, `None` when it is none of the eight.
   */
  function UuidToTiltColor(uuid: string): (c: TiltColor)
    ensures c != TiltColor.None ==> uuid == TiltColorUuid(c)
    ensures c == TiltColor.None <==> forall k: TiltColor :: k != TiltColor.None ==> uuid != TiltColorUuid(k)
  {
    if uuid == TILT_COLOR_RED_UUID then Red
    else if uuid == TILT_COLOR_GREEN_UUID then Green
    else if uuid == TILT_COLOR_BLACK_UUID then Black
    else if uuid == TILT_COLOR_PURPLE_UUID then Purple
    else if uuid == TILT_COLOR_ORANGE_UUID then Orange
    else if uuid == TILT_COLOR_BLUE_UUID then Blue
    else if uuid == TILT_COLOR_YELLOW_UUID then Yellow
    else if uuid == TILT_COLOR_PINK_UUID then Pink
    else TiltColor.None
  }

  /** Each colour's UUID maps back to that colour, so the mapping is injective. */
  lemma UuidColorRoundTrip(c: TiltColor)
    requires c != TiltColor.None
    ensures UuidToTiltColor(TiltColorUuid(c)) == c
  {
  }

  /** `getTiltColorAsString`: the colour's name, "" for `None`. */
  function TiltColorName(c: TiltColor): (s: string)
    ensures s == "" <==> c == TiltColor.None
  {
    match c
    case None => ""
    case Red => "Red"
    case Green => "Green"
    case Black => "Black"
    case Purple => "Purple"
    case Orange => "Orange"
    case Blue => "Blue"
    case Yellow => "Yellow"
    case Pink => "Pink"
  }

  /** Distinct colours have distinct names. */
  lemma TiltColorNameInjective(c: TiltColor, d: TiltColor)
    requires TiltColorName(c) == TiltColorName(d)
    ensures c == d
  {
  }

  /** A decoded Tilt advertisement. */
  datatype TiltReading = TiltReading(color: TiltColor, tempF: real, gravity: real, txPower: int)

  /** The Tilt Pro sends tenths of a degree and ten-thousandths of SG. */
  predicate IsTiltPro(rawGravity: nat) { rawGravity >= 5000 }

  /**
   * `proccesTiltBeacon` as a function of the manufacturer data: reject when
   * the preamble is not `4C 00 02 15` or the UUID is not a Tilt colour,
   * otherwise scale the big-endian fields found in the data (missing bytes
   * contribute no hex digits, so an absent tx-power byte reads as 0).
   */
  function DecodeTilt(data: seq<byte>): (r: Option<TiltReading>)
    requires |data| >= 4
    ensures r.Some? ==> data[..4] == TILT_PREAMBLE && r.value.color != TiltColor.None
    ensures r.Some? ==> HexString(Window(data, 4, 20)) == TiltColorUuid(r.value.color)
    ensures r.None? <==> data[..4] != TILT_PREAMBLE || UuidToTiltColor(HexString(Window(data, 4, 20))) == TiltColor.None
  {
    if data[..4] != TILT_PREAMBLE then Option.None
    else
      var color := UuidToTiltColor(HexString(Window(data, 4, 20)));
      if color == TiltColor.None then Option.None
      else
        var temp := BigEndian(Window(data, 20, 22));
        var gravity := BigEndian(Window(data, 22, 24));
        var txPower := BigEndian(Window(data, 24, 25));
        var gravityFactor := if IsTiltPro(gravity) then 10000.0 else 1000.0;
        var tempFactor := if IsTiltPro(gravity) then 10.0 else 1.0;
        Some(TiltReading(color, temp as real / tempFactor, gravity as real / gravityFactor, txPower))
  }

  lemma BigEndianPair(a: byte, b: byte)
    ensures BigEndian([a, b]) == a * 256 + b
  {
    assert [a, b][..1] == [a];
    assert [a][..0] == [];
    assert BigEndian([a]) == a;
    assert BigEndian([a, b]) == BigEndian([a]) * 256 + b;
  }

  lemma BigEndianSingle(a: byte)
    ensures BigEndian([a]) == a
  {
    assert [a][..0] == [];
  }

  /**
   * Field layout of a full Tilt frame: temperature at bytes 20-21, gravity at
   * 22-23 (big-endian), tx power at byte 24 or 0 when the frame ends at 24
   * bytes; Pro scaling (/10, /10000) exactly when raw gravity >= 5000,
   * standard scaling (/1, /1000) otherwise.
   */
  lemma TiltLayout(data: seq<byte>)
    requires |data| >= 24 && DecodeTilt(data).Some?
    ensures var r := DecodeTilt(data).value;
      var rawTemp := data[20] as int * 256 + data[21] as int;
      var rawGravity := data[22] as int * 256 + data[23] as int;
      && (rawGravity >= 5000 ==> r.tempF == rawTemp as real / 10.0 && r.gravity == rawGravity as real / 10000.0)
      && (rawGravity < 5000 ==> r.tempF == rawTemp as real && r.gravity == rawGravity as real / 1000.0)
      && r.txPower == (if |data| > 24 then data[24] else 0)
  {
    assert Window(data, 20, 22) == [data[20], data[21]];
    assert Window(data, 22, 24) == [data[22], data[23]];
    BigEndianPair(data[20], data[21]);
    BigEndianPair(data[22], data[23]);
    if |data| > 24 {
      assert Window(data, 24, 25) == [data[24]];
      BigEndianSingle(data[24]);
    } else {
      assert Window(data, 24, 25) == [];
    }
  }

  /** The frame quoted in the decoder: `4c000215 a495bb40... 0050 04d9 c5`. */
  const TILT_SAMPLE: seq<byte> := [
    0x4c, 0x00, 0x02, 0x15, 0xa4, 0x95, 0xbb, 0x40, 0xc5, 0xb1, 0x4b, 0x44, 0xb5,
    0x12, 0x13, 0x70, 0xf0, 0x2d, 0x74, 0xde, 0x00, 0x50, 0x04, 0xd9, 0xc5]

  lemma {:induction false} HexStringAppend(a: seq<byte>, b: seq<byte>)
    ensures HexString(a + b) == HexString(a) + HexString(b)
    decreases |b|
  {
    if b != [] {
      var b', x := b[..|b| - 1], b[|b| - 1];
      assert (a + b)[..|a + b| - 1] == a + b';
      HexStringAppend(a, b');
    } else {
      assert a + b == a;
    }
  }

  lemma HexString4(a: byte, b: byte, c: byte, d: byte)
    ensures HexString([a, b, c, d]) == ByteHex(a) + ByteHex(b) + ByteHex(c) + ByteHex(d)
  {
    assert [a][..0] == [];
    assert HexString([a]) == ByteHex(a);
    assert [a, b][..1] == [a];
    assert HexString([a, b]) == ByteHex(a) + ByteHex(b);
    assert [a, b, c][..2] == [a, b];
    assert HexString([a, b, c]) == ByteHex(a) + ByteHex(b) + ByteHex(c);
    assert [a, b, c, d][..3] == [a, b, c];
  }

  lemma SampleUuidChunk0()
    ensures HexString([0xa4, 0x95, 0xbb, 0x40]) == "a495bb40"
  {
    HexString4(0xa4, 0x95, 0xbb, 0x40);
    assert ByteHex(0xa4) == "a4";
    assert ByteHex(0x95) == "95";
    assert ByteHex(0xbb) == "bb";
    assert ByteHex(0x40) == "40";
  }

  lemma SampleUuidChunk1()
    ensures HexString([0xc5, 0xb1, 0x4b, 0x44]) == "c5b14b44"
  {
    HexString4(0xc5, 0xb1, 0x4b, 0x44);
    assert ByteHex(0xc5) == "c5";
    assert ByteHex(0xb1) == "b1";
    assert ByteHex(0x4b) == "4b";
    assert ByteHex(0x44) == "44";
  }

  lemma SampleUuidChunk2()
    ensures HexString([0xb5, 0x12, 0x13, 0x70]) == "b5121370"
  {
    HexString4(0xb5, 0x12, 0x13, 0x70);
    assert ByteHex(0xb5) == "b5";
    assert ByteHex(0x12) == "12";
    assert ByteHex(0x13) == "13";
    assert ByteHex(0x70) == "70";
  }

  lemma SampleUuidChunk3()
    ensures HexString([0xf0, 0x2d, 0x74, 0xde]) == "f02d74de"
  {
    HexString4(0xf0, 0x2d, 0x74, 0xde);
    assert ByteHex(0xf0) == "f0";
    assert ByteHex(0x2d) == "2d";
    assert ByteHex(0x74) == "74";
    assert ByteHex(0xde) == "de";
  }

  lemma HexStringConcat4(a: seq<byte>, b: seq<byte>, c: seq<byte>, d: seq<byte>)
    ensures HexString(a + b + c + d) == HexString(a) + HexString(b) + HexString(c) + HexString(d)
  {
    HexStringAppend(a + b + c, d);
    HexStringAppend(a + b, c);
    HexStringAppend(a, b);
  }

  /** Bytes 4..19 of the sample frame. */
  lemma SampleUuidSlice()
    ensures TILT_SAMPLE[4..20] == [0xa4, 0x95, 0xbb, 0x40] + [0xc5, 0xb1, 0x4b, 0x44] + [0xb5, 0x12, 0x13, 0x70] + [0xf0, 0x2d, 0x74, 0xde]
  {
  }

  /** The four UUID chunks render chunk by chunk. */
  lemma SampleUuidHex()
    ensures HexString([0xa4, 0x95, 0xbb, 0x40] + [0xc5, 0xb1, 0x4b, 0x44] + [0xb5, 0x12, 0x13, 0x70] + [0xf0, 0x2d, 0x74, 0xde])
         == "a495bb40" + "c5b14b44" + "b5121370" + "f02d74de"
  {
    SampleUuidChunk0();
    SampleUuidChunk1();
    SampleUuidChunk2();
    SampleUuidChunk3();
    HexStringConcat4([0xa4, 0x95, 0xbb, 0x40], [0xc5, 0xb1, 0x4b, 0x44], [0xb5, 0x12, 0x13, 0x70], [0xf0, 0x2d, 0x74, 0xde]);
  }

  /** The UUID bytes of the sample frame render as the Purple UUID. */
  lemma SampleUuidIsPurple()
    ensures HexString(TILT_SAMPLE[4..20]) == TILT_COLOR_PURPLE_UUID
  {
    SampleUuidSlice();
    SampleUuidHex();
  }

  /** ... decodes to Purple, 80 F, SG 1.241, tx power 197. */
  lemma TiltSampleDecodes()
    ensures DecodeTilt(TILT_SAMPLE) == Some(TiltReading(Purple, 80.0, 1.241, 197))
  {
    SampleColor();
    TiltLayout(TILT_SAMPLE);
  }

  /** The sample frame carries the preamble and the Purple UUID. */
  lemma SampleColor()
    ensures DecodeTilt(TILT_SAMPLE).Some? && DecodeTilt(TILT_SAMPLE).value.color == Purple
  {
    assert Window(TILT_SAMPLE, 4, 20) == TILT_SAMPLE[4..20];
    SampleUuidIsPurple();
  }

  // ------------------------------------------------ GravityMon beacons

  /** The fields a GravityMon beacon carries. */
  datatype BeaconReading = BeaconReading(chipId: string, angle: real, battery: real, gravity: real, tempC: real)

  /**
   * `proccesGravitymonBeacon` field extraction: chip id at 12..15, angle at
   * 16-17 /100, battery at 18-19 /1000, gravity at 20-21 /10000, temperature
   * at 22-23 /1000. All fields are unsigned, so the ranges are bounded.
   */
  function DecodeGravitymonIBeacon(data: seq<byte>): (r: BeaconReading)
    requires |data| >= 24
    ensures 6 <= |r.chipId| <= 8
    ensures 0.0 <= r.angle <= 655.35 && 0.0 <= r.battery <= 65.535
    ensures 0.0 <= r.gravity <= 6.5535 && 0.0 <= r.tempC <= 65.535
  {
    BeaconReading(
      FormatChipId(U32(data, 12)),
      U16(data, 16) as real / 100.0,
      U16(data, 18) as real / 1000.0,
      U16(data, 20) as real / 10000.0,
      U16(data, 22) as real / 1000.0)
  }

  /** The Eddystone frame's data starts 23 bytes into the advertisement payload. */
  const EDDYSTONE_DATA_OFFSET: nat := 23

  /**
   * `processGravitymonEddystoneBeacon` field extraction relative to offset 23:
   * battery +2/+3 and temperature +4/+5 (/1000), gravity +6/+7 (/10000),
   * angle +8/+9 (/100), chip id +10..+13.
   */
  function DecodeGravitymonEddystone(payload: seq<byte>): (r: BeaconReading)
    requires |payload| >= EDDYSTONE_DATA_OFFSET + 14
    ensures 6 <= |r.chipId| <= 8
    ensures 0.0 <= r.angle <= 655.35 && 0.0 <= r.battery <= 65.535
    ensures 0.0 <= r.gravity <= 6.5535 && 0.0 <= r.tempC <= 65.535
  {
    var p := EDDYSTONE_DATA_OFFSET;
    BeaconReading(
      FormatChipId(U32(payload, p + 10)),
      U16(payload, p + 8) as real / 100.0,
      U16(payload, p + 2) as real / 1000.0,
      U16(payload, p + 6) as real / 10000.0,
      U16(payload, p + 4) as real / 1000.0)
  }

  /**
   * The two GravityMon beacon encodings carry the same data in a different
   * order: an Eddystone frame whose fields hold the iBeacon's bytes decodes to
   * the same reading.
   */
  lemma EddystoneAgreesWithIBeacon(ib: seq<byte>, ed: seq<byte>)
    requires |ib| >= 24 && |ed| >= 37
    requires ed[25..27] == ib[18..20]   // battery
    requires ed[27..29] == ib[22..24]   // temperature
    requires ed[29..31] == ib[20..22]   // gravity
    requires ed[31..33] == ib[16..18]   // angle
    requires ed[33..37] == ib[12..16]   // chip id
    ensures DecodeGravitymonEddystone(ed) == DecodeGravitymonIBeacon(ib)
  {
    assert ed[25] == ed[25..27][0] && ed[26] == ed[25..27][1];
    assert ed[27] == ed[27..29][0] && ed[28] == ed[27..29][1];
    assert ed[29] == ed[29..31][0] && ed[30] == ed[29..31][1];
    assert ed[31] == ed[31..33][0] && ed[32] == ed[31..33][1];
    assert ed[33] == ed[33..37][0] && ed[34] == ed[33..37][1];
    assert ed[35] == ed[33..37][2] && ed[36] == ed[33..37][3];
  }

  /** The Eddystone advertisement quoted in the decoder. */
  const EDDYSTONE_SAMPLE: seq<byte> := [
    0x0b, 0x09, 0x67, 0x72, 0x61, 0x76, 0x69, 0x74, 0x79, 0x6d, 0x6f, 0x6e, 0x02,
    0x01, 0x06, 0x03, 0x03, 0xaa, 0xfe, 0x11, 0x16, 0xaa, 0xfe, 0x20, 0x00,
    0x0c, 0x8b, 0x10, 0x8b, 0x00, 0x00, 0x30, 0x39, 0x00, 0x00, 0x16, 0x2e]

  /** ... decodes to battery 3.211 V, 4.235 C, gravity 0, angle 123.45, id "  162e". */
  lemma EddystoneSampleDecodes()
    ensures DecodeGravitymonEddystone(EDDYSTONE_SAMPLE) == BeaconReading("  162e", 123.45, 3.211, 0.0, 4.235)
  {
    assert U32(EDDYSTONE_SAMPLE, 33) == 0x162e;
    assert HexDigits(0x162e) == "162e";
  }

  // ------------------------------------------- JSON paths into a record

  const PARAM_BLE_ID: string := "ID"
  const PARAM_BLE_TEMP: string := "temp"
  const PARAM_BLE_TEMPERATURE: string := "temperature"
  const PARAM_BLE_GRAVITY: string := "gravity"
  const PARAM_BLE_ANGLE: string := "angle"
  const PARAM_BLE_BATTERY: string := "battery"
  const PARAM_BLE_RSSI: string := "RSSI"
  const PARAM_BLE_NAME: string := "name"
  const PARAM_BLE_TOKEN: string := "token"
  const PARAM_BLE_INTERVAL: string := "interval"
  const PARAM_BLE_TEMP_UNITS: string := "temp_units"

  /**
   * The slot write of the two binary beacon paths: temperature, gravity,
   * angle, battery, id, address and type; name, token, rssi, tx power and
   * interval keep their previous values.
   */
  function StoreBeacon(d: GravitymonData, r: BeaconReading, address: BleAddress, source: SourceType): (e: GravitymonData)
    ensures e.points.id == r.chipId && e.address == address && e.sourceType == source
    ensures e.points.tempC == r.tempC && e.points.gravity == r.gravity
    ensures e.points.angle == r.angle && e.points.battery == r.battery
    ensures e.points.(tempC := 0.0, gravity := 0.0, angle := 0.0, battery := 0.0, id := "")
         == d.points.(tempC := 0.0, gravity := 0.0, angle := 0.0, battery := 0.0, id := "")
    ensures e.updated == d.updated && e.timeUpdated == d.timeUpdated && e.timePushed == d.timePushed
  {
    d.(points := d.points.(tempC := r.tempC, gravity := r.gravity, angle := r.angle,
                           battery := r.battery, id := r.chipId),
       address := address, sourceType := source)
  }

  /** Temperature in Celsius as the advertised-JSON path computes it (key "temp"). */
  function ExtBeaconTempC(obj: JsonObject): real
  {
    if AsString(obj, PARAM_BLE_TEMP_UNITS) == "C" then AsFloat(obj, PARAM_BLE_TEMP)
    else FtoC(AsFloat(obj, PARAM_BLE_TEMP))
  }

  /**
   * Temperature as the connect path stores it in `tempC` (key
   * "temperature"): a non-"C" reading goes through `convertCtoF`.
   */
  function ConnectTempC(obj: JsonObject): real
  {
    if AsString(obj, "temp_units") == "C" then AsFloat(obj, "temperature")
    else CtoF(AsFloat(obj, "temperature"))
  }

  /**
   * The slot write of the two JSON paths (`processGravitymonExtBeacon` and the
   * read in `connectGravitymonDevice`), given the temperature each computes:
   * the battery goes through `as<int>()`, so it is truncated to whole volts.
   */
  function StoreJson(d: GravitymonData, obj: JsonObject, tempC: real, address: BleAddress): (e: GravitymonData)
    ensures e.points.id == AsString(obj, PARAM_BLE_ID) && e.sourceType == ExtBeacon
    ensures e.points.tempC == tempC && e.address == address
    ensures e.points.gravity == AsFloat(obj, PARAM_BLE_GRAVITY) && e.points.angle == AsFloat(obj, PARAM_BLE_ANGLE)
    ensures e.points.battery == AsInt(obj, PARAM_BLE_BATTERY) as real
    ensures e.points.rssi == AsInt(obj, PARAM_BLE_RSSI) && e.points.interval == AsInt(obj, PARAM_BLE_INTERVAL)
    ensures e.points.name == AsString(obj, PARAM_BLE_NAME) && e.points.token == AsString(obj, PARAM_BLE_TOKEN)
    ensures e.points.txPower == d.points.txPower
    ensures e.updated == d.updated && e.timeUpdated == d.timeUpdated && e.timePushed == d.timePushed
  {
    d.(points := GravitymonPoints(
         tempC,
         AsFloat(obj, PARAM_BLE_GRAVITY),
         AsFloat(obj, PARAM_BLE_ANGLE),
         AsInt(obj, PARAM_BLE_BATTERY) as real,
         d.points.txPower,
         AsInt(obj, PARAM_BLE_RSSI),
         AsString(obj, PARAM_BLE_ID),
         AsString(obj, PARAM_BLE_NAME),
         AsString(obj, PARAM_BLE_TOKEN),
         AsInt(obj, PARAM_BLE_INTERVAL)),
       address := address, sourceType := ExtBeacon)
  }

  /**
   * The two JSON paths read different temperature keys: the advertised path
   * ignores "temperature" and the connect path ignores "temp".
   */
  lemma TemperatureKeysDiffer(obj: JsonObject, v: JsonValue)
    ensures ExtBeaconTempC(obj[PARAM_BLE_TEMPERATURE := v]) == ExtBeaconTempC(obj)
    ensures ConnectTempC(obj[PARAM_BLE_TEMP := v]) == ConnectTempC(obj)
  {
  }

  /**
   * For a Fahrenheit reading the connect path stores `convertCtoF(t)` where the
   * advertised path stores `convertFtoC(t)`; they agree only at -40.
   */
  lemma ConnectConversionDiffers(t: real)
    ensures CtoF(t) == FtoC(t) <==> t == -40.0
  {
  }

  // -------------------------------------------------------- routing

  /** Advertised service data: a 16-bit service UUID and its bytes (as text). */
  datatype ServiceData = ServiceData(uuid: nat, data: string)

  /** What `onResult` sees of a discovered device. */
  datatype Advertisement = Advertisement(
    address: BleAddress,
    name: string,
    rssi: int,
    serviceData: seq<ServiceData>,
    manufacturerData: seq<byte>,
    payload: seq<byte>)

  const GRAVITYMON_NAME: string := "gravitymon"
  const EXT_BEACON_MARKER: string := "gravitymon_ext"
  const EDDYSTONE_UUID: nat := 0xfeaa
  const SERV_UUID: nat := 0x180A
  const SERV2_UUID: nat := 0x1801
  const CHAR_UUID: nat := 0x2AC4

  /** `getServiceData(uuid)`: the data of the first entry with that UUID, "" if none. */
  function ServiceDataFor(sds: seq<ServiceData>, uuid: nat): string
  {
    if sds == [] then ""
    else if sds[0].uuid == uuid then sds[0].data
    else ServiceDataFor(sds[1..], uuid)
  }

  predicate HasEddystone(adv: Advertisement)
  {
    exists i :: 0 <= i < |adv.serviceData| && adv.serviceData[i].uuid == EDDYSTONE_UUID
  }

  predicate IsExtBeacon(adv: Advertisement)
  {
    ServiceDataFor(adv.serviceData, SERV2_UUID) == EXT_BEACON_MARKER
  }

  predicate HasPreamble(adv: Advertisement, preamble: seq<byte>)
    requires |preamble| == 4
  {
    |adv.manufacturerData| >= 24 && adv.manufacturerData[..4] == preamble
  }

  /** The handler an advertisement is given to. */
  datatype Handler = ToEddystone | ToExtBeacon | ToConnectQueue | ToTiltIBeacon | ToGravitymonIBeacon

  /**
   * `onResult` routing. A device named "gravitymon" goes to exactly one of
   * the Eddystone decoder, the advertised-JSON decoder or the connect queue,
   * and never to an iBeacon decoder; any other device reaches an iBeacon
   * decoder only with at least 24 bytes of manufacturer data carrying that
   * decoder's preamble. No advertisement is handled twice.
   */
  function Route(adv: Advertisement): (hs: seq<Handler>)
    ensures |hs| <= 1
    ensures adv.name == GRAVITYMON_NAME <==> |hs| == 1 && hs[0] in {ToEddystone, ToExtBeacon, ToConnectQueue}
    ensures hs == [ToEddystone] <==> adv.name == GRAVITYMON_NAME && HasEddystone(adv)
    ensures hs == [ToExtBeacon] <==> adv.name == GRAVITYMON_NAME && !HasEddystone(adv) && IsExtBeacon(adv)
    ensures hs == [ToConnectQueue] <==> adv.name == GRAVITYMON_NAME && !HasEddystone(adv) && !IsExtBeacon(adv)
    ensures hs == [ToTiltIBeacon] <==> adv.name != GRAVITYMON_NAME && HasPreamble(adv, TILT_PREAMBLE)
    ensures hs == [ToGravitymonIBeacon] <==> adv.name != GRAVITYMON_NAME && HasPreamble(adv, GRAVITYMON_PREAMBLE)
  {
    if adv.name == GRAVITYMON_NAME then
      if HasEddystone(adv) then [ToEddystone]
      else if IsExtBeacon(adv) then [ToExtBeacon]
      else [ToConnectQueue]
    else
      assert !(HasPreamble(adv, TILT_PREAMBLE) && HasPreamble(adv, GRAVITYMON_PREAMBLE)) by {
        if HasPreamble(adv, TILT_PREAMBLE) {
          assert adv.manufacturerData[2] == TILT_PREAMBLE[2];
        }
      }
      (if HasPreamble(adv, TILT_PREAMBLE) then [ToTiltIBeacon] else [])
      + (if HasPreamble(adv, GRAVITYMON_PREAMBLE) then [ToGravitymonIBeacon] else [])
  }
}
