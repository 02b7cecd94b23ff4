/**
 * Raw PCM audio to a canonical RIFF/WAVE file: the 44-byte header written field by field through
 * DataView setters and prepended to the untouched payload, and the copy of a decoded binary string
 * into a byte array.
 */
module AudioHelper {
  import opened Types

  /** One byte, as stored in a `Uint8Array` or an `ArrayBuffer`. */
  newtype byte = b: int | 0 <= b < 0x100

  /** One UTF-16 code unit, as returned by `String.prototype.charCodeAt`. */
  newtype CodeUnit = u: int | 0 <= u < 0x1_0000

  const TwoTo16: int := 0x1_0000
  const TwoTo32: int := 0x1_0000_0000

  // ---------------------------------------------------------------------------------------------
  // decodeBase64ToUint8Array: the copy loop over the string that atob decoded

  /** The byte a `Uint8Array` stores when it is assigned `u`: the value modulo 256. */
  function ToUint8(u: CodeUnit): (b: byte)
    ensures u < 0x100 ==> b as int == u as int
  {
    (u as int % 0x100) as byte
  }

  /** The bytes the copy loop produces for a binary string: each code unit taken modulo 256. */
  function DecodedBytes(binaryString: seq<CodeUnit>): (r: seq<byte>)
    ensures |r| == |binaryString|
  {
    seq(|binaryString|, i requires 0 <= i < |binaryString| => ToUint8(binaryString[i]))
  }

  /**
   * Copies the character codes of the decoded binary string into a new byte array of the same
   * length. A binary string produced by atob holds only codes below 256, which are copied exactly.
   */
  method DecodeBase64ToUint8Array(binaryString: seq<CodeUnit>) returns (bytes: array<byte>)
    ensures fresh(bytes)
    ensures bytes.Length == |binaryString|
    ensures forall i :: 0 <= i < |binaryString| ==> bytes[i] == ToUint8(binaryString[i])
    ensures (forall i :: 0 <= i < |binaryString| ==> binaryString[i] < 0x100) ==>
              forall i :: 0 <= i < |binaryString| ==> bytes[i] as int == binaryString[i] as int
  {
    bytes := new byte[|binaryString|];
    var i := 0;
    while i < |binaryString|
      invariant 0 <= i <= |binaryString|
      invariant forall j :: 0 <= j < i ==> bytes[j] == ToUint8(binaryString[j])
    {
      bytes[i] := ToUint8(binaryString[i]);
      i := i + 1;
    }
  }

  // ---------------------------------------------------------------------------------------------
  // Integer conversions performed by the DataView setters

  /** ECMAScript ToUint32 of an integral number: the value modulo 2^32. */
  function ToUint32(v: int): nat {
    v % TwoTo32
  }

  /** ECMAScript ToUint16 of an integral number: the value modulo 2^16. */
  function ToUint16(v: int): nat {
    v % TwoTo16
  }

  /** ToUint32 lands in [0, 2^32), differs from its argument by a multiple of 2^32, and keeps every value that already fits. */
  lemma ToUint32Wraps(v: int)
    ensures ToUint32(v) < TwoTo32 && (v - ToUint32(v)) % TwoTo32 == 0
    ensures 0 <= v < TwoTo32 <==> ToUint32(v) == v
  {
  }

  /** ToUint16 lands in [0, 2^16), differs from its argument by a multiple of 2^16, and keeps every value that already fits. */
  lemma ToUint16Wraps(v: int)
    ensures ToUint16(v) < TwoTo16 && (v - ToUint16(v)) % TwoTo16 == 0
    ensures 0 <= v < TwoTo16 <==> ToUint16(v) == v
  {
  }

  /** `a / b` followed by the truncation toward zero that ToUint32 and ToUint16 apply to a fraction. */
  function TruncDiv(a: int, b: int): (q: int)
    requires b > 0
    ensures a >= 0 ==> 0 <= q && q * b <= a < q * b + b
    ensures a <= 0 ==> q <= 0 && q * b >= a > q * b - b
  {
    if a >= 0 then a / b else -((-a) / b)
  }

  // ---------------------------------------------------------------------------------------------
  // Byte layouts and their readers

  /** The `count` low-order base-256 digits of `v`, least significant first. */
  function LeBytes(v: nat, count: nat): (r: seq<byte>)
    ensures |r| == count
  {
    if count == 0 then [] else [(v % 0x100) as byte] + LeBytes(v / 0x100, count - 1)
  }

  /** The `count` low-order base-256 digits of `v`, most significant first. */
  function BeBytes(v: nat, count: nat): (r: seq<byte>)
    ensures |r| == count
  {
    if count == 0 then [] else BeBytes(v / 0x100, count - 1) + [(v % 0x100) as byte]
  }

  /** The two bytes `setUint16(_, v, true)` writes, least significant first. */
  function Le16(v: nat): (r: seq<byte>)
    ensures |r| == 2
  {
    LeBytes(v, 2)
  }

  /** The four bytes `setUint32(_, v, true)` writes, least significant first. */
  function Le32(v: nat): (r: seq<byte>)
    ensures |r| == 4
  {
    LeBytes(v, 4)
  }

  /** The four bytes `setUint32(_, v, false)` writes, most significant first. */
  function Be32(v: nat): (r: seq<byte>)
    ensures |r| == 4
  {
    BeBytes(v, 4)
  }

  /** Reading the two bytes `Le16` lays out gives the value back. */
  lemma Le16ReadsBack(v: nat)
    requires v < TwoTo16
    ensures ReadLe16(Le16(v)) == v
  {
    assert LeBytes(v, 2) == [(v % 0x100) as byte] + LeBytes(v / 0x100, 1);
    assert LeBytes(v / 0x100, 1) == [(v / 0x100 % 0x100) as byte] + LeBytes(v / 0x100 / 0x100, 0);
  }

  /** Reading the four bytes `Le32` lays out gives the value back. */
  lemma Le32ReadsBack(v: nat)
    requires v < TwoTo32
    ensures ReadLe32(Le32(v)) == v
  {
    var q1, q2, q3 := v / 0x100, v / 0x100 / 0x100, v / 0x100 / 0x100 / 0x100;
    assert LeBytes(v, 4) == [(v % 0x100) as byte] + LeBytes(q1, 3);
    assert LeBytes(q1, 3) == [(q1 % 0x100) as byte] + LeBytes(q2, 2);
    assert LeBytes(q2, 2) == [(q2 % 0x100) as byte] + LeBytes(q3, 1);
    assert LeBytes(q3, 1) == [(q3 % 0x100) as byte] + LeBytes(q3 / 0x100, 0);
    ByteDigits(v);
  }

  /** Reading the four bytes `Be32` lays out gives the value back. */
  lemma Be32ReadsBack(v: nat)
    requires v < TwoTo32
    ensures ReadBe32(Be32(v)) == v
  {
    var q1, q2, q3 := v / 0x100, v / 0x100 / 0x100, v / 0x100 / 0x100 / 0x100;
    assert BeBytes(v, 4) == BeBytes(q1, 3) + [(v % 0x100) as byte];
    assert BeBytes(q1, 3) == BeBytes(q2, 2) + [(q1 % 0x100) as byte];
    assert BeBytes(q2, 2) == BeBytes(q3, 1) + [(q2 % 0x100) as byte];
    assert BeBytes(q3, 1) == BeBytes(q3 / 0x100, 0) + [(q3 % 0x100) as byte];
    ByteDigits(v);
  }

  /** The base-256 digits of a 32-bit value, least significant first, recombine to it. */
  lemma ByteDigits(v: nat)
    requires v < TwoTo32
    ensures v / 0x100 / 0x100 / 0x100 < 0x100
    ensures v == v % 0x100 + 0x100 * (v / 0x100 % 0x100) + 0x1_0000 * (v / 0x100 / 0x100 % 0x100)
                 + 0x100_0000 * (v / 0x100 / 0x100 / 0x100)
  {
    var q1 := v / 0x100;
    var q2 := q1 / 0x100;
    var q3 := q2 / 0x100;
    assert v == v % 0x100 + 0x100 * q1;
    assert q1 == q1 % 0x100 + 0x100 * q2;
    assert q2 == q2 % 0x100 + 0x100 * q3;
    assert q1 < 0x100_0000;
    assert q2 < 0x1_0000;
  }

  function ReadLe16(b: seq<byte>): nat
    requires |b| == 2
  {
    b[0] as int + 0x100 * b[1] as int
  }

  function ReadLe32(b: seq<byte>): nat
    requires |b| == 4
  {
    b[0] as int + 0x100 * b[1] as int + 0x1_0000 * b[2] as int + 0x100_0000 * b[3] as int
  }

  function ReadBe32(b: seq<byte>): nat
    requires |b| == 4
  {
    0x100_0000 * b[0] as int + 0x1_0000 * b[1] as int + 0x100 * b[2] as int + b[3] as int
  }

  /** The ASCII bytes of a four-character chunk identifier. */
  function FourCC(s: string): (r: seq<byte>)
    requires |s| == 4 && forall i :: 0 <= i < 4 ==> s[i] < '\U{80}'
    ensures |r| == 4 && forall i :: 0 <= i < 4 ==> r[i] as int == s[i] as int
  {
    [s[0] as int as byte, s[1] as int as byte, s[2] as int as byte, s[3] as int as byte]
  }

  /** The chunk identifiers, as the 32-bit constants written big-endian. */
  const RiffId: nat := 0x52494646
  const WaveId: nat := 0x57415645
  const FmtId: nat := 0x666d7420
  const DataId: nat := 0x64617461

  /** Writing the identifier constants big-endian spells "RIFF", "WAVE", "fmt " and "data" in ASCII. */
  lemma ChunkIdsSpellAscii()
    ensures Be32(RiffId) == FourCC("RIFF")
    ensures Be32(WaveId) == FourCC("WAVE")
    ensures Be32(FmtId) == FourCC("fmt ")
    ensures Be32(DataId) == FourCC("data")
  {
    assert Be32(RiffId) == [0x52, 0x49, 0x46, 0x46];
    assert Be32(WaveId) == [0x57, 0x41, 0x56, 0x45];
    assert Be32(FmtId) == [0x66, 0x6d, 0x74, 0x20];
    assert Be32(DataId) == [0x64, 0x61, 0x74, 0x61];
  }

  // ---------------------------------------------------------------------------------------------
  // wrapPcmInWav

  /** The byte rate field's value before the setter's conversion: sampleRate * numChannels * bitDepth / 8. */
  function ByteRate(sampleRate: int, numChannels: int, bitDepth: int): int {
    TruncDiv(sampleRate * numChannels * bitDepth, 8)
  }

  /** The block align field's value before the setter's conversion: numChannels * bitDepth / 8. */
  function BlockAlign(numChannels: int, bitDepth: int): int {
    TruncDiv(numChannels * bitDepth, 8)
  }

  /** One setter call of the header: a 32-bit write in either byte order, or a 16-bit little-endian write. */
  datatype Field = U32(value: int, littleEndian: bool) | U16(value: int)

  /** The bytes one setter call writes, after its conversion of the value to the field's width. */
  function FieldBytes(f: Field): (r: seq<byte>)
    ensures |r| == if f.U32? then 4 else 2
  {
    match f
    case U32(v, littleEndian) => if littleEndian then Le32(ToUint32(v)) else Be32(ToUint32(v))
    case U16(v) => Le16(ToUint16(v))
  }

  /** The bytes of the setter calls from the `from`-th on, each written right after the previous one. */
  function Serialize(fields: seq<Field>, from: nat): seq<byte>
    requires from <= |fields|
    decreases |fields| - from
  {
    if from == |fields| then [] else FieldBytes(fields[from]) + Serialize(fields, from + 1)
  }

  /**
   * The thirteen setter calls of the header in offset order: the RIFF descriptor (bytes 0-11), the
   * "fmt " sub-chunk (bytes 12-35) and the "data" sub-chunk header (bytes 36-43).
   */
  function HeaderFields(dataLength: nat, sampleRate: int, numChannels: int, bitDepth: int): seq<Field> {
    [U32(RiffId, false), U32(36 + dataLength, true), U32(WaveId, false),
     U32(FmtId, false), U32(16, true), U16(1), U16(numChannels), U32(sampleRate, true),
     U32(ByteRate(sampleRate, numChannels, bitDepth), true), U16(BlockAlign(numChannels, bitDepth)), U16(bitDepth),
     U32(DataId, false), U32(dataLength, true)]
  }

  /** The 44-byte header. */
  function WavHeader(dataLength: nat, sampleRate: int, numChannels: int, bitDepth: int): seq<byte> {
    Serialize(HeaderFields(dataLength, sampleRate, numChannels, bitDepth), 0)
  }

  /** The header is the thirteen fields' bytes back to back. */
  lemma WavHeaderBytes(dataLength: nat, sampleRate: int, numChannels: int, bitDepth: int)
    ensures WavHeader(dataLength, sampleRate, numChannels, bitDepth)
         == Be32(RiffId) + (Le32(ToUint32(36 + dataLength)) + (Be32(WaveId) + (Be32(FmtId)
            + (Le32(16) + (Le16(1) + (Le16(ToUint16(numChannels)) + (Le32(ToUint32(sampleRate))
            + (Le32(ToUint32(ByteRate(sampleRate, numChannels, bitDepth)))
            + (Le16(ToUint16(BlockAlign(numChannels, bitDepth))) + (Le16(ToUint16(bitDepth))
            + (Be32(DataId) + (Le32(ToUint32(dataLength)) + []))))))))))))
  {
    var fs := HeaderFields(dataLength, sampleRate, numChannels, bitDepth);
    assert Serialize(fs, 13) == [];
    assert Serialize(fs, 12) == FieldBytes(fs[12]) + Serialize(fs, 13);
    assert Serialize(fs, 11) == FieldBytes(fs[11]) + Serialize(fs, 12);
    assert Serialize(fs, 10) == FieldBytes(fs[10]) + Serialize(fs, 11);
    assert Serialize(fs, 9) == FieldBytes(fs[9]) + Serialize(fs, 10);
    assert Serialize(fs, 8) == FieldBytes(fs[8]) + Serialize(fs, 9);
    assert Serialize(fs, 7) == FieldBytes(fs[7]) + Serialize(fs, 8);
    assert Serialize(fs, 6) == FieldBytes(fs[6]) + Serialize(fs, 7);
    assert Serialize(fs, 5) == FieldBytes(fs[5]) + Serialize(fs, 6);
    assert Serialize(fs, 4) == FieldBytes(fs[4]) + Serialize(fs, 5);
    assert Serialize(fs, 3) == FieldBytes(fs[3]) + Serialize(fs, 4);
    assert Serialize(fs, 2) == FieldBytes(fs[2]) + Serialize(fs, 3);
    assert Serialize(fs, 1) == FieldBytes(fs[1]) + Serialize(fs, 2);
  }

  /** The whole file: the header followed by the payload. */
  function WavFile(pcmData: seq<byte>, sampleRate: int, numChannels: int, bitDepth: int): (b: seq<byte>)
    ensures |b| == 44 + |pcmData|
  {
    WavHeaderBytes(|pcmData|, sampleRate, numChannels, bitDepth);
    WavHeader(|pcmData|, sampleRate, numChannels, bitDepth) + pcmData
  }

  /** `DataView.setUint32(offset, value, littleEndian)`: what comes before the offset is kept. */
  method SetUint32(view: array<byte>, offset: nat, value: int, littleEndian: bool)
    requires offset + 4 <= view.Length
    modifies view
    ensures view[..offset + 4] == old(view[..offset])
                                  + (if littleEndian then Le32(ToUint32(value)) else Be32(ToUint32(value)))
    ensures view[offset + 4..] == old(view[offset + 4..])
  {
    var bytes := if littleEndian then Le32(ToUint32(value)) else Be32(ToUint32(value));
    view[offset], view[offset + 1], view[offset + 2], view[offset + 3] := bytes[0], bytes[1], bytes[2], bytes[3];
  }

  /** `DataView.setUint16(offset, value, true)`: what comes before the offset is kept. */
  method SetUint16(view: array<byte>, offset: nat, value: int)
    requires offset + 2 <= view.Length
    modifies view
    ensures view[..offset + 2] == old(view[..offset]) + Le16(ToUint16(value))
    ensures view[offset + 2..] == old(view[offset + 2..])
  {
    var bytes := Le16(ToUint16(value));
    view[offset], view[offset + 1] := bytes[0], bytes[1];
  }

  /** The RIFF identifier, the file length and the RIFF type, written at offsets 0, 4 and 8. */
  method WriteRiffDescriptor(view: array<byte>, dataLength: nat)
    requires view.Length == 44
    modifies view
    ensures view[..12] == Be32(RiffId) + Le32(ToUint32(36 + dataLength)) + Be32(WaveId)
    ensures view[12..] == old(view[12..])
  {
    ghost var tail := view[12..];
    SetUint32(view, 0, RiffId, false);
    assert view[..4] == Be32(RiffId) && view[12..] == tail;
    SetUint32(view, 4, 36 + dataLength, true);
    assert view[..8] == Be32(RiffId) + Le32(ToUint32(36 + dataLength)) && view[12..] == tail;
    SetUint32(view, 8, WaveId, false);
  }

  /**
   * The format chunk, written at offsets 12 to 34 after the RIFF descriptor; the byte rate and
   * block align are the values the caller computed.
   */
  method WriteFmtChunk(view: array<byte>, sampleRate: int, numChannels: int, byteRate: int, blockAlign: int,
                       bitDepth: int)
    requires view.Length == 44
    modifies view
    ensures view[..36] == old(view[..12]) + Be32(FmtId) + Le32(16) + Le16(1) + Le16(ToUint16(numChannels))
                          + Le32(ToUint32(sampleRate)) + Le32(ToUint32(byteRate))
                          + Le16(ToUint16(blockAlign)) + Le16(ToUint16(bitDepth))
    ensures view[36..] == old(view[36..])
  {
    ghost var h := view[..12];
    ghost var tail := view[36..];
    SetUint32(view, 12, FmtId, false);
    h := h + Be32(FmtId);
    assert view[36..] == tail;
    SetUint32(view, 16, 16, true);
    h := h + Le32(16);
    assert view[..20] == h && view[36..] == tail;
    SetUint16(view, 20, 1);
    h := h + Le16(1);
    assert view[..22] == h && view[36..] == tail;
    SetUint16(view, 22, numChannels);
    h := h + Le16(ToUint16(numChannels));
    assert view[..24] == h && view[36..] == tail;
    SetUint32(view, 24, sampleRate, true);
    h := h + Le32(ToUint32(sampleRate));
    assert view[..28] == h && view[36..] == tail;
    SetUint32(view, 28, byteRate, true);
    h := h + Le32(ToUint32(byteRate));
    assert view[..32] == h && view[36..] == tail;
    SetUint16(view, 32, blockAlign);
    h := h + Le16(ToUint16(blockAlign));
    assert view[..34] == h && view[36..] == tail;
    SetUint16(view, 34, bitDepth);
    assert view[36..] == tail;
  }

  /** The data chunk identifier and length, written at offsets 36 and 40 after the format chunk. */
  method WriteDataChunkHeader(view: array<byte>, dataLength: nat)
    requires view.Length == 44
    modifies view
    ensures view[..] == old(view[..36]) + Be32(DataId) + Le32(ToUint32(dataLength))
  {
    SetUint32(view, 36, DataId, false);
    SetUint32(view, 40, dataLength, true);
    assert view[..] == view[..44];
  }

  /**
   * Builds the WAVE file for a PCM payload; the defaults are 24 kHz, mono, 16-bit. The header is
   * filled front to back, the thirteen setter calls grouped by the part of the header they fill.
   */
  method WrapPcmInWav(pcmData: array<byte>, sampleRate: int := 24000, numChannels: int := 1, bitDepth: int := 16)
    returns (blob: seq<byte>)
    ensures blob == WavFile(pcmData[..], sampleRate, numChannels, bitDepth)
  {
    var pcm := pcmData[..];
    var header := new byte[44];
    WriteRiffDescriptor(header, pcmData.Length);
    WriteFmtChunk(header, sampleRate, numChannels, ByteRate(sampleRate, numChannels, bitDepth),
                  BlockAlign(numChannels, bitDepth), bitDepth);
    WriteDataChunkHeader(header, pcmData.Length);
    assert header[..] == WavHeader(pcmData.Length, sampleRate, numChannels, bitDepth) by {
      WavHeaderBytes(pcmData.Length, sampleRate, numChannels, bitDepth);
      Reassociate(Be32(RiffId), Le32(ToUint32(36 + pcmData.Length)), Be32(WaveId), Be32(FmtId), Le32(16), Le16(1),
        Le16(ToUint16(numChannels)), Le32(ToUint32(sampleRate)), Le32(ToUint32(ByteRate(sampleRate, numChannels, bitDepth))),
        Le16(ToUint16(BlockAlign(numChannels, bitDepth))), Le16(ToUint16(bitDepth)), Be32(DataId),
        Le32(ToUint32(pcmData.Length)));
    }
    blob := header[..] + pcm;
  }

  // ---------------------------------------------------------------------------------------------
  // Reading a header back

  /** The fields of a canonical WAVE header, as a reader finds them, and the payload after it. */
  datatype WavInfo = WavInfo(
    riffSize: nat, fmtSize: nat, audioFormat: nat, numChannels: nat, sampleRate: nat,
    byteRate: nat, blockAlign: nat, bitsPerSample: nat, dataSize: nat, payload: seq<byte>)

  /** Reads a canonical 44-byte-header WAVE file; None unless it is long enough and its four identifiers are in place. */
  function ParseWav(b: seq<byte>): (r: Option<WavInfo>)
    ensures r.Some? ==> |b| == 44 + |r.value.payload| && r.value.payload == b[44..]
  {
    if |b| < 44 || b[0..4] != FourCC("RIFF") || b[8..12] != FourCC("WAVE")
       || b[12..16] != FourCC("fmt ") || b[36..40] != FourCC("data")
    then None
    else Some(WavInfo(
      ReadLe32(b[4..8]), ReadLe32(b[16..20]), ReadLe16(b[20..22]), ReadLe16(b[22..24]),
      ReadLe32(b[24..28]), ReadLe32(b[28..32]), ReadLe16(b[32..34]), ReadLe16(b[34..36]),
      ReadLe32(b[40..44]), b[44..]))
  }

  // Where each of thirteen parts of the header's widths, and what follows them, sit in their
  // concatenation. The four lemmas share one signature and each locates a few parts: one lemma
  // stating all fourteen slices at once is too costly for the solver to prove reliably.

  /** The RIFF descriptor's parts: bytes 0-11. */
  lemma HeaderParts1<T>(p1: seq<T>, p2: seq<T>, p3: seq<T>, p4: seq<T>, p5: seq<T>, p6: seq<T>, p7: seq<T>,
                         p8: seq<T>, p9: seq<T>, p10: seq<T>, p11: seq<T>, p12: seq<T>, p13: seq<T>, rest: seq<T>)
    requires |p1| == |p2| == |p3| == |p4| == |p5| == 4 && |p6| == |p7| == 2 && |p8| == |p9| == 4
    requires |p10| == |p11| == 2 && |p12| == |p13| == 4
    ensures var s := (p1 + (p2 + (p3 + (p4 + (p5 + (p6 + (p7 + (p8 + (p9 + (p10 + (p11 + (p12 + (p13 + []))))))))))))) + rest;
      s[0..4] == p1 && s[4..8] == p2 && s[8..12] == p3
  {
  }

  /** The format chunk's id, size, format and channel count: bytes 12-23. */
  lemma HeaderParts2<T>(p1: seq<T>, p2: seq<T>, p3: seq<T>, p4: seq<T>, p5: seq<T>, p6: seq<T>, p7: seq<T>,
                         p8: seq<T>, p9: seq<T>, p10: seq<T>, p11: seq<T>, p12: seq<T>, p13: seq<T>, rest: seq<T>)
    requires |p1| == |p2| == |p3| == |p4| == |p5| == 4 && |p6| == |p7| == 2 && |p8| == |p9| == 4
    requires |p10| == |p11| == 2 && |p12| == |p13| == 4
    ensures var s := (p1 + (p2 + (p3 + (p4 + (p5 + (p6 + (p7 + (p8 + (p9 + (p10 + (p11 + (p12 + (p13 + []))))))))))))) + rest;
      s[12..16] == p4 && s[16..20] == p5 && s[20..22] == p6 && s[22..24] == p7
  {
  }

  /** The sample rate, byte rate and block align: bytes 24-33. */
  lemma HeaderParts3<T>(p1: seq<T>, p2: seq<T>, p3: seq<T>, p4: seq<T>, p5: seq<T>, p6: seq<T>, p7: seq<T>,
                         p8: seq<T>, p9: seq<T>, p10: seq<T>, p11: seq<T>, p12: seq<T>, p13: seq<T>, rest: seq<T>)
    requires |p1| == |p2| == |p3| == |p4| == |p5| == 4 && |p6| == |p7| == 2 && |p8| == |p9| == 4
    requires |p10| == |p11| == 2 && |p12| == |p13| == 4
    ensures var s := (p1 + (p2 + (p3 + (p4 + (p5 + (p6 + (p7 + (p8 + (p9 + (p10 + (p11 + (p12 + (p13 + []))))))))))))) + rest;
      s[24..28] == p8 && s[28..32] == p9 && s[32..34] == p10
  {
  }

  /** The bit depth, the data chunk header and the payload: bytes 34 on. */
  lemma HeaderParts4<T>(p1: seq<T>, p2: seq<T>, p3: seq<T>, p4: seq<T>, p5: seq<T>, p6: seq<T>, p7: seq<T>,
                         p8: seq<T>, p9: seq<T>, p10: seq<T>, p11: seq<T>, p12: seq<T>, p13: seq<T>, rest: seq<T>)
    requires |p1| == |p2| == |p3| == |p4| == |p5| == 4 && |p6| == |p7| == 2 && |p8| == |p9| == 4
    requires |p10| == |p11| == 2 && |p12| == |p13| == 4
    ensures var s := (p1 + (p2 + (p3 + (p4 + (p5 + (p6 + (p7 + (p8 + (p9 + (p10 + (p11 + (p12 + (p13 + []))))))))))))) + rest;
      s[34..36] == p11 && s[36..40] == p12 && s[40..44] == p13 && s[44..] == rest
  {
  }

  // Left-nested and right-nested concatenations of thirteen parts agree.
  lemma Reassociate<T>(p1: seq<T>, p2: seq<T>, p3: seq<T>, p4: seq<T>, p5: seq<T>, p6: seq<T>, p7: seq<T>,
                       p8: seq<T>, p9: seq<T>, p10: seq<T>, p11: seq<T>, p12: seq<T>, p13: seq<T>)
    ensures p1 + p2 + p3 + p4 + p5 + p6 + p7 + p8 + p9 + p10 + p11 + p12 + p13
         == p1 + (p2 + (p3 + (p4 + (p5 + (p6 + (p7 + (p8 + (p9 + (p10 + (p11 + (p12 + (p13 + []))))))))))))
  {
  }

  /** Where each header field and the payload sit in the file WrapPcmInWav builds. */
  lemma WavFileFields(pcmData: seq<byte>, sampleRate: int, numChannels: int, bitDepth: int)
    ensures var b := WavFile(pcmData, sampleRate, numChannels, bitDepth);
      && |b| == 44 + |pcmData| && b[44..] == pcmData
      && b[0..4] == Be32(RiffId) && b[4..8] == Le32(ToUint32(36 + |pcmData|)) && b[8..12] == Be32(WaveId)
      && b[12..16] == Be32(FmtId) && b[16..20] == Le32(16) && b[20..22] == Le16(1)
      && b[22..24] == Le16(ToUint16(numChannels)) && b[24..28] == Le32(ToUint32(sampleRate))
      && b[28..32] == Le32(ToUint32(ByteRate(sampleRate, numChannels, bitDepth)))
      && b[32..34] == Le16(ToUint16(BlockAlign(numChannels, bitDepth))) && b[34..36] == Le16(ToUint16(bitDepth))
      && b[36..40] == Be32(DataId) && b[40..44] == Le32(ToUint32(|pcmData|))
  {
    var p1, p2, p3, p4 := Be32(RiffId), Le32(ToUint32(36 + |pcmData|)), Be32(WaveId), Be32(FmtId);
    var p5, p6, p7, p8 := Le32(16), Le16(1), Le16(ToUint16(numChannels)), Le32(ToUint32(sampleRate));
    var p9 := Le32(ToUint32(ByteRate(sampleRate, numChannels, bitDepth)));
    var p10, p11 := Le16(ToUint16(BlockAlign(numChannels, bitDepth))), Le16(ToUint16(bitDepth));
    var p12, p13 := Be32(DataId), Le32(ToUint32(|pcmData|));
    WavHeaderBytes(|pcmData|, sampleRate, numChannels, bitDepth);
    HeaderParts1(p1, p2, p3, p4, p5, p6, p7, p8, p9, p10, p11, p12, p13, pcmData);
    HeaderParts2(p1, p2, p3, p4, p5, p6, p7, p8, p9, p10, p11, p12, p13, pcmData);
    HeaderParts3(p1, p2, p3, p4, p5, p6, p7, p8, p9, p10, p11, p12, p13, pcmData);
    HeaderParts4(p1, p2, p3, p4, p5, p6, p7, p8, p9, p10, p11, p12, p13, pcmData);
  }

  /**
   * Reading back what WrapPcmInWav writes: the identifiers are in place, the payload is the input
   * unchanged, and every field holds its value as the setter converted it.
   */
  lemma ParseWavFile(pcmData: seq<byte>, sampleRate: int, numChannels: int, bitDepth: int)
    ensures ParseWav(WavFile(pcmData, sampleRate, numChannels, bitDepth)) == Some(WavInfo(
      ToUint32(36 + |pcmData|), 16, 1, ToUint16(numChannels), ToUint32(sampleRate),
      ToUint32(ByteRate(sampleRate, numChannels, bitDepth)), ToUint16(BlockAlign(numChannels, bitDepth)),
      ToUint16(bitDepth), ToUint32(|pcmData|), pcmData))
  {
    WavFileFields(pcmData, sampleRate, numChannels, bitDepth);
    ChunkIdsSpellAscii();
    Le32ReadsBack(ToUint32(36 + |pcmData|));
    Le32ReadsBack(16);
    Le16ReadsBack(1);
    Le16ReadsBack(ToUint16(numChannels));
    Le32ReadsBack(ToUint32(sampleRate));
    Le32ReadsBack(ToUint32(ByteRate(sampleRate, numChannels, bitDepth)));
    Le16ReadsBack(ToUint16(BlockAlign(numChannels, bitDepth)));
    Le16ReadsBack(ToUint16(bitDepth));
    Le32ReadsBack(ToUint32(|pcmData|));
  }

  /**
   * When every value fits its field and the bit depth is whole bytes, the header holds the exact
   * values: RIFF size = data size + 36, byte rate = sample rate * block align.
   */
  lemma WavFieldsExact(pcmData: seq<byte>, sampleRate: nat, numChannels: nat, bitDepth: nat)
    requires 36 + |pcmData| < TwoTo32 && sampleRate < TwoTo32 && numChannels < TwoTo16
    requires bitDepth < TwoTo16 && bitDepth % 8 == 0
    requires numChannels * (bitDepth / 8) < TwoTo16 && sampleRate * (numChannels * (bitDepth / 8)) < TwoTo32
    ensures ParseWav(WavFile(pcmData, sampleRate, numChannels, bitDepth)).Some?
    ensures var w := ParseWav(WavFile(pcmData, sampleRate, numChannels, bitDepth)).value;
      && w.riffSize == w.dataSize + 36 && w.dataSize == |pcmData|
      && w.fmtSize == 16 && w.audioFormat == 1
      && w.numChannels == numChannels && w.sampleRate == sampleRate && w.bitsPerSample == bitDepth
      && w.blockAlign == numChannels * (bitDepth / 8)
      && w.byteRate == sampleRate * (numChannels * (bitDepth / 8))
      && w.byteRate == w.sampleRate * w.blockAlign
      && w.payload == pcmData
  {
    ParseWavFile(pcmData, sampleRate, numChannels, bitDepth);
    var align := numChannels * (bitDepth / 8);
    var rate := sampleRate * align;
    assert BlockAlign(numChannels, bitDepth) == align && ByteRate(sampleRate, numChannels, bitDepth) == rate by {
      WholeByteRates(sampleRate, numChannels, bitDepth);
    }
    NonNegProduct(numChannels, bitDepth / 8);
    NonNegProduct(sampleRate, align);
    ToUint32Wraps(36 + |pcmData|);
    ToUint32Wraps(|pcmData|);
    ToUint32Wraps(sampleRate);
    ToUint32Wraps(rate);
    ToUint16Wraps(numChannels);
    ToUint16Wraps(bitDepth);
    ToUint16Wraps(align);
  }

  lemma NonNegProduct(a: nat, b: nat)
    ensures a * b >= 0
  {
  }

  /** With a bit depth that is a whole number of bytes, the two divisions by eight are exact. */
  lemma WholeByteRates(sampleRate: nat, numChannels: nat, bitDepth: nat)
    requires bitDepth % 8 == 0
    ensures BlockAlign(numChannels, bitDepth) == numChannels * bitDepth / 8 == numChannels * (bitDepth / 8)
    ensures ByteRate(sampleRate, numChannels, bitDepth) == sampleRate * numChannels * bitDepth / 8
            == sampleRate * (numChannels * (bitDepth / 8))
  {
    var k := bitDepth / 8;
    assert bitDepth == 8 * k;
    var align := numChannels * k;
    assert numChannels * bitDepth == 8 * align by { ScaledByEight(numChannels, k); }
    assert sampleRate * numChannels * bitDepth == 8 * (sampleRate * align) by {
      ScaledByEight(sampleRate * numChannels, k);
      assert sampleRate * numChannels * k == sampleRate * align;
    }
    assert align >= 0 && sampleRate * align >= 0;
  }

  /** A product with a whole number of bytes' worth of bits, divided by eight. */
  lemma ScaledByEight(x: int, k: nat)
    ensures x * (8 * k) == 8 * (x * k)
  {
  }

  /**
   * The defaults (24 kHz, mono, 16-bit) on any payload that fits: RIFF size = payload + 36,
   * byte rate 48000, block align 2, data size = payload length.
   */
  lemma DefaultWav(pcmData: seq<byte>)
    requires 36 + |pcmData| < TwoTo32
    ensures |WavFile(pcmData, 24000, 1, 16)| == 44 + |pcmData|
    ensures ParseWav(WavFile(pcmData, 24000, 1, 16))
            == Some(WavInfo(36 + |pcmData|, 16, 1, 1, 24000, 48000, 2, 16, |pcmData|, pcmData))
  {
    WavFieldsExact(pcmData, 24000, 1, 16);
  }
}
