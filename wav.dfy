/**
  The canonical 44-byte RIFF/WAVE header for uncompressed PCM audio, as
  `pcmToWav` in api/tts.js lays it out, and what can be read back from it.

    offset size field          value
         0    4 ChunkID        "RIFF"
         4    4 ChunkSize      36 + payload size
         8    4 Format         "WAVE"
        12    4 Subchunk1ID    "fmt "
        16    4 Subchunk1Size  16
        20    2 AudioFormat    1 (PCM)
        22    2 NumChannels    numChannels
        24    4 SampleRate     sampleRate
        28    4 ByteRate       sampleRate * numChannels * bitDepth / 8
        32    2 BlockAlign     numChannels * bitDepth / 8
        34    2 BitsPerSample  bitDepth
        36    4 Subchunk2ID    "data"
        40    4 Subchunk2Size  payload size
        44    n Data           the payload, verbatim

  All numeric fields are unsigned little-endian.
 */
module Wav {
  import opened LittleEndian

  datatype Option<T> = None | Some(value: T)

  /** The bytes `Buffer.write` stores for a string of ASCII characters. */
  function Ascii(s: string): (bs: seq<uint8>)
    requires forall i :: 0 <= i < |s| ==> s[i] < 128 as char
    ensures |bs| == |s|
    ensures forall i :: 0 <= i < |s| ==> bs[i] == s[i] as int
  {
    if s == [] then [] else [s[0] as int] + Ascii(s[1..])
  }

  const HeaderSize: nat := 44

  /** The four chunk tags, as `header.write` stores them. */
  const RiffId: seq<uint8> := Ascii("RIFF")
  const WaveId: seq<uint8> := Ascii("WAVE")
  const FmtId: seq<uint8> := Ascii("fmt ")
  const DataId: seq<uint8> := Ascii("data")

  /** The character codes of the four chunk tags. */
  lemma TagBytes()
    ensures RiffId == [0x52, 0x49, 0x46, 0x46]
    ensures WaveId == [0x57, 0x41, 0x56, 0x45]
    ensures FmtId == [0x66, 0x6D, 0x74, 0x20]
    ensures DataId == [0x64, 0x61, 0x74, 0x61]
  {
  }

  /** BlockAlign: bytes per frame, one sample of every channel. */
  function BlockAlign(numChannels: nat, bitDepth: nat): (k: nat)
    ensures 8 * k <= numChannels * bitDepth < 8 * k + 8
  {
    numChannels * bitDepth / 8
  }

  /** ByteRate: bytes per second of audio, computed left to right as the source does. */
  function ByteRate(sampleRate: nat, numChannels: nat, bitDepth: nat): (k: nat)
    ensures 8 * k <= sampleRate * numChannels * bitDepth < 8 * k + 8
  {
    sampleRate * numChannels * bitDepth / 8
  }

  /**
    The inputs for which every write in `pcmToWav` is in range (Node's
    `writeUInt16LE` and `writeUInt32LE` throw a RangeError otherwise) and the
    two divisions by 8 are exact.
   */
  predicate Encodable(dataSize: nat, numChannels: nat, sampleRate: nat, bitDepth: nat)
    ensures Encodable(dataSize, numChannels, sampleRate, bitDepth) ==>
      && 8 * BlockAlign(numChannels, bitDepth) == numChannels * bitDepth
      && ByteRate(sampleRate, numChannels, bitDepth) == sampleRate * BlockAlign(numChannels, bitDepth)
  {
    && 36 + dataSize < 0x1_0000_0000
    && numChannels < 0x1_0000
    && sampleRate < 0x1_0000_0000
    && bitDepth < 0x1_0000
    && (numChannels * bitDepth) % 8 == 0
    && (ByteRateIsSampleRateTimesBlockAlign(sampleRate, numChannels, bitDepth); true)
    && BlockAlign(numChannels, bitDepth) < 0x1_0000
    && ByteRate(sampleRate, numChannels, bitDepth) < 0x1_0000_0000
  }

  /** When a frame is a whole number of bytes, ByteRate is SampleRate times BlockAlign. */
  lemma ByteRateIsSampleRateTimesBlockAlign(sampleRate: nat, numChannels: nat, bitDepth: nat)
    requires (numChannels * bitDepth) % 8 == 0
    ensures ByteRate(sampleRate, numChannels, bitDepth) == sampleRate * BlockAlign(numChannels, bitDepth)
  {
    var k := BlockAlign(numChannels, bitDepth);
    assert numChannels * bitDepth == 8 * k;
    calc {
      sampleRate * numChannels * bitDepth;
      sampleRate * (numChannels * bitDepth);
      (sampleRate * k) * 8;
    }
  }

  /** The 44 header bytes `pcmToWav` writes for a payload of dataSize bytes. */
  function WavHeader(dataSize: nat, numChannels: nat, sampleRate: nat, bitDepth: nat): (h: seq<uint8>)
    requires Encodable(dataSize, numChannels, sampleRate, bitDepth)
    ensures |h| == HeaderSize
  {
    RiffId + LE32(36 + dataSize) + WaveId + FmtId
    + LE32(16) + LE16(1) + LE16(numChannels) + LE32(sampleRate)
    + LE32(ByteRate(sampleRate, numChannels, bitDepth)) + LE16(BlockAlign(numChannels, bitDepth))
    + LE16(bitDepth) + DataId + LE32(dataSize)
  }

  /** The WAV file `pcmToWav` returns: the header followed by the payload. */
  function Encode(pcm: seq<uint8>, numChannels: nat, sampleRate: nat, bitDepth: nat): (w: seq<uint8>)
    requires Encodable(|pcm|, numChannels, sampleRate, bitDepth)
    ensures |w| == HeaderSize + |pcm|
  {
    WavHeader(|pcm|, numChannels, sampleRate, bitDepth) + pcm
  }

  /** Each field of the header sits at its offset. */
  lemma HeaderLayout(dataSize: nat, numChannels: nat, sampleRate: nat, bitDepth: nat)
    requires Encodable(dataSize, numChannels, sampleRate, bitDepth)
    ensures var h := WavHeader(dataSize, numChannels, sampleRate, bitDepth);
      && h[0..4] == RiffId
      && h[4..8] == LE32(36 + dataSize)
      && h[8..12] == WaveId
      && h[12..16] == FmtId
      && h[16..20] == LE32(16)
      && h[20..22] == LE16(1)
      && h[22..24] == LE16(numChannels)
      && h[24..28] == LE32(sampleRate)
      && h[28..32] == LE32(ByteRate(sampleRate, numChannels, bitDepth))
      && h[32..34] == LE16(BlockAlign(numChannels, bitDepth))
      && h[34..36] == LE16(bitDepth)
      && h[36..40] == DataId
      && h[40..44] == LE32(dataSize)
  {
    var h := WavHeader(dataSize, numChannels, sampleRate, bitDepth);
    var p1 := RiffId;
    var p2 := p1 + LE32(36 + dataSize);
    var p3 := p2 + WaveId;
    var p4 := p3 + FmtId;
    var p5 := p4 + LE32(16);
    var p6 := p5 + LE16(1);
    var p7 := p6 + LE16(numChannels);
    var p8 := p7 + LE32(sampleRate);
    var p9 := p8 + LE32(ByteRate(sampleRate, numChannels, bitDepth));
    var p10 := p9 + LE16(BlockAlign(numChannels, bitDepth));
    var p11 := p10 + LE16(bitDepth);
    var p12 := p11 + DataId;
    assert h[..44] == p12 + LE32(dataSize);
    Peel(h, p12, LE32(dataSize));
    Peel(h, p11, DataId);
    Peel(h, p10, LE16(bitDepth));
    Peel(h, p9, LE16(BlockAlign(numChannels, bitDepth)));
    Peel(h, p8, LE32(ByteRate(sampleRate, numChannels, bitDepth)));
    Peel(h, p7, LE32(sampleRate));
    Peel(h, p6, LE16(numChannels));
    Peel(h, p5, LE16(1));
    Peel(h, p4, LE32(16));
    Peel(h, p3, FmtId);
    Peel(h, p2, WaveId);
    Peel(h, p1, LE32(36 + dataSize));
    Peel(h, [], RiffId);
  }

  /** If s begins with p + f, then f sits in s right after p, and s begins with p. */
  lemma Peel(s: seq<uint8>, p: seq<uint8>, f: seq<uint8>)
    requires |p| + |f| <= |s| && s[..|p| + |f|] == p + f
    ensures s[|p|..|p| + |f|] == f && s[..|p|] == p
  {
    assert s[|p|..|p| + |f|] == s[..|p| + |f|][|p|..];
    assert s[..|p|] == s[..|p| + |f|][..|p|];
  }

  /** The file is the header for |pcm| bytes followed by pcm itself, unchanged. */
  lemma EncodeSplits(pcm: seq<uint8>, numChannels: nat, sampleRate: nat, bitDepth: nat)
    requires Encodable(|pcm|, numChannels, sampleRate, bitDepth)
    ensures var w := Encode(pcm, numChannels, sampleRate, bitDepth);
      && w[..HeaderSize] == WavHeader(|pcm|, numChannels, sampleRate, bitDepth)
      && w[HeaderSize..] == pcm
  {
  }

  /** The file's header fields, at their offsets. */
  lemma EncodeLayout(pcm: seq<uint8>, numChannels: nat, sampleRate: nat, bitDepth: nat)
    requires Encodable(|pcm|, numChannels, sampleRate, bitDepth)
    ensures var w := Encode(pcm, numChannels, sampleRate, bitDepth);
      && w[0..4] == RiffId
      && w[4..8] == LE32(36 + |pcm|)
      && w[8..12] == WaveId
      && w[12..16] == FmtId
      && w[16..20] == LE32(16)
      && w[20..22] == LE16(1)
      && w[22..24] == LE16(numChannels)
      && w[24..28] == LE32(sampleRate)
      && w[28..32] == LE32(ByteRate(sampleRate, numChannels, bitDepth))
      && w[32..34] == LE16(BlockAlign(numChannels, bitDepth))
      && w[34..36] == LE16(bitDepth)
      && w[36..40] == DataId
      && w[40..44] == LE32(|pcm|)
  {
    HeaderLayout(|pcm|, numChannels, sampleRate, bitDepth);
    var w := Encode(pcm, numChannels, sampleRate, bitDepth);
    var h := WavHeader(|pcm|, numChannels, sampleRate, bitDepth);
    assert forall i, j :: 0 <= i <= j <= HeaderSize ==> w[i..j] == h[i..j];
  }

  /** Bytes 0-3, 8-11, 12-15 and 36-39 hold the ASCII tags "RIFF", "WAVE", "fmt " and "data". */
  lemma ChunkTags(pcm: seq<uint8>, numChannels: nat, sampleRate: nat, bitDepth: nat)
    requires Encodable(|pcm|, numChannels, sampleRate, bitDepth)
    ensures var w := Encode(pcm, numChannels, sampleRate, bitDepth);
      && w[0..4] == [0x52, 0x49, 0x46, 0x46]
      && w[8..12] == [0x57, 0x41, 0x56, 0x45]
      && w[12..16] == [0x66, 0x6D, 0x74, 0x20]
      && w[36..40] == [0x64, 0x61, 0x74, 0x61]
  {
    TagBytes();
    EncodeLayout(pcm, numChannels, sampleRate, bitDepth);
  }

  /** ChunkSize (offset 4) is 36 + |pcm| and Subchunk2Size (offset 40) is |pcm|. */
  lemma ChunkSizes(pcm: seq<uint8>, numChannels: nat, sampleRate: nat, bitDepth: nat)
    requires Encodable(|pcm|, numChannels, sampleRate, bitDepth)
    ensures var w := Encode(pcm, numChannels, sampleRate, bitDepth);
      && ReadLE32(w, 4) == 36 + |pcm|
      && ReadLE32(w, 40) == |pcm|
      && ReadLE32(w, 4) == |w| - 8
  {
    var w := Encode(pcm, numChannels, sampleRate, bitDepth);
    EncodeLayout(pcm, numChannels, sampleRate, bitDepth);
    ReadLE32Written(w, 4, 36 + |pcm|);
    ReadLE32Written(w, 40, |pcm|);
  }

  /**
    Subchunk1Size (offset 16) is 16 and AudioFormat (offset 20) is 1, PCM,
    whatever the payload and parameters.
   */
  lemma PcmFormatTag(pcm: seq<uint8>, numChannels: nat, sampleRate: nat, bitDepth: nat)
    requires Encodable(|pcm|, numChannels, sampleRate, bitDepth)
    ensures var w := Encode(pcm, numChannels, sampleRate, bitDepth);
      && ReadLE32(w, 16) == 16
      && ReadLE16(w, 20) == 1
  {
    var w := Encode(pcm, numChannels, sampleRate, bitDepth);
    EncodeLayout(pcm, numChannels, sampleRate, bitDepth);
    ReadLE32Written(w, 16, 16);
    ReadLE16Written(w, 20, 1);
  }

  /** NumChannels, SampleRate and BitsPerSample read back as the values passed in. */
  lemma ParametersRoundTrip(pcm: seq<uint8>, numChannels: nat, sampleRate: nat, bitDepth: nat)
    requires Encodable(|pcm|, numChannels, sampleRate, bitDepth)
    ensures var w := Encode(pcm, numChannels, sampleRate, bitDepth);
      && ReadLE16(w, 22) == numChannels
      && ReadLE32(w, 24) == sampleRate
      && ReadLE16(w, 34) == bitDepth
  {
    var w := Encode(pcm, numChannels, sampleRate, bitDepth);
    EncodeLayout(pcm, numChannels, sampleRate, bitDepth);
    ReadLE16Written(w, 22, numChannels);
    ReadLE32Written(w, 24, sampleRate);
    ReadLE16Written(w, 34, bitDepth);
  }

  /**
    ByteRate (offset 28) is sampleRate * numChannels * bitDepth / 8, BlockAlign
    (offset 32) is numChannels * bitDepth / 8, and the file's ByteRate is its
    SampleRate times its BlockAlign.
   */
  lemma DerivedRates(pcm: seq<uint8>, numChannels: nat, sampleRate: nat, bitDepth: nat)
    requires Encodable(|pcm|, numChannels, sampleRate, bitDepth)
    ensures var w := Encode(pcm, numChannels, sampleRate, bitDepth);
      && ReadLE32(w, 28) == sampleRate * numChannels * bitDepth / 8
      && ReadLE16(w, 32) == numChannels * bitDepth / 8
      && ReadLE32(w, 28) == ReadLE32(w, 24) * ReadLE16(w, 32)
  {
    var w := Encode(pcm, numChannels, sampleRate, bitDepth);
    EncodeLayout(pcm, numChannels, sampleRate, bitDepth);
    ReadLE32Written(w, 28, ByteRate(sampleRate, numChannels, bitDepth));
    ReadLE16Written(w, 32, BlockAlign(numChannels, bitDepth));
    ParametersRoundTrip(pcm, numChannels, sampleRate, bitDepth);
    ByteRateIsSampleRateTimesBlockAlign(sampleRate, numChannels, bitDepth);
  }

  /** Everything from offset 44 on is the payload, byte for byte. */
  lemma PayloadVerbatim(pcm: seq<uint8>, numChannels: nat, sampleRate: nat, bitDepth: nat)
    requires Encodable(|pcm|, numChannels, sampleRate, bitDepth)
    ensures var w := Encode(pcm, numChannels, sampleRate, bitDepth);
      forall i :: 0 <= i < |pcm| ==> w[HeaderSize + i] == pcm[i]
  {
  }

  /** The header depends on the payload's length only, never on its bytes. */
  lemma HeaderIgnoresSampleValues(pcm: seq<uint8>, pcm': seq<uint8>, numChannels: nat, sampleRate: nat, bitDepth: nat)
    requires Encodable(|pcm|, numChannels, sampleRate, bitDepth)
    requires |pcm'| == |pcm|
    ensures Encode(pcm, numChannels, sampleRate, bitDepth)[..HeaderSize]
         == Encode(pcm', numChannels, sampleRate, bitDepth)[..HeaderSize]
  {
    EncodeSplits(pcm, numChannels, sampleRate, bitDepth);
    EncodeSplits(pcm', numChannels, sampleRate, bitDepth);
  }

  /** The header fields of a WAV file, as a reader finds them. */
  datatype Header = Header(
    chunkSize: uint32,
    subchunk1Size: uint32,
    audioFormat: uint16,
    numChannels: uint16,
    sampleRate: uint32,
    byteRate: uint32,
    blockAlign: uint16,
    bitsPerSample: uint16,
    subchunk2Size: uint32)

  /**
    Reads the fields of a canonical 44-byte header; None when the input is
    shorter than a header or one of the four chunk tags is wrong.
   */
  function ParseHeader(w: seq<uint8>): (r: Option<Header>)
    ensures r.Some? <==>
      && |w| >= HeaderSize
      && w[..4] == RiffId && w[8..12] == WaveId && w[12..16] == FmtId && w[36..40] == DataId
    ensures r.Some? ==> LE32(r.value.chunkSize) == w[4..8] && LE32(r.value.subchunk2Size) == w[40..44]
  {
    if |w| < HeaderSize
       || w[..4] != RiffId || w[8..12] != WaveId
       || w[12..16] != FmtId || w[36..40] != DataId
    then None
    else
      LE32OfRead(w, 4);
      LE32OfRead(w, 40);
      Some(Header(ReadLE32(w, 4), ReadLE32(w, 16), ReadLE16(w, 20), ReadLE16(w, 22),
                     ReadLE32(w, 24), ReadLE32(w, 28), ReadLE16(w, 32), ReadLE16(w, 34),
                     ReadLE32(w, 40)))
  }

  /** A header `pcmToWav` writes for a payload of dataSize bytes, for some parameters. */
  predicate Canonical(h: Header, dataSize: nat)
    ensures Canonical(h, dataSize) ==> h.byteRate == h.sampleRate * h.blockAlign
  {
    && h.chunkSize == 36 + dataSize
    && h.subchunk1Size == 16
    && h.audioFormat == 1
    && (h.numChannels * h.bitsPerSample) % 8 == 0
    && (ByteRateIsSampleRateTimesBlockAlign(h.sampleRate, h.numChannels, h.bitsPerSample); true)
    && h.blockAlign == BlockAlign(h.numChannels, h.bitsPerSample)
    && h.byteRate == ByteRate(h.sampleRate, h.numChannels, h.bitsPerSample)
    && h.subchunk2Size == dataSize
  }

  /** Reading an encoded file gives back the parameters, the sizes and the payload. */
  lemma ParseEncode(pcm: seq<uint8>, numChannels: nat, sampleRate: nat, bitDepth: nat)
    requires Encodable(|pcm|, numChannels, sampleRate, bitDepth)
    ensures var w := Encode(pcm, numChannels, sampleRate, bitDepth);
      && ParseHeader(w) == Some(Header(36 + |pcm|, 16, 1, numChannels, sampleRate,
                                       ByteRate(sampleRate, numChannels, bitDepth),
                                       BlockAlign(numChannels, bitDepth), bitDepth, |pcm|))
      && Canonical(ParseHeader(w).value, |pcm|)
      && w[HeaderSize..] == pcm
  {
    EncodeLayout(pcm, numChannels, sampleRate, bitDepth);
    EncodeSplits(pcm, numChannels, sampleRate, bitDepth);
    ChunkSizes(pcm, numChannels, sampleRate, bitDepth);
    PcmFormatTag(pcm, numChannels, sampleRate, bitDepth);
    ParametersRoundTrip(pcm, numChannels, sampleRate, bitDepth);
    DerivedRates(pcm, numChannels, sampleRate, bitDepth);
  }

  /**
    Conversely, every file whose header is canonical for the bytes after it is
    exactly what `pcmToWav` makes of those bytes and the header's parameters.
   */
  lemma EncodeParse(w: seq<uint8>)
    requires ParseHeader(w).Some?
    requires Canonical(ParseHeader(w).value, |w| - HeaderSize)
    ensures var h := ParseHeader(w).value;
      && Encodable(|w| - HeaderSize, h.numChannels, h.sampleRate, h.bitsPerSample)
      && Encode(w[HeaderSize..], h.numChannels, h.sampleRate, h.bitsPerSample) == w
  {
    var h := ParseHeader(w).value;
    var n := |w| - HeaderSize;
    assert Encodable(n, h.numChannels, h.sampleRate, h.bitsPerSample);
    LE32OfRead(w, 4);
    LE32OfRead(w, 16);
    LE16OfRead(w, 20);
    LE16OfRead(w, 22);
    LE32OfRead(w, 24);
    LE32OfRead(w, 28);
    LE16OfRead(w, 32);
    LE16OfRead(w, 34);
    LE32OfRead(w, 40);
    HeaderOfFields(w, n, h.numChannels, h.sampleRate, h.bitsPerSample);
    assert w == w[..HeaderSize] + w[HeaderSize..];
  }

  /** Bytes holding the thirteen fields at their offsets are the header. */
  lemma HeaderOfFields(w: seq<uint8>, dataSize: nat, numChannels: nat, sampleRate: nat, bitDepth: nat)
    requires Encodable(dataSize, numChannels, sampleRate, bitDepth)
    requires |w| >= HeaderSize
    requires && w[0..4] == RiffId
             && w[4..8] == LE32(36 + dataSize)
             && w[8..12] == WaveId
             && w[12..16] == FmtId
             && w[16..20] == LE32(16)
             && w[20..22] == LE16(1)
             && w[22..24] == LE16(numChannels)
             && w[24..28] == LE32(sampleRate)
             && w[28..32] == LE32(ByteRate(sampleRate, numChannels, bitDepth))
             && w[32..34] == LE16(BlockAlign(numChannels, bitDepth))
             && w[34..36] == LE16(bitDepth)
             && w[36..40] == DataId
             && w[40..44] == LE32(dataSize)
    ensures w[..HeaderSize] == WavHeader(dataSize, numChannels, sampleRate, bitDepth)
  {
    assert w[..4] == w[0..4];
    Extend(w, 4, 8);
    Extend(w, 8, 12);
    Extend(w, 12, 16);
    Extend(w, 16, 20);
    Extend(w, 20, 22);
    Extend(w, 22, 24);
    Extend(w, 24, 28);
    Extend(w, 28, 32);
    Extend(w, 32, 34);
    Extend(w, 34, 36);
    Extend(w, 36, 40);
    Extend(w, 40, 44);
  }

  /** s up to j is s up to i followed by s from i to j. */
  lemma Extend(s: seq<uint8>, i: nat, j: nat)
    requires i <= j <= |s|
    ensures s[..j] == s[..i] + s[i..j]
  {
  }

  /** The parameters the request handler passes: mono, 24000 Hz, 16-bit. */
  lemma HandlerFormat(pcm: seq<uint8>)
    requires 36 + |pcm| < 0x1_0000_0000
    ensures Encodable(|pcm|, 1, 24000, 16)
    ensures var w := Encode(pcm, 1, 24000, 16);
      && ReadLE16(w, 22) == 1
      && ReadLE32(w, 24) == 24000
      && ReadLE32(w, 28) == 48000
      && ReadLE16(w, 32) == 2
      && ReadLE16(w, 34) == 16
  {
    ParametersRoundTrip(pcm, 1, 24000, 16);
    DerivedRates(pcm, 1, 24000, 16);
  }

  /** An empty payload in the handler's format gives a bare 44-byte header. */
  lemma EmptyHandlerFile()
    ensures Encodable(0, 1, 24000, 16)
    ensures var w := Encode([], 1, 24000, 16);
      && |w| == 44
      && ReadLE32(w, 4) == 36
      && ReadLE32(w, 40) == 0
      && ReadLE16(w, 22) == 1
      && ReadLE32(w, 24) == 24000
      && ReadLE16(w, 34) == 16
  {
    ChunkSizes([], 1, 24000, 16);
    ParametersRoundTrip([], 1, 24000, 16);
  }

  /** A four-byte payload gives a 48-byte file that ends with those four bytes. */
  lemma FourByteHandlerFile()
    ensures Encodable(4, 1, 24000, 16)
    ensures var w := Encode([0x01, 0x02, 0x03, 0x04], 1, 24000, 16);
      && |w| == 48
      && ReadLE32(w, 40) == 4
      && w[44..] == [0x01, 0x02, 0x03, 0x04]
  {
    ChunkSizes([0x01, 0x02, 0x03, 0x04], 1, 24000, 16);
  }

  /** Stereo 16-bit at 44100 Hz: ByteRate 176400 and BlockAlign 4. */
  lemma StereoCdFormat(pcm: seq<uint8>)
    requires 36 + |pcm| < 0x1_0000_0000
    ensures Encodable(|pcm|, 2, 44100, 16)
    ensures var w := Encode(pcm, 2, 44100, 16);
      && ReadLE32(w, 28) == 176400
      && ReadLE16(w, 32) == 4
  {
    DerivedRates(pcm, 2, 44100, 16);
  }
}
