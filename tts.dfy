/**
  `pcmToWav` from api/tts.js: allocate a zero-filled 44-byte header buffer,
  write the fields into it in place at their fixed offsets, then return the
  concatenation of the header and the PCM buffer. The Node `Buffer` operations
  it calls are modelled on `array<uint8>`; each write is specified as splicing
  its bytes into the buffer at the offset and leaving every other byte alone.
 */
module Tts {
  import opened LittleEndian
  import opened Wav

  /**
    `buf.write(tag, offset)` for one of the four-letter ASCII chunk tags:
    stores the tag's bytes from offset on.
   */
  method Write(buf: array<uint8>, tag: seq<uint8>, offset: nat)
    requires offset + |tag| <= buf.Length
    modifies buf
    ensures buf[..offset + |tag|] == old(buf[..offset]) + tag
    ensures buf[offset + |tag|..] == old(buf[offset + |tag|..])
  {
    forall i | 0 <= i < |tag| {
      buf[offset + i] := tag[i];
    }
    assert buf[..offset + |tag|] == buf[..offset] + buf[offset..offset + |tag|];
  }

  /** `buf.writeUInt16LE(value, offset)`: the low byte at offset, the high byte after it. */
  method WriteUInt16LE(buf: array<uint8>, value: uint16, offset: nat)
    requires offset + 2 <= buf.Length
    modifies buf
    ensures buf[..offset + 2] == old(buf[..offset]) + LE16(value)
    ensures buf[offset + 2..] == old(buf[offset + 2..])
  {
    buf[offset] := value % 0x100;
    buf[offset + 1] := value / 0x100;
    LE16Bytes(value);
    assert buf[..offset + 2] == buf[..offset] + [buf[offset], buf[offset + 1]];
  }

  /** `buf.writeUInt32LE(value, offset)`: the four bytes from the least significant up. */
  method WriteUInt32LE(buf: array<uint8>, value: uint32, offset: nat)
    requires offset + 4 <= buf.Length
    modifies buf
    ensures buf[..offset + 4] == old(buf[..offset]) + LE32(value)
    ensures buf[offset + 4..] == old(buf[offset + 4..])
  {
    buf[offset] := value % 0x100;
    buf[offset + 1] := value / 0x100 % 0x100;
    buf[offset + 2] := value / 0x1_0000 % 0x100;
    buf[offset + 3] := value / 0x100_0000;
    LE32Bytes(value);
    assert buf[..offset + 4] == buf[..offset] + [buf[offset], buf[offset + 1], buf[offset + 2], buf[offset + 3]];
  }

  /** `Buffer.concat([a, b])`: a new buffer holding a's bytes, then b's. */
  method Concat(a: array<uint8>, b: array<uint8>) returns (r: array<uint8>)
    ensures fresh(r)
    ensures r[..] == a[..] + b[..]
  {
    r := new uint8[a.Length + b.Length];
    var i := 0;
    while i < a.Length
      invariant 0 <= i <= a.Length
      invariant r[..i] == a[..i]
    {
      r[i] := a[i];
      i := i + 1;
    }
    var j := 0;
    while j < b.Length
      invariant 0 <= j <= b.Length
      invariant r[..a.Length + j] == a[..] + b[..j]
    {
      r[a.Length + j] := b[j];
      j := j + 1;
    }
    assert r[..] == r[..a.Length + b.Length];
  }

  /**
    `pcmToWav(pcmBuffer, numChannels, sampleRate, bitDepth)`: the result is a
    new buffer holding exactly `Wav.Encode` of the PCM bytes, and the PCM
    buffer is left as it was.
   */
  method PcmToWav(pcm: array<uint8>, numChannels: nat, sampleRate: nat, bitDepth: nat)
    returns (wav: array<uint8>)
    requires Encodable(pcm.Length, numChannels, sampleRate, bitDepth)
    ensures fresh(wav)
    ensures wav[..] == Encode(pcm[..], numChannels, sampleRate, bitDepth)
    ensures unchanged(pcm)
  {
    var dataSize := pcm.Length;
    var header := new uint8[HeaderSize](_ => 0);
    // Each write extends the finished prefix of the header by one field.
    Write(header, RiffId, 0);
    ghost var done := RiffId;
    assert header[..4] == done;
    WriteUInt32LE(header, 36 + dataSize, 4);
    done := done + LE32(36 + dataSize);
    assert header[..8] == done;
    Write(header, WaveId, 8);
    done := done + WaveId;
    assert header[..12] == done;
    Write(header, FmtId, 12);
    done := done + FmtId;
    assert header[..16] == done;
    WriteUInt32LE(header, 16, 16);
    done := done + LE32(16);
    assert header[..20] == done;
    WriteUInt16LE(header, 1, 20);
    done := done + LE16(1);
    assert header[..22] == done;
    WriteUInt16LE(header, numChannels, 22);
    done := done + LE16(numChannels);
    assert header[..24] == done;
    WriteUInt32LE(header, sampleRate, 24);
    done := done + LE32(sampleRate);
    assert header[..28] == done;
    WriteUInt32LE(header, sampleRate * numChannels * bitDepth / 8, 28);
    done := done + LE32(ByteRate(sampleRate, numChannels, bitDepth));
    assert header[..32] == done;
    WriteUInt16LE(header, numChannels * bitDepth / 8, 32);
    done := done + LE16(BlockAlign(numChannels, bitDepth));
    assert header[..34] == done;
    WriteUInt16LE(header, bitDepth, 34);
    done := done + LE16(bitDepth);
    assert header[..36] == done;
    Write(header, DataId, 36);
    done := done + DataId;
    assert header[..40] == done;
    WriteUInt32LE(header, dataSize, 40);
    done := done + LE32(dataSize);
    assert header[..44] == done == WavHeader(dataSize, numChannels, sampleRate, bitDepth);
    assert header[..] == header[..HeaderSize];
    wav := Concat(header, pcm);
  }
}
