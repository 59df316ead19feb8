# WAV encoder of the text-to-speech endpoint

The repository is one HTTP endpoint. It sends text to a speech synthesis
service, gets back raw 16-bit PCM audio, and returns it as a WAV file. The only
part with a precise contract is `pcmToWav` (api/tts.js:50-67). It takes a PCM
byte buffer and three integers: channel count, sample rate and bit depth. It
allocates a zero-filled 44-byte header and writes the canonical RIFF/WAVE PCM
header into it in place at fixed offsets:

- a `RIFF` chunk descriptor;
- a 16-byte `fmt ` chunk with format tag 1 (PCM);
- a `data` chunk header.

It then returns the header concatenated with the PCM bytes. This project models
that function and proves the layout, the sizes, the round trips of every field
and the identity of the payload.

Three modules, one per file:

- `bytes.dfy`, module `LittleEndian`. The unsigned little-endian codec that
  Node's `writeUInt16LE`/`writeUInt32LE` implement. It has a width-generic
  `ToLE`/`FromLE` pair with inductive round-trip proofs in both directions, the
  fixed-width `LE16`/`LE32`, and `ReadLE16`/`ReadLE32` for reading a field
  back at an offset.
- `wav.dfy`, module `Wav`. The pure specification:
  - `WavHeader` (the 44 header bytes) and `Encode` (header plus payload);
  - `Encodable`, the input range for which every write of the source is in
    range;
  - lemmas for each field, a reference reader `ParseHeader`, and round trips
    between `Encode` and `ParseHeader` in both directions;
  - concrete cases: the request handler's format (mono, 24000 Hz, 16-bit)
    with empty and four-byte payloads, and stereo 16-bit audio at 44100 Hz.
- `tts.dfy`, module `Tts`. The imperative model of `pcmToWav` itself. `Buffer`
  is an `array<uint8>`. `Buffer.alloc`, `write`, `writeUInt16LE`,
  `writeUInt32LE` and `Buffer.concat` are methods that modify an array or
  allocate a new one. `PcmToWav` performs the same thirteen writes at the same
  offsets as the source. It is proved to return a fresh array equal to
  `Wav.Encode` of the input bytes and to leave the input buffer unchanged.

Two choices of the model follow the code as written:

- The code validates none of the three parameters, so the model accepts 0 for
  each of them.
- Node's `writeUInt16LE`/`writeUInt32LE` throw a RangeError for values that do
  not fit their field, BlockAlign (api/tts.js:62) included. The model turns
  these checks into the precondition `Encodable`.

## Model

| member | source | states |
|---|---|---|
| LittleEndian.ToLE | api/tts.js:54-65 | the n-byte little-endian encoding of a value is exactly n bytes long; FromToLE and ToFromLE make it the inverse of FromLE |
| LittleEndian.FromLE | api/tts.js:54-65 | the value read from n little-endian bytes is below 256^n |
| LittleEndian.FromToLE | api/tts.js:54-65 | encoding a value that fits in n bytes, least significant byte first, and decoding it gives the value back |
| LittleEndian.ToFromLE | api/tts.js:54-65 | any n bytes are exactly the n-byte encoding of the value they decode to, so the encoding is one-to-one and onto |
| LittleEndian.LE16 | api/tts.js:58-63 | the bytes writeUInt16LE stores are exactly two |
| LittleEndian.LE32 | api/tts.js:54-65 | the bytes writeUInt32LE stores are exactly four |
| LittleEndian.LE16Bytes | api/tts.js:58-63 | writeUInt16LE stores the low byte first, then the high byte |
| LittleEndian.LE32Bytes | api/tts.js:54-65 | writeUInt32LE stores the four bytes from least to most significant |
| LittleEndian.ReadLE16Written | api/tts.js:58-63 | a 16-bit field written at an offset reads back as the value written |
| LittleEndian.ReadLE32Written | api/tts.js:54-65 | a 32-bit field written at an offset reads back as the value written |
| LittleEndian.LE16OfRead | api/tts.js:58-63 | any two bytes at an offset are the 16-bit encoding of the field read there |
| LittleEndian.LE32OfRead | api/tts.js:54-65 | any four bytes at an offset are the 32-bit encoding of the field read there |
| Wav.Ascii | api/tts.js:53 | the bytes stored for an ASCII string are its character codes, one per character |
| Wav.TagBytes | api/tts.js:53-64 | the constants RiffId, WaveId, FmtId and DataId, the tags written at lines 53, 55, 56 and 64, are the character codes of "RIFF", "WAVE", "fmt " and "data" |
| Wav.BlockAlign | api/tts.js:62 | numChannels * bitDepth / 8 is the largest k with 8k <= numChannels * bitDepth (integer division) |
| Wav.ByteRate | api/tts.js:61 | sampleRate * numChannels * bitDepth / 8 is the largest k with 8k <= sampleRate * numChannels * bitDepth (integer division) |
| Wav.Encodable | api/tts.js:54-65 | the input range where no write throws a RangeError (numChannels, bitDepth and BlockAlign below 2^16; sampleRate, ByteRate and 36 + size below 2^32) and frames are whole bytes; on it both divisions by 8 are exact and ByteRate = sampleRate * BlockAlign |
| Wav.ByteRateIsSampleRateTimesBlockAlign | api/tts.js:61-62 | when numChannels * bitDepth is a multiple of 8, sampleRate * numChannels * bitDepth / 8 equals sampleRate times BlockAlign |
| Wav.WavHeader | api/tts.js:52 | the header is exactly 44 bytes |
| Wav.Encode | api/tts.js:66 | the output is exactly 44 + len(pcm) bytes long |
| Wav.HeaderLayout | api/tts.js:53-65 | each of the thirteen header fields occupies its offset and width: the four tags and the LE16/LE32 encodings of 36 + size, 16, 1, numChannels, sampleRate, ByteRate, BlockAlign, bitDepth and size |
| Wav.EncodeSplits | api/tts.js:66 | the output is the header for len(pcm) followed by pcm itself |
| Wav.EncodeLayout | api/tts.js:53-66 | the same thirteen fields at the same offsets in the returned file |
| Wav.ChunkTags | api/tts.js:53-64 | bytes 0-3, 8-11, 12-15 and 36-39 are ASCII "RIFF", "WAVE", "fmt " and "data" |
| Wav.ChunkSizes | api/tts.js:51-65 | the u32 at offset 4 is 36 + len(pcm), which is the file length minus 8, and the u32 at offset 40 is len(pcm) |
| Wav.PcmFormatTag | api/tts.js:57-58 | the u32 at offset 16 is 16 and the u16 at offset 20 is 1 (PCM) for every input |
| Wav.ParametersRoundTrip | api/tts.js:59-63 | the u16 at 22, u32 at 24 and u16 at 34 read back as numChannels, sampleRate and bitDepth |
| Wav.DerivedRates | api/tts.js:61-62 | the u32 at 28 is sampleRate * numChannels * bitDepth / 8, the u16 at 32 is numChannels * bitDepth / 8, and ByteRate = SampleRate * BlockAlign as read from the file |
| Wav.PayloadVerbatim | api/tts.js:66 | byte 44 + i of the output is byte i of pcm, for every i |
| Wav.HeaderIgnoresSampleValues | api/tts.js:51-66 | two payloads of equal length get identical headers: the header depends on the payload's length only |
| Wav.ParseHeader | api/tts.js:53-65 | a reference reader of the layout the writes produce, used by the round trips and modelling no source line of its own: it accepts exactly the inputs of at least 44 bytes with the four tags at 0, 8, 12 and 36, and the size fields it returns are the bytes at 4 and 40 |
| Wav.Canonical | api/tts.js:54-65 | the header values the writes produce for a payload size, as a predicate for the reference reader and modelling no source line of its own; a canonical header's ByteRate is its SampleRate times its BlockAlign |
| Wav.ParseEncode | api/tts.js:50-67 | reading the output's header gives back (36 + len, 16, 1, numChannels, sampleRate, ByteRate, BlockAlign, bitDepth, len), a canonical header, and the payload after it |
| Wav.EncodeParse | api/tts.js:50-67 | conversely, every byte sequence whose header is canonical for the bytes after it is exactly the encoder's output for those bytes and the header's parameters |
| Wav.HandlerFormat | api/tts.js:38 | with the handler's parameters (1, 24000, 16): NumChannels 1, SampleRate 24000, ByteRate 48000, BlockAlign 2, BitsPerSample 16 |
| Wav.EmptyHandlerFile | api/tts.js:50-67 | an empty payload in the handler's format gives a 44-byte file with ChunkSize 36, Subchunk2Size 0, NumChannels 1, SampleRate 24000, BitsPerSample 16 |
| Wav.FourByteHandlerFile | api/tts.js:50-67 | the payload [1, 2, 3, 4] gives a 48-byte file with Subchunk2Size 4 that ends with those four bytes |
| Wav.StereoCdFormat | api/tts.js:61-62 | stereo 16-bit at 44100 Hz gives ByteRate 176400 and BlockAlign 4 for every payload Node can write |
| Tts.Write | api/tts.js:53 | `header.write(tag, offset)` puts the tag's bytes at offset and leaves every other byte as it was |
| Tts.WriteUInt16LE | api/tts.js:58 | `writeUInt16LE(v, offset)` puts LE16(v) at offset and leaves every other byte as it was |
| Tts.WriteUInt32LE | api/tts.js:54 | `writeUInt32LE(v, offset)` puts LE32(v) at offset and leaves every other byte as it was |
| Tts.Concat | api/tts.js:66 | `Buffer.concat([a, b])` returns a new buffer holding a's bytes followed by b's |
| Tts.PcmToWav | api/tts.js:50-67 | returns a new buffer equal to Wav.Encode of the PCM bytes, and leaves the PCM buffer unchanged |

## Left out

- The request handler (api/tts.js:1-48) is not modelled. It covers query and
  body parameters, the `fetch` to the speech service with an API key from the
  environment, JSON parsing of the reply, logging and response headers. All of
  it is network I/O and glue around an external service.
- Base64 decoding of the audio (api/tts.js:37) is a Node library call. The
  model takes the PCM bytes as given.
- Node's RangeError from `writeUInt16LE`/`writeUInt32LE` is not modelled as an
  error path. Inputs that would raise it are excluded by the precondition
  `Encodable`: numChannels, bitDepth and BlockAlign below 2^16; sampleRate,
  ByteRate and 36 + len(pcm) below 2^32.
- JavaScript floating-point arithmetic in `/ 8` (api/tts.js:61-62) is not
  modelled. `Encodable` requires numChannels * bitDepth to be a multiple of 8,
  so both divisions are exact integer divisions. Under the bound on ByteRate,
  sampleRate * numChannels * bitDepth is below 2^35, well inside the range of
  exactly representable doubles. The truncation Node applies when a fractional
  value is stored is not modelled.
- Non-integer or negative arguments are not modelled. The parameters are
  natural numbers.
- Tts.Write takes the chunk tag as its bytes rather than as a string. The
  encoding of the tag strings is stated once, by `Wav.Ascii`, in the constants
  `RiffId`, `WaveId`, `FmtId` and `DataId`. The UTF-8 encoding that
  `Buffer.write` applies to non-ASCII text is not modelled, since the source
  writes only these four ASCII tags.
