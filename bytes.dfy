/**
  Unsigned little-endian integers as they are laid out by Node's
  `Buffer.writeUInt16LE` and `Buffer.writeUInt32LE`: the least significant
  byte comes first. `ToLE` and `FromLE` are the width-generic codec, `LE16`,
  `LE32`, `ReadLE16` and `ReadLE32` its two fixed widths.
 */
module LittleEndian {

  type uint8 = x: int | 0 <= x < 0x100
  type uint16 = x: int | 0 <= x < 0x1_0000
  type uint32 = x: int | 0 <= x < 0x1_0000_0000

  /** 256 to the power n: the number of values an n-byte field can hold. */
  function Pow256(n: nat): (p: nat)
    ensures p >= 1
  {
    if n == 0 then 1 else 0x100 * Pow256(n - 1)
  }

  /** The n low-order bytes of v, least significant first. */
  function ToLE(v: nat, n: nat): (bs: seq<uint8>)
    ensures |bs| == n
  {
    if n == 0 then [] else [v % 0x100] + ToLE(v / 0x100, n - 1)
  }

  /** The number whose little-endian representation is bs. */
  function FromLE(bs: seq<uint8>): (v: nat)
    ensures v < Pow256(|bs|)
  {
    if bs == [] then 0 else bs[0] + 0x100 * FromLE(bs[1..])
  }

  /** Encoding a value that fits in n bytes and decoding it gives it back. */
  lemma {:induction false} FromToLE(v: nat, n: nat)
    requires v < Pow256(n)
    ensures FromLE(ToLE(v, n)) == v
  {
    if n > 0 {
      var q := v / 0x100;
      assert Pow256(n) == 0x100 * Pow256(n - 1);
      assert q < Pow256(n - 1);
      FromToLE(q, n - 1);
      assert ToLE(v, n)[1..] == ToLE(q, n - 1);
    }
  }

  /** Decoding any n bytes and encoding the value in n bytes gives the bytes back. */
  lemma {:induction false} ToFromLE(bs: seq<uint8>)
    ensures ToLE(FromLE(bs), |bs|) == bs
  {
    if bs != [] {
      var rest := FromLE(bs[1..]);
      var v := bs[0] + 0x100 * rest;
      assert v % 0x100 == bs[0] && v / 0x100 == rest;
      ToFromLE(bs[1..]);
    }
  }

  /** The two bytes `writeUInt16LE(v, offset)` stores. */
  function LE16(v: uint16): (bs: seq<uint8>)
    ensures |bs| == 2
  {
    ToLE(v, 2)
  }

  /** The four bytes `writeUInt32LE(v, offset)` stores. */
  function LE32(v: uint32): (bs: seq<uint8>)
    ensures |bs| == 4
  {
    ToLE(v, 4)
  }

  /** The unsigned 16-bit little-endian field at offset in s. */
  function ReadLE16(s: seq<uint8>, offset: nat): (v: uint16)
    requires offset + 2 <= |s|
  {
    FromLE(s[offset..offset + 2])
  }

  /** The unsigned 32-bit little-endian field at offset in s. */
  function ReadLE32(s: seq<uint8>, offset: nat): (v: uint32)
    requires offset + 4 <= |s|
  {
    assert Pow256(4) == 0x1_0000_0000;
    FromLE(s[offset..offset + 4])
  }

  /** LE16 stores the low byte, then the high byte. */
  lemma LE16Bytes(v: uint16)
    ensures LE16(v) == [v % 0x100, v / 0x100]
  {
    assert ToLE(v / 0x100, 1) == [v / 0x100 % 0x100] + ToLE(v / 0x100 / 0x100, 0);
  }

  /** LE32 stores the four bytes of v from the least significant up. */
  lemma LE32Bytes(v: uint32)
    ensures LE32(v) == [v % 0x100, v / 0x100 % 0x100, v / 0x1_0000 % 0x100, v / 0x100_0000]
  {
    var q1, q2, q3 := v / 0x100, v / 0x100 / 0x100, v / 0x100 / 0x100 / 0x100;
    assert q2 == v / 0x1_0000 && q3 == v / 0x100_0000 && q3 < 0x100;
    assert ToLE(q3, 1) == [q3 % 0x100] + ToLE(q3 / 0x100, 0);
    assert ToLE(q2, 2) == [q2 % 0x100] + ToLE(q3, 1);
    assert ToLE(q1, 3) == [q1 % 0x100] + ToLE(q2, 2);
  }

  /** A field written with LE16 at offset reads back as the value written. */
  lemma ReadLE16Written(s: seq<uint8>, offset: nat, v: uint16)
    requires offset + 2 <= |s| && s[offset..offset + 2] == LE16(v)
    ensures ReadLE16(s, offset) == v
  {
    FromToLE(v, 2);
  }

  /** A field written with LE32 at offset reads back as the value written. */
  lemma ReadLE32Written(s: seq<uint8>, offset: nat, v: uint32)
    requires offset + 4 <= |s| && s[offset..offset + 4] == LE32(v)
    ensures ReadLE32(s, offset) == v
  {
    FromToLE(v, 4);
  }

  /** Any two bytes are the LE16 encoding of the field they hold. */
  lemma LE16OfRead(s: seq<uint8>, offset: nat)
    requires offset + 2 <= |s|
    ensures LE16(ReadLE16(s, offset)) == s[offset..offset + 2]
  {
    ToFromLE(s[offset..offset + 2]);
  }

  /** Any four bytes are the LE32 encoding of the field they hold. */
  lemma LE32OfRead(s: seq<uint8>, offset: nat)
    requires offset + 4 <= |s|
    ensures LE32(ReadLE32(s, offset)) == s[offset..offset + 4]
  {
    ToFromLE(s[offset..offset + 4]);
  }
}
