/** The fixed-width integers and length-prefixed strings of the `.refleks` payload, all little endian. */
module Primitives {
  import opened Common
  import opened Codecs

  type uint32 = x: int | 0 <= x < 0x1_0000_0000
  type uint64 = x: int | 0 <= x < 0x1_0000_0000_0000_0000
  type int32 = x: int | -0x8000_0000 <= x < 0x8000_0000

  const MAX_FILE_NAME_BYTES: nat := 1024
  const MAX_STRING_BYTES: nat := 0x10_0000

  function Pow256(k: nat): (p: nat)
    ensures p > 0
  {
    if k == 0 then 1 else 256 * Pow256(k - 1)
  }

  function ToLittleEndian(n: nat, k: nat): (bs: Bytes)
    ensures |bs| == k
  {
    if k == 0 then [] else [(n % 256) as byte] + ToLittleEndian(n / 256, k - 1)
  }

  function FromLittleEndian(bs: Bytes): (n: nat)
    ensures n < Pow256(|bs|)
  {
    if bs == [] then 0 else bs[0] as int + 256 * FromLittleEndian(bs[1..])
  }

  lemma DivModByte(low: int, high: int)
    requires 0 <= low < 256
    ensures (low + 256 * high) % 256 == low && (low + 256 * high) / 256 == high
  {
  }

  lemma {:induction false} FromToLittleEndian(n: nat, k: nat)
    requires n < Pow256(k)
    ensures FromLittleEndian(ToLittleEndian(n, k)) == n
  {
    if k != 0 {
      FromToLittleEndian(n / 256, k - 1);
    }
  }

  lemma {:induction false} ToFromLittleEndian(bs: Bytes)
    ensures ToLittleEndian(FromLittleEndian(bs), |bs|) == bs
  {
    if bs != [] {
      var low, high := bs[0] as int, FromLittleEndian(bs[1..]);
      ToFromLittleEndian(bs[1..]);
      DivModByte(low, high);
      assert ToLittleEndian(low + 256 * high, |bs|) == [low as byte] + ToLittleEndian(high, |bs| - 1);
    }
  }

  lemma TwoBytes(bs: Bytes)
    requires |bs| == 2
    ensures FromLittleEndian(bs) == bs[0] as int + 0x100 * bs[1] as int
  {
    assert FromLittleEndian(bs[1..]) == bs[1] as int + 256 * FromLittleEndian(bs[1..][1..]);
  }

  /** The first byte is the least significant one. */
  lemma FourBytes(bs: Bytes)
    requires |bs| == 4
    ensures FromLittleEndian(bs) ==
            bs[0] as int + 0x100 * bs[1] as int + 0x1_0000 * bs[2] as int + 0x100_0000 * bs[3] as int
  {
    TwoBytes(bs[2..]);
    assert bs[1..][1..] == bs[2..];
    assert FromLittleEndian(bs[1..]) == bs[1] as int + 256 * FromLittleEndian(bs[2..]);
  }

  lemma EightBytes(bs: Bytes)
    requires |bs| == 8
    ensures FromLittleEndian(bs) ==
            bs[0] as int + 0x100 * bs[1] as int + 0x1_0000 * bs[2] as int + 0x100_0000 * bs[3] as int
            + 0x1_0000_0000 * bs[4] as int + 0x100_0000_0000 * bs[5] as int
            + 0x1_0000_0000_0000 * bs[6] as int + 0x100_0000_0000_0000 * bs[7] as int
  {
    FourBytes(bs[4..]);
    assert bs[1..][1..] == bs[2..] && bs[2..][1..] == bs[3..] && bs[3..][1..] == bs[4..];
    assert FromLittleEndian(bs[3..]) == bs[3] as int + 256 * FromLittleEndian(bs[4..]);
    assert FromLittleEndian(bs[2..]) == bs[2] as int + 256 * FromLittleEndian(bs[3..]);
    assert FromLittleEndian(bs[1..]) == bs[1] as int + 256 * FromLittleEndian(bs[2..]);
  }

  /** Two's complement with `m` values. */
  function ToSigned(n: nat, m: nat): int {
    if n < m / 2 then n else n - m
  }

  function FromSigned(i: int, m: nat): int {
    if i >= 0 then i else i + m
  }

  /** `io.ReadFull` over the bytes that are left. */
  function Take(n: nat, bs: Bytes): Decoded<Bytes> {
    if n <= |bs| then Ok(Got(bs[..n], bs[n..]))
    else if bs == [] then Err(Eof)
    else Err(UnexpectedEof)
  }

  function PutU8(b: byte, tail: Bytes): Bytes {
    [b] + tail
  }

  function GetU8(bs: Bytes): Decoded<byte> {
    var raw :- Take(1, bs);
    Ok(Got(raw.value[0], raw.rest))
  }

  function PutU32(n: uint32, tail: Bytes): Bytes {
    ToLittleEndian(n, 4) + tail
  }

  function GetU32(bs: Bytes): Decoded<uint32> {
    var raw :- Take(4, bs);
    assert Pow256(4) == 0x1_0000_0000;
    Ok(Got(FromLittleEndian(raw.value), raw.rest))
  }

  function PutI32(i: int32, tail: Bytes): Bytes {
    PutU32(FromSigned(i, 0x1_0000_0000), tail)
  }

  function GetI32(bs: Bytes): Decoded<int32> {
    var raw :- GetU32(bs);
    Ok(Got(ToSigned(raw.value, 0x1_0000_0000), raw.rest))
  }

  /** Also the raw bits of a `float64`. */
  function PutU64(n: uint64, tail: Bytes): Bytes {
    ToLittleEndian(n, 8) + tail
  }

  function GetU64(bs: Bytes): Decoded<uint64> {
    var raw :- Take(8, bs);
    assert Pow256(8) == 0x1_0000_0000_0000_0000;
    Ok(Got(FromLittleEndian(raw.value), raw.rest))
  }

  function PutI64(i: int64, tail: Bytes): Bytes {
    PutU64(FromSigned(i, 0x1_0000_0000_0000_0000), tail)
  }

  function GetI64(bs: Bytes): Decoded<int64> {
    var raw :- GetU64(bs);
    Ok(Got(ToSigned(raw.value, 0x1_0000_0000_0000_0000), raw.rest))
  }

  const U8 := Codec(PutU8, GetU8, (_: byte) => 1)
  const U32 := Codec(PutU32, GetU32, (_: uint32) => 4)
  const I32 := Codec(PutI32, GetI32, (_: int32) => 4)
  const U64 := Codec(PutU64, GetU64, (_: uint64) => 8)
  const I64 := Codec(PutI64, GetI64, (_: int64) => 8)

  lemma TakePut(raw: Bytes, tail: Bytes)
    ensures Take(|raw|, raw + tail) == Ok(Got(raw, tail))
  {
  }

  lemma U8Lawful()
    ensures Lawful(U8)
  {
    forall v, x, y ensures PutU8(v, x + y) == PutU8(v, x) + y {
    }
  }

  lemma U32Lawful()
    ensures Lawful(U32)
  {
    assert Pow256(4) == 0x1_0000_0000;
    forall v: uint32, tail ensures GetU32(PutU32(v, tail)) == Ok(Got(v, tail)) {
      FromToLittleEndian(v, 4);
      TakePut(ToLittleEndian(v, 4), tail);
    }
    forall bs | GetU32(bs).Ok? ensures PutU32(GetU32(bs).value.value, GetU32(bs).value.rest) == bs {
      ToFromLittleEndian(bs[..4]);
    }
    forall v: uint32, x, y ensures PutU32(v, x + y) == PutU32(v, x) + y {
    }
  }

  lemma U64Lawful()
    ensures Lawful(U64)
  {
    assert Pow256(8) == 0x1_0000_0000_0000_0000;
    forall v: uint64, tail ensures GetU64(PutU64(v, tail)) == Ok(Got(v, tail)) {
      FromToLittleEndian(v, 8);
      TakePut(ToLittleEndian(v, 8), tail);
    }
    forall bs | GetU64(bs).Ok? ensures PutU64(GetU64(bs).value.value, GetU64(bs).value.rest) == bs {
      ToFromLittleEndian(bs[..8]);
    }
    forall v: uint64, x, y ensures PutU64(v, x + y) == PutU64(v, x) + y {
    }
  }

  lemma I32Lawful()
    ensures Lawful(I32)
  {
    U32Lawful();
    forall v: int32, tail ensures GetI32(PutI32(v, tail)) == Ok(Got(v, tail)) {
      assert U32.get(U32.put(FromSigned(v, 0x1_0000_0000), tail)).Ok?;
    }
    forall bs | GetI32(bs).Ok? ensures PutI32(GetI32(bs).value.value, GetI32(bs).value.rest) == bs {
      assert U32.get(bs).Ok?;
    }
    forall v: int32, x, y ensures PutI32(v, x + y) == PutI32(v, x) + y {
      assert U32.put(FromSigned(v, 0x1_0000_0000), x + y) == U32.put(FromSigned(v, 0x1_0000_0000), x) + y;
    }
  }

  lemma I64Lawful()
    ensures Lawful(I64)
  {
    U64Lawful();
    forall v: int64, tail ensures GetI64(PutI64(v, tail)) == Ok(Got(v, tail)) {
      assert U64.get(U64.put(FromSigned(v, 0x1_0000_0000_0000_0000), tail)).Ok?;
    }
    forall bs | GetI64(bs).Ok? ensures PutI64(GetI64(bs).value.value, GetI64(bs).value.rest) == bs {
      assert U64.get(bs).Ok?;
    }
    forall v: int64, x, y ensures PutI64(v, x + y) == PutI64(v, x) + y {
      assert U64.put(FromSigned(v, 0x1_0000_0000_0000_0000), x + y)
          == U64.put(FromSigned(v, 0x1_0000_0000_0000_0000), x) + y;
    }
  }

  // ---- strings ----

  type Name = s: Bytes | |s| <= MAX_FILE_NAME_BYTES
  type Str = s: Bytes | |s| <= MAX_STRING_BYTES

  function PutStr(s: Str, tail: Bytes): Bytes {
    PutU32(|s|, s + tail)
  }

  function GetBytes(max: nat, bs: Bytes): (r: Decoded<Bytes>)
    ensures r.Ok? ==> |r.value.value| <= max
  {
    var length :- GetU32(bs);
    if length.value > max then Err(StringTooLarge(length.value))
    else if length.value == 0 then Ok(Got([], length.rest))
    else Take(length.value, length.rest)
  }

  function GetStr(bs: Bytes): Decoded<Str> {
    var s :- GetBytes(MAX_STRING_BYTES, bs);
    Ok(Got(s.value, s.rest))
  }

  function PutName(s: Name, tail: Bytes): Bytes {
    PutU32(|s|, s + tail)
  }

  function GetName(bs: Bytes): Decoded<Name> {
    var s :- GetBytes(MAX_FILE_NAME_BYTES, bs);
    Ok(Got(s.value, s.rest))
  }

  const STR := Codec(PutStr, GetStr, (s: Str) => 4 + |s|)
  const NAME := Codec(PutName, GetName, (s: Name) => 4 + |s|)

  lemma PutU32Append(n: uint32, x: Bytes, y: Bytes)
    ensures PutU32(n, x + y) == PutU32(n, x) + y
  {
  }

  lemma GetPutBytes(max: uint32, s: Bytes, tail: Bytes)
    requires |s| <= max
    ensures GetBytes(max, PutU32(|s|, s + tail)) == Ok(Got(s, tail))
  {
    U32Lawful();
    assert U32.get(U32.put(|s|, s + tail)) == Ok(Got(|s|, s + tail));
    TakePut(s, tail);
    assert s == [] ==> s + tail == tail;
  }

  lemma PutGetBytes(max: uint32, bs: Bytes)
    requires GetBytes(max, bs).Ok?
    ensures var g := GetBytes(max, bs).value; PutU32(|g.value|, g.value + g.rest) == bs
  {
    U32Lawful();
    var g := GetBytes(max, bs).value;
    var length := U32.get(bs).value;
    assert g.value + g.rest == length.rest;
    assert U32.put(length.value, length.rest) == bs;
  }

  lemma StrLawful()
    ensures Lawful(STR)
  {
    forall v: Str, tail ensures GetStr(PutStr(v, tail)) == Ok(Got(v, tail)) {
      GetPutBytes(MAX_STRING_BYTES, v, tail);
    }
    forall bs | GetStr(bs).Ok? ensures PutStr(GetStr(bs).value.value, GetStr(bs).value.rest) == bs {
      PutGetBytes(MAX_STRING_BYTES, bs);
    }
    forall v: Str, x, y ensures PutStr(v, x + y) == PutStr(v, x) + y {
      assert v + (x + y) == (v + x) + y;
      PutU32Append(|v|, v + x, y);
    }
  }

  lemma NameLawful()
    ensures Lawful(NAME)
  {
    forall v: Name, tail ensures GetName(PutName(v, tail)) == Ok(Got(v, tail)) {
      GetPutBytes(MAX_FILE_NAME_BYTES, v, tail);
    }
    forall bs | GetName(bs).Ok? ensures PutName(GetName(bs).value.value, GetName(bs).value.rest) == bs {
      PutGetBytes(MAX_FILE_NAME_BYTES, bs);
    }
    forall v: Name, x, y ensures PutName(v, x + y) == PutName(v, x) + y {
      assert v + (x + y) == (v + x) + y;
      PutU32Append(|v|, v + x, y);
    }
  }
}
