/** Codecs: how one value is laid out in front of a tail of bytes, and how it is read back.

    An encoder takes the bytes that follow the value, so composing encoders is function composition and no
    re-association of concatenations is ever needed. */
module Codecs {
  import opened Common

  newtype byte = x: int | 0 <= x < 256
  type Bytes = seq<byte>

  datatype Error =
    | Eof                            // the input ended before the first byte of a field
    | UnexpectedEof                  // the input ended inside a field
    | StringTooLarge(length: nat)
    | TooManyStats(count: nat)
    | UnsupportedStatType(tag: byte)
    | TooManyEventRows(count: nat)
    | TooManyEventColumns(count: nat)
    | TooManyMousePoints(count: nat)
    | TrailingBytes
    | FileTooSmall
    | BadMagic
    | UnsupportedVersion(version: byte)
    | ChecksumMismatch
    | UnsupportedCompression(compression: byte)
    | CompressedPayload              // the zstd path, which the model does not follow
    | BlankFileName

  /** A decoded value and the bytes after it. */
  datatype Got<+T> = Got(value: T, rest: Bytes)

  type Decoded<+T> = Result<Got<T>, Error>

  datatype Codec<!T> = Codec(put: (T, Bytes) -> Bytes, get: Bytes -> Decoded<T>, size: T -> nat)

  /** Decoding undoes encoding and encoding undoes decoding; the bytes in front of the tail do not depend on
      the tail; and their number is the value's size. */
  ghost predicate Lawful<T(!new)>(c: Codec<T>) {
    && (forall v, tail :: c.get(c.put(v, tail)) == Ok(Got(v, tail)))
    && (forall bs :: c.get(bs).Ok? ==> c.put(c.get(bs).value.value, c.get(bs).value.rest) == bs)
    && (forall v, x, y :: c.put(v, x + y) == c.put(v, x) + y)
    && (forall v, tail :: |c.put(v, tail)| == c.size(v) + |tail|)
  }

  lemma RoundTripAt<T(!new)>(c: Codec<T>, v: T, tail: Bytes)
    requires Lawful(c)
    ensures c.get(c.put(v, tail)) == Ok(Got(v, tail))
    ensures |c.put(v, tail)| == c.size(v) + |tail|
  {
  }

  lemma ReadBackAt<T(!new)>(c: Codec<T>, bs: Bytes)
    requires Lawful(c) && c.get(bs).Ok?
    ensures c.put(c.get(bs).value.value, c.get(bs).value.rest) == bs
  {
  }

  lemma AppendAt<T(!new)>(c: Codec<T>, v: T, x: Bytes, y: Bytes)
    requires Lawful(c)
    ensures c.put(v, x + y) == c.put(v, x) + y
  {
  }

  /** The bytes of a value on its own. */
  function Encode<T>(c: Codec<T>, v: T): Bytes {
    c.put(v, [])
  }

  /** A lawful codec is self-delimiting: what is read is the encoding of the value in front of the rest, as many
      bytes as the value's size, and any other rest behind the same bytes gives the same value. */
  lemma SelfDelimiting<T(!new)>(c: Codec<T>, bs: Bytes, other: Bytes)
    requires Lawful(c) && c.get(bs).Ok?
    ensures var g := c.get(bs).value;
            && bs == Encode(c, g.value) + g.rest
            && |bs| - |g.rest| == c.size(g.value)
            && c.get(Encode(c, g.value) + other) == Ok(Got(g.value, other))
  {
    var g := c.get(bs).value;
    assert [] + g.rest == g.rest;
    assert [] + other == other;
    assert c.put(g.value, [] + g.rest) == Encode(c, g.value) + g.rest;
    assert c.put(g.value, [] + other) == Encode(c, g.value) + other;
  }

  /** Of two inputs read to the end, neither is a proper prefix of the other: what is behind the shorter one is left
      over by the reader of the longer one. */
  lemma PrefixFree<T(!new)>(c: Codec<T>, bs: Bytes, extra: Bytes)
    requires Lawful(c) && c.get(bs).Ok? && c.get(bs).value.rest == []
    ensures c.get(bs + extra) == Ok(Got(c.get(bs).value.value, extra))
  {
    SelfDelimiting(c, bs, extra);
    assert Encode(c, c.get(bs).value.value) + [] == bs;
  }

  // ---- repetition ----

  function PutMany<T>(c: Codec<T>, xs: seq<T>, tail: Bytes): Bytes {
    if xs == [] then tail else c.put(xs[0], PutMany(c, xs[1..], tail))
  }

  function GetMany<T>(c: Codec<T>, n: nat, bs: Bytes): (r: Decoded<seq<T>>)
    ensures r.Ok? ==> |r.value.value| == n
  {
    if n == 0 then Ok(Got([], bs)) else
      var head :- c.get(bs);
      var more :- GetMany(c, n - 1, head.rest);
      Ok(Got([head.value] + more.value, more.rest))
  }

  function SizeMany<T>(c: Codec<T>, xs: seq<T>): nat {
    if xs == [] then 0 else c.size(xs[0]) + SizeMany(c, xs[1..])
  }

  lemma {:induction false} GetPutMany<T(!new)>(c: Codec<T>, xs: seq<T>, tail: Bytes)
    requires Lawful(c)
    ensures GetMany(c, |xs|, PutMany(c, xs, tail)) == Ok(Got(xs, tail))
    ensures |PutMany(c, xs, tail)| == SizeMany(c, xs) + |tail|
  {
    if xs != [] {
      GetPutMany(c, xs[1..], tail);
      assert [xs[0]] + xs[1..] == xs;
    }
  }

  lemma {:induction false} PutGetMany<T(!new)>(c: Codec<T>, n: nat, bs: Bytes)
    requires Lawful(c) && GetMany(c, n, bs).Ok?
    ensures var g := GetMany(c, n, bs).value; PutMany(c, g.value, g.rest) == bs
  {
    if n != 0 {
      PutGetMany(c, n - 1, c.get(bs).value.rest);
    }
  }

  lemma {:induction false} PutManyAppend<T(!new)>(c: Codec<T>, xs: seq<T>, x: Bytes, y: Bytes)
    requires Lawful(c)
    ensures PutMany(c, xs, x + y) == PutMany(c, xs, x) + y
  {
    if xs != [] {
      PutManyAppend(c, xs[1..], x, y);
    }
  }

  /** A loop over `n` items, begun at `start`, has yielded `done` and continues at `rest`. */
  ghost predicate Looping<T>(c: Codec<T>, n: nat, start: Bytes, done: seq<T>, rest: Bytes) {
    && |done| <= n
    && GetMany(c, n, start) == Resume(done, GetMany(c, n - |done|, rest))
  }

  function Resume<T>(done: seq<T>, r: Decoded<seq<T>>): Decoded<seq<T>> {
    if r.Ok? then Ok(Got(done + r.value.value, r.value.rest)) else r
  }

  lemma BeginLoop<T>(c: Codec<T>, n: nat, start: Bytes)
    ensures Looping(c, n, start, [], start)
  {
    var r := GetMany(c, n, start);
    assert r.Ok? ==> [] + r.value.value == r.value.value;
  }

  /** One more item: the loop goes on behind it, or fails as the item does. */
  lemma NextItem<T>(c: Codec<T>, n: nat, start: Bytes, done: seq<T>, rest: Bytes)
    requires Looping(c, n, start, done, rest) && |done| < n
    ensures var d := c.get(rest);
            if d.Ok? then Looping(c, n, start, done + [d.value.value], d.value.rest)
            else GetMany(c, n, start) == Err(d.error)
  {
    if c.get(rest).Ok? {
      var head := c.get(rest).value;
      var more := GetMany(c, n - |done| - 1, head.rest);
      if more.Ok? {
        assert done + ([head.value] + more.value.value) == (done + [head.value]) + more.value.value;
      }
    }
  }

  lemma EndLoop<T>(c: Codec<T>, n: nat, start: Bytes, done: seq<T>, rest: Bytes)
    requires Looping(c, n, start, done, rest) && |done| == n
    ensures GetMany(c, n, start) == Ok(Got(done, rest))
  {
    assert done + [] == done;
  }
}
