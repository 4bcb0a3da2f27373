/** Records: fixed lists of primitive fields written one after the other. */
module Fields {
  import opened Common
  import opened Codecs
  import opened Primitives

  datatype Kind = KStr | KU8 | KI32 | KI64 | KU64

  datatype Field = FStr(s: Str) | FU8(b: byte) | FI32(i: int32) | FI64(l: int64) | FU64(bits: uint64) {
    function Kind(): Kind {
      match this
      case FStr(_) => KStr
      case FU8(_) => KU8
      case FI32(_) => KI32
      case FI64(_) => KI64
      case FU64(_) => KU64
    }
  }

  function PutField(f: Field, tail: Bytes): Bytes {
    match f
    case FStr(s) => PutStr(s, tail)
    case FU8(b) => PutU8(b, tail)
    case FI32(i) => PutI32(i, tail)
    case FI64(l) => PutI64(l, tail)
    case FU64(bits) => PutU64(bits, tail)
  }

  function GetField(k: Kind, bs: Bytes): (r: Decoded<Field>)
    ensures r.Ok? ==> r.value.value.Kind() == k
  {
    match k
    case KStr => var g :- GetStr(bs); Ok(Got(FStr(g.value), g.rest))
    case KU8 => var g :- GetU8(bs); Ok(Got(FU8(g.value), g.rest))
    case KI32 => var g :- GetI32(bs); Ok(Got(FI32(g.value), g.rest))
    case KI64 => var g :- GetI64(bs); Ok(Got(FI64(g.value), g.rest))
    case KU64 => var g :- GetU64(bs); Ok(Got(FU64(g.value), g.rest))
  }

  function SizeField(f: Field): nat {
    match f
    case FStr(s) => 4 + |s|
    case FU8(_) => 1
    case FI32(_) => 4
    case FI64(_) => 8
    case FU64(_) => 8
  }

  lemma GetPutField(f: Field, tail: Bytes)
    ensures GetField(f.Kind(), PutField(f, tail)) == Ok(Got(f, tail))
    ensures |PutField(f, tail)| == SizeField(f) + |tail|
  {
    match f
    case FStr(s) => StrLawful(); RoundTripAt(STR, s, tail);
    case FU8(b) => U8Lawful(); RoundTripAt(U8, b, tail);
    case FI32(i) => I32Lawful(); RoundTripAt(I32, i, tail);
    case FI64(l) => I64Lawful(); RoundTripAt(I64, l, tail);
    case FU64(bits) => U64Lawful(); RoundTripAt(U64, bits, tail);
  }

  lemma PutGetField(k: Kind, bs: Bytes)
    requires GetField(k, bs).Ok?
    ensures PutField(GetField(k, bs).value.value, GetField(k, bs).value.rest) == bs
  {
    match k
    case KStr => StrLawful(); ReadBackAt(STR, bs);
    case KU8 => U8Lawful(); ReadBackAt(U8, bs);
    case KI32 => I32Lawful(); ReadBackAt(I32, bs);
    case KI64 => I64Lawful(); ReadBackAt(I64, bs);
    case KU64 => U64Lawful(); ReadBackAt(U64, bs);
  }

  lemma PutFieldAppend(f: Field, x: Bytes, y: Bytes)
    ensures PutField(f, x + y) == PutField(f, x) + y
  {
    match f
    case FStr(s) => StrLawful(); AppendAt(STR, s, x, y);
    case FU8(b) => U8Lawful(); AppendAt(U8, b, x, y);
    case FI32(i) => I32Lawful(); AppendAt(I32, i, x, y);
    case FI64(l) => I64Lawful(); AppendAt(I64, l, x, y);
    case FU64(bits) => U64Lawful(); AppendAt(U64, bits, x, y);
  }

  // ---- lists of fields ----

  function Kinds(fs: seq<Field>): (ks: seq<Kind>)
    ensures |ks| == |fs|
  {
    if fs == [] then [] else [fs[0].Kind()] + Kinds(fs[1..])
  }

  function PutFields(fs: seq<Field>, tail: Bytes): Bytes {
    if fs == [] then tail else PutField(fs[0], PutFields(fs[1..], tail))
  }

  function GetFields(ks: seq<Kind>, bs: Bytes): (r: Decoded<seq<Field>>)
    ensures r.Ok? ==> Kinds(r.value.value) == ks
  {
    if ks == [] then Ok(Got([], bs)) else
      var head :- GetField(ks[0], bs);
      var more :- GetFields(ks[1..], head.rest);
      assert [head.value] + more.value != [] && ([head.value] + more.value)[1..] == more.value;
      Ok(Got([head.value] + more.value, more.rest))
  }

  function SizeFields(fs: seq<Field>): nat {
    if fs == [] then 0 else SizeField(fs[0]) + SizeFields(fs[1..])
  }

  lemma {:induction false} GetPutFields(fs: seq<Field>, tail: Bytes)
    ensures GetFields(Kinds(fs), PutFields(fs, tail)) == Ok(Got(fs, tail))
    ensures |PutFields(fs, tail)| == SizeFields(fs) + |tail|
  {
    if fs != [] {
      GetPutFields(fs[1..], tail);
      GetPutField(fs[0], PutFields(fs[1..], tail));
      assert Kinds(fs)[1..] == Kinds(fs[1..]);
      assert [fs[0]] + fs[1..] == fs;
    }
  }

  lemma {:induction false} PutGetFields(ks: seq<Kind>, bs: Bytes)
    requires GetFields(ks, bs).Ok?
    ensures PutFields(GetFields(ks, bs).value.value, GetFields(ks, bs).value.rest) == bs
  {
    if ks != [] {
      PutGetField(ks[0], bs);
      PutGetFields(ks[1..], GetField(ks[0], bs).value.rest);
    }
  }

  lemma {:induction false} PutFieldsAppend(fs: seq<Field>, x: Bytes, y: Bytes)
    ensures PutFields(fs, x + y) == PutFields(fs, x) + y
  {
    if fs != [] {
      PutFieldsAppend(fs[1..], x, y);
      PutFieldAppend(fs[0], PutFields(fs[1..], x), y);
    }
  }

  /** A record of this layout, begun at `start`, has yielded the fields `done` and continues at `rest`. */
  ghost predicate PartWay(layout: seq<Kind>, start: Bytes, done: seq<Field>, rest: Bytes) {
    && |done| <= |layout|
    && GetFields(layout, start) == Continue(done, GetFields(layout[|done|..], rest))
  }

  function Continue(done: seq<Field>, r: Decoded<seq<Field>>): Decoded<seq<Field>> {
    if r.Ok? then Ok(Got(done + r.value.value, r.value.rest)) else r
  }

  lemma BeginRecord(layout: seq<Kind>, start: Bytes)
    ensures PartWay(layout, start, [], start)
  {
    var r := GetFields(layout, start);
    assert layout[0..] == layout;
    assert r.Ok? ==> [] + r.value.value == r.value.value;
  }

  /** One more field: the record goes on behind it, or fails as the field does. */
  lemma NextField(layout: seq<Kind>, start: Bytes, done: seq<Field>, rest: Bytes)
    requires PartWay(layout, start, done, rest) && |done| < |layout|
    ensures var d := GetField(layout[|done|], rest);
            if d.Ok? then PartWay(layout, start, done + [d.value.value], d.value.rest)
            else GetFields(layout, start) == Err(d.error)
  {
    hide GetField;
    var ks := layout[|done|..];
    assert ks[1..] == layout[|done| + 1..];
    if GetField(ks[0], rest).Ok? {
      var head := GetField(ks[0], rest).value;
      var more := GetFields(ks[1..], head.rest);
      if more.Ok? {
        assert done + ([head.value] + more.value.value) == (done + [head.value]) + more.value.value;
      }
    }
  }

  lemma EndRecord(layout: seq<Kind>, start: Bytes, done: seq<Field>, rest: Bytes)
    requires PartWay(layout, start, done, rest) && |done| == |layout|
    ensures GetFields(layout, start) == Ok(Got(done, rest))
  {
    assert layout[|done|..] == [];
    assert done + [] == done;
  }

  lemma NextStr(layout: seq<Kind>, start: Bytes, done: seq<Field>, rest: Bytes)
    requires PartWay(layout, start, done, rest) && |done| < |layout| && layout[|done|] == KStr
    ensures var d := GetStr(rest);
            if d.Ok? then PartWay(layout, start, done + [FStr(d.value.value)], d.value.rest)
            else GetFields(layout, start) == Err(d.error)
  {
    hide PartWay, GetFields, GetStr;
    NextField(layout, start, done, rest);
  }

  lemma NextU8(layout: seq<Kind>, start: Bytes, done: seq<Field>, rest: Bytes)
    requires PartWay(layout, start, done, rest) && |done| < |layout| && layout[|done|] == KU8
    ensures var d := GetU8(rest);
            if d.Ok? then PartWay(layout, start, done + [FU8(d.value.value)], d.value.rest)
            else GetFields(layout, start) == Err(d.error)
  {
    hide PartWay, GetFields, GetU8;
    NextField(layout, start, done, rest);
  }

  lemma NextI32(layout: seq<Kind>, start: Bytes, done: seq<Field>, rest: Bytes)
    requires PartWay(layout, start, done, rest) && |done| < |layout| && layout[|done|] == KI32
    ensures var d := GetI32(rest);
            if d.Ok? then PartWay(layout, start, done + [FI32(d.value.value)], d.value.rest)
            else GetFields(layout, start) == Err(d.error)
  {
    hide PartWay, GetFields, GetI32;
    NextField(layout, start, done, rest);
  }

  lemma NextI64(layout: seq<Kind>, start: Bytes, done: seq<Field>, rest: Bytes)
    requires PartWay(layout, start, done, rest) && |done| < |layout| && layout[|done|] == KI64
    ensures var d := GetI64(rest);
            if d.Ok? then PartWay(layout, start, done + [FI64(d.value.value)], d.value.rest)
            else GetFields(layout, start) == Err(d.error)
  {
    hide PartWay, GetFields, GetI64;
    NextField(layout, start, done, rest);
  }

  lemma NextU64(layout: seq<Kind>, start: Bytes, done: seq<Field>, rest: Bytes)
    requires PartWay(layout, start, done, rest) && |done| < |layout| && layout[|done|] == KU64
    ensures var d := GetU64(rest);
            if d.Ok? then PartWay(layout, start, done + [FU64(d.value.value)], d.value.rest)
            else GetFields(layout, start) == Err(d.error)
  {
    hide PartWay, GetFields, GetU64;
    NextField(layout, start, done, rest);
  }
}
