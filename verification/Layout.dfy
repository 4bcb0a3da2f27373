/** The `.refleks` payload laid out byte by byte: every field in its place, numbers least significant byte first, texts and
    lists behind their lengths. This is the format as such; that the encoder writes it and the parser reads it is proved. */
module Layout {
  import opened Common
  import opened Codecs
  import opened Primitives
  import opened Fields
  import opened Wire
  import opened Tree

  // ---- the format ----

  function Byte(n: nat): byte {
    (n % 256) as byte
  }

  function Bytes4(n: nat): Bytes {
    [Byte(n), Byte(n / 0x100), Byte(n / 0x1_0000), Byte(n / 0x100_0000)]
  }

  function Bytes8(n: nat): Bytes {
    [Byte(n), Byte(n / 0x100), Byte(n / 0x1_0000), Byte(n / 0x100_0000), Byte(n / 0x1_0000_0000),
     Byte(n / 0x100_0000_0000), Byte(n / 0x1_0000_0000_0000), Byte(n / 0x100_0000_0000_0000)]
  }

  function Int4(i: int32): Bytes {
    Bytes4(if i < 0 then i + 0x1_0000_0000 else i)
  }

  function Int8(i: int64): Bytes {
    Bytes8(if i < 0 then i + 0x1_0000_0000_0000_0000 else i)
  }

  function Text(s: Str): Bytes {
    Bytes4(|s|) + s
  }

  function StatBytes(e: StatEntry): Bytes {
    Text(e.key) +
    match e.value
    case StatString(s) => [1] + Text(s)
    case StatInt(i) => [2] + Int8(i)
    case StatFloat(bits) => [3] + Bytes8(bits)
    case StatBool(raw) => [4, raw]
  }

  function PointBytes(p: MousePoint): Bytes {
    Int8(p.ts) + Int4(p.x) + Int4(p.y) + Int4(p.buttons)
  }

  function RowBytes(row: Row): Bytes {
    Bytes4(|row|) + Each(Text, row)
  }

  function Each<T>(bytesOf: T -> Bytes, xs: seq<T>): Bytes {
    if xs == [] then [] else bytesOf(xs[0]) + Each(bytesOf, xs[1..])
  }

  function EnvironmentBytes(e: WireEnvironment): Bytes {
    (Text(e.appVersion) + Text(e.os) + Text(e.arch))
    + (Text(e.osVersion) + Text(e.steamID) + Text(e.personaName))
    + (Text(e.cpuName) + Int4(e.cpuCores) + Text(e.gpuName) + Int4(e.ramTotalMB))
    + (Bytes8(e.displayHz) + Int4(e.screenWidth) + Int4(e.screenHeight) + [e.isWindowed])
    + (Text(e.mouseName) + Text(e.mouseVID) + Text(e.mousePID) + Text(e.mouseMI) + Text(e.mouseBackend))
    + (Int4(e.tracePoints) + Bytes8(e.traceDuration) + Int4(e.sampleRate))
  }

  function PayloadBytes(t: WireTree): Bytes {
    Text(t.fileName)
    + Bytes4(|t.body.stats|) + Each(StatBytes, t.body.stats)
    + Bytes4(|t.body.events|) + Each(RowBytes, t.body.events)
    + Bytes4(|t.body.trace|) + Each(PointBytes, t.body.trace)
    + EnvironmentBytes(t.body.env)
  }

  // ---- the encoder writes it ----

  lemma LittleEndian4(n: nat)
    ensures ToLittleEndian(n, 4) == Bytes4(n)
  {
    var a, b, c := n / 256, n / 0x1_0000, n / 0x100_0000;
    assert a / 256 == b && b / 256 == c;
    assert ToLittleEndian(c, 1) == [Byte(c)];
    assert ToLittleEndian(b, 2) == [Byte(b)] + ToLittleEndian(c, 1);
    assert ToLittleEndian(a, 3) == [Byte(a)] + ToLittleEndian(b, 2);
  }

  lemma LittleEndian8(n: nat)
    ensures ToLittleEndian(n, 8) == Bytes8(n)
  {
    var m := n / 0x1_0000_0000;
    LittleEndian4(m);
    var a, b, c := n / 256, n / 0x1_0000, n / 0x100_0000;
    assert a / 256 == b && b / 256 == c && c / 256 == m;
    assert m / 0x100 == n / 0x100_0000_0000 && m / 0x1_0000 == n / 0x1_0000_0000_0000;
    assert m / 0x100_0000 == n / 0x100_0000_0000_0000;
    assert ToLittleEndian(c, 5) == [Byte(c)] + ToLittleEndian(m, 4);
    assert ToLittleEndian(b, 6) == [Byte(b)] + ToLittleEndian(c, 5);
    assert ToLittleEndian(a, 7) == [Byte(a)] + ToLittleEndian(b, 6);
  }

  function FieldBytes(f: Field): Bytes {
    match f
    case FStr(s) => Text(s)
    case FU8(b) => [b]
    case FI32(i) => Int4(i)
    case FI64(l) => Int8(l)
    case FU64(bits) => Bytes8(bits)
  }

  lemma PutsField(f: Field, tail: Bytes)
    ensures PutField(f, tail) == FieldBytes(f) + tail
  {
    match f
    case FStr(s) =>
      LittleEndian4(|s|);
      assert Bytes4(|s|) + (s + tail) == Bytes4(|s|) + s + tail;
    case FU8(_) =>
    case FI32(i) => LittleEndian4(FromSigned(i, 0x1_0000_0000));
    case FI64(l) => LittleEndian8(FromSigned(l, 0x1_0000_0000_0000_0000));
    case FU64(bits) => LittleEndian8(bits);
  }

  lemma Regroup(a: Bytes, b: Bytes, c: Bytes)
    ensures a + (b + c) == a + b + c
  {
  }

  lemma {:induction false} PutsFields(fs: seq<Field>, tail: Bytes)
    ensures PutFields(fs, tail) == Each(FieldBytes, fs) + tail
  {
    hide FieldBytes, PutField;
    if fs != [] {
      PutsFields(fs[1..], tail);
      PutsField(fs[0], PutFields(fs[1..], tail));
      Regroup(FieldBytes(fs[0]), Each(FieldBytes, fs[1..]), tail);
    }
  }

  lemma {:induction false} EachConcat<T>(bytesOf: T -> Bytes, xs: seq<T>, ys: seq<T>)
    ensures Each(bytesOf, xs + ys) == Each(bytesOf, xs) + Each(bytesOf, ys)
  {
    if xs == [] {
      assert xs + ys == ys;
    } else {
      EachConcat(bytesOf, xs[1..], ys);
      assert (xs + ys)[1..] == xs[1..] + ys;
      Regroup(bytesOf(xs[0]), Each(bytesOf, xs[1..]), Each(bytesOf, ys));
    }
  }

  lemma EachOne(f: Field)
    ensures Each(FieldBytes, [f]) == FieldBytes(f)
  {
    assert [f][1..] == [];
  }

  lemma EachThree(f: Field, g: Field, h: Field)
    ensures Each(FieldBytes, [f, g, h]) == FieldBytes(f) + FieldBytes(g) + FieldBytes(h)
  {
    hide FieldBytes, Each;
    assert [f, g, h] == [f] + [g] + [h];
    EachConcat(FieldBytes, [f], [g]);
    EachConcat(FieldBytes, [f] + [g], [h]);
    EachOne(f);
    EachOne(g);
    EachOne(h);
  }

  lemma EachFour(f: Field, g: Field, h: Field, k: Field)
    ensures Each(FieldBytes, [f, g, h, k]) == FieldBytes(f) + FieldBytes(g) + FieldBytes(h) + FieldBytes(k)
  {
    hide FieldBytes, Each;
    assert [f, g, h, k] == [f, g, h] + [k];
    EachConcat(FieldBytes, [f, g, h], [k]);
    EachThree(f, g, h);
    EachOne(k);
  }

  lemma EachFive(f: Field, g: Field, h: Field, k: Field, l: Field)
    ensures Each(FieldBytes, [f, g, h, k, l]) == FieldBytes(f) + FieldBytes(g) + FieldBytes(h) + FieldBytes(k) + FieldBytes(l)
  {
    hide FieldBytes, Each;
    assert [f, g, h, k, l] == [f, g, h, k] + [l];
    EachConcat(FieldBytes, [f, g, h, k], [l]);
    EachFour(f, g, h, k);
    EachOne(l);
  }

  lemma EachGroup(a: seq<Field>, b: seq<Field>, c: seq<Field>, d: seq<Field>, e: seq<Field>, f: seq<Field>)
    ensures Each(FieldBytes, a + b + c + d + e + f) ==
            Each(FieldBytes, a) + Each(FieldBytes, b) + Each(FieldBytes, c) + Each(FieldBytes, d)
            + Each(FieldBytes, e) + Each(FieldBytes, f)
  {
    hide FieldBytes, Each;
    EachConcat(FieldBytes, a, b);
    EachConcat(FieldBytes, a + b, c);
    EachConcat(FieldBytes, a + b + c, d);
    EachConcat(FieldBytes, a + b + c + d, e);
    EachConcat(FieldBytes, a + b + c + d + e, f);
  }

  lemma PutsEnvironment(e: WireEnvironment, tail: Bytes)
    ensures PutEnvironment(e, tail) == EnvironmentBytes(e) + tail
  {
    hide Each, PutFields, Text, Int4, Bytes8;
    PutsFields(EnvironmentFields(e), tail);
    EachGroup([FStr(e.appVersion), FStr(e.os), FStr(e.arch)], [FStr(e.osVersion), FStr(e.steamID), FStr(e.personaName)],
              [FStr(e.cpuName), FI32(e.cpuCores), FStr(e.gpuName), FI32(e.ramTotalMB)],
              [FU64(e.displayHz), FI32(e.screenWidth), FI32(e.screenHeight), FU8(e.isWindowed)],
              [FStr(e.mouseName), FStr(e.mouseVID), FStr(e.mousePID), FStr(e.mouseMI), FStr(e.mouseBackend)],
              [FI32(e.tracePoints), FU64(e.traceDuration), FI32(e.sampleRate)]);
    EachThree(FStr(e.appVersion), FStr(e.os), FStr(e.arch));
    EachThree(FStr(e.osVersion), FStr(e.steamID), FStr(e.personaName));
    EachFour(FStr(e.cpuName), FI32(e.cpuCores), FStr(e.gpuName), FI32(e.ramTotalMB));
    EachFour(FU64(e.displayHz), FI32(e.screenWidth), FI32(e.screenHeight), FU8(e.isWindowed));
    EachFive(FStr(e.mouseName), FStr(e.mouseVID), FStr(e.mousePID), FStr(e.mouseMI), FStr(e.mouseBackend));
    EachThree(FI32(e.tracePoints), FU64(e.traceDuration), FI32(e.sampleRate));
  }

  lemma PutsPoint(p: MousePoint, tail: Bytes)
    ensures PutPoint(p, tail) == PointBytes(p) + tail
  {
    hide Each, PutFields, Int4, Int8;
    PutsFields(PointFields(p), tail);
    EachFour(FI64(p.ts), FI32(p.x), FI32(p.y), FI32(p.buttons));
  }

  lemma PutsText(s: Str, tail: Bytes)
    ensures PutStr(s, tail) == Text(s) + tail
  {
    PutsField(FStr(s), tail);
  }

  lemma PutsStat(e: StatEntry, tail: Bytes)
    ensures PutStat(e, tail) == StatBytes(e) + tail
  {
    hide Text, Int8, Bytes8;
    var value := PutField(FieldOf(e.value), tail);
    PutsField(FieldOf(e.value), tail);
    PutsText(e.key, PutU8(TagOf(e.value), value));
    var tag := [TagOf(e.value)];
    Regroup(tag, FieldBytes(FieldOf(e.value)), tail);
    Regroup(Text(e.key), tag + FieldBytes(FieldOf(e.value)), tail);
    assert StatBytes(e) == Text(e.key) + (tag + FieldBytes(FieldOf(e.value)));
  }

  /** A list of items each of which is written as `bytesOf` says. */
  lemma {:induction false} PutsMany<T(!new)>(c: Codec<T>, bytesOf: T -> Bytes, xs: seq<T>, tail: Bytes)
    requires forall x, rest :: c.put(x, rest) == bytesOf(x) + rest
    ensures PutMany(c, xs, tail) == Each(bytesOf, xs) + tail
  {
    if xs != [] {
      PutsMany(c, bytesOf, xs[1..], tail);
      Regroup(bytesOf(xs[0]), Each(bytesOf, xs[1..]), tail);
    }
  }

  lemma PutsCounted<T(!new)>(c: Codec<T>, bytesOf: T -> Bytes, xs: seq<T>, tail: Bytes)
    requires |xs| < 0x1_0000_0000 && forall x, rest :: c.put(x, rest) == bytesOf(x) + rest
    ensures PutU32(|xs|, PutMany(c, xs, tail)) == Bytes4(|xs|) + Each(bytesOf, xs) + tail
  {
    hide Bytes4;
    PutsMany(c, bytesOf, xs, tail);
    LittleEndian4(|xs|);
    Regroup(Bytes4(|xs|), Each(bytesOf, xs), tail);
  }

  lemma PutsRow(row: Row, tail: Bytes)
    ensures PutRow(row, tail) == RowBytes(row) + tail
  {
    hide Text, PutU32, PutMany, Bytes4, Each;
    forall s: Str, rest ensures STR.put(s, rest) == Text(s) + rest {
      PutsText(s, rest);
    }
    PutsCounted(STR, Text, row, tail);
  }

  lemma PutsLists(b: WireBody, tail: Bytes)
    ensures PutStats(b.stats, tail) == Bytes4(|b.stats|) + Each(StatBytes, b.stats) + tail
    ensures PutEvents(b.events, tail) == Bytes4(|b.events|) + Each(RowBytes, b.events) + tail
    ensures PutTrace(b.trace, tail) == Bytes4(|b.trace|) + Each(PointBytes, b.trace) + tail
  {
    hide PutU32, PutMany, Bytes4, Each, StatBytes, RowBytes, PointBytes, PutStat, PutRow, PutPoint;
    forall e: StatEntry, rest ensures STAT.put(e, rest) == StatBytes(e) + rest {
      PutsStat(e, rest);
    }
    PutsCounted(STAT, StatBytes, b.stats, tail);
    forall row: Row, rest ensures ROW.put(row, rest) == RowBytes(row) + rest {
      PutsRow(row, rest);
    }
    PutsCounted(ROW, RowBytes, b.events, tail);
    forall p: MousePoint, rest ensures POINT.put(p, rest) == PointBytes(p) + rest {
      PutsPoint(p, rest);
    }
    PutsCounted(POINT, PointBytes, b.trace, tail);
  }

  lemma PutsName(s: Name, tail: Bytes)
    ensures PutName(s, tail) == Text(s) + tail
  {
    PutsText(s, tail);
  }

  /** What the encoder writes is the payload laid out. */
  lemma PutsTree(t: WireTree)
    ensures PutTree(t, []) == PayloadBytes(t)
  {
    hide PutStats, PutEvents, PutTrace, PutEnvironment, PutName, Text, Bytes4, Each, EnvironmentBytes;
    var b := t.body;
    var env := PutEnvironment(b.env, []);
    PutsEnvironment(b.env, []);
    PutsLists(b, env);
    var trace := PutTrace(b.trace, env);
    PutsLists(b, trace);
    var events := PutEvents(b.events, trace);
    PutsLists(b, events);
    PutsName(t.fileName, PutStats(b.stats, events));
  }
}
