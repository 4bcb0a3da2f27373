/** The wire tree of a `.refleks` payload: what the bytes say, before duplicate keys and flags are interpreted. */
module Wire {
  import opened Common
  import opened Codecs
  import opened Primitives
  import opened Fields

  const STAT_STRING: byte := 1
  const STAT_INT: byte := 2
  const STAT_FLOAT: byte := 3
  const STAT_BOOL: byte := 4

  const MAX_STATS_ENTRIES: nat := 50000
  const MAX_EVENT_ROWS: nat := 500000
  const MAX_EVENT_COLS: nat := 128
  const MAX_MOUSE_POINTS: nat := 20000000

  /** A float is its 64 raw bits; a boolean keeps the byte it was written with. */
  datatype WireStat = StatString(s: Str) | StatInt(i: int64) | StatFloat(bits: uint64) | StatBool(raw: byte)
  datatype StatEntry = StatEntry(key: Str, value: WireStat)
  datatype MousePoint = MousePoint(ts: int64, x: int32, y: int32, buttons: int32)

  type StatEntries = s: seq<StatEntry> | |s| <= MAX_STATS_ENTRIES
  type Row = s: seq<Str> | |s| <= MAX_EVENT_COLS
  type Events = s: seq<Row> | |s| <= MAX_EVENT_ROWS
  type Trace = s: seq<MousePoint> | |s| <= MAX_MOUSE_POINTS

  /** `Flag` is the raw byte on the wire and a bool in the decoded file. */
  datatype Environment<Flag> = Environment(
    appVersion: Str, os: Str, arch: Str, osVersion: Str, steamID: Str, personaName: Str,
    cpuName: Str, cpuCores: int32, gpuName: Str, ramTotalMB: int32,
    displayHz: uint64, screenWidth: int32, screenHeight: int32, isWindowed: Flag,
    mouseName: Str, mouseVID: Str, mousePID: Str, mouseMI: Str, mouseBackend: Str,
    tracePoints: int32, traceDuration: uint64, sampleRate: int32)

  type WireEnvironment = Environment<byte>

  /** What follows the file name. */
  datatype WireBody = WireBody(stats: StatEntries, events: Events, trace: Trace, env: WireEnvironment)
  datatype WireTree = WireTree(fileName: Name, body: WireBody)

  // ---- stats entries: a key, a type tag, and a value whose layout the tag decides ----

  function TagOf(v: WireStat): byte {
    match v
    case StatString(_) => STAT_STRING
    case StatInt(_) => STAT_INT
    case StatFloat(_) => STAT_FLOAT
    case StatBool(_) => STAT_BOOL
  }

  function FieldOf(v: WireStat): Field {
    match v
    case StatString(s) => FStr(s)
    case StatInt(i) => FI64(i)
    case StatFloat(bits) => FU64(bits)
    case StatBool(raw) => FU8(raw)
  }

  function StatOf(f: Field): WireStat
    requires !f.FI32?
  {
    match f
    case FStr(s) => StatString(s)
    case FI64(l) => StatInt(l)
    case FU64(bits) => StatFloat(bits)
    case FU8(b) => StatBool(b)
  }

  function KindOfTag(tag: byte): Option<Kind> {
    if tag == STAT_STRING then Some(KStr)
    else if tag == STAT_INT then Some(KI64)
    else if tag == STAT_FLOAT then Some(KU64)
    else if tag == STAT_BOOL then Some(KU8)
    else None
  }

  function PutStat(e: StatEntry, tail: Bytes): Bytes {
    PutStr(e.key, PutU8(TagOf(e.value), PutField(FieldOf(e.value), tail)))
  }

  function GetStat(bs: Bytes): Decoded<StatEntry> {
    var key :- GetStr(bs);
    var tag :- GetU8(key.rest);
    match KindOfTag(tag.value)
    case None => Err(UnsupportedStatType(tag.value))
    case Some(k) =>
      var value :- GetField(k, tag.rest);
      Ok(Got(StatEntry(key.value, StatOf(value.value)), value.rest))
  }

  function SizeStat(e: StatEntry): nat {
    4 + |e.key| + 1 + SizeField(FieldOf(e.value))
  }

  const STAT := Codec(PutStat, GetStat, SizeStat)

  lemma StatRoundTrip(e: StatEntry, tail: Bytes)
    ensures GetStat(PutStat(e, tail)) == Ok(Got(e, tail))
    ensures |PutStat(e, tail)| == SizeStat(e) + |tail|
  {
    hide GetBytes, GetU8, GetI64, GetU64, PutU8, PutStr, PutI64, PutU64;
    var value := PutField(FieldOf(e.value), tail);
    GetPutField(FieldOf(e.value), tail);
    GetPutField(FU8(TagOf(e.value)), value);
    GetPutField(FStr(e.key), PutU8(TagOf(e.value), value));
  }

  lemma StatReadBack(bs: Bytes)
    requires GetStat(bs).Ok?
    ensures PutStat(GetStat(bs).value.value, GetStat(bs).value.rest) == bs
  {
    hide GetBytes, GetU8, GetI64, GetU64, PutU8, PutStr, PutI64, PutU64;
    var key := GetStr(bs).value;
    var tag := GetU8(key.rest).value;
    var k := KindOfTag(tag.value).value;
    var value := GetField(k, tag.rest).value;
    assert PutStr(key.value, key.rest) == bs by {
      PutGetField(KStr, bs);
    }
    assert PutU8(tag.value, tag.rest) == key.rest by {
      PutGetField(KU8, key.rest);
    }
    assert PutField(value.value, value.rest) == tag.rest by {
      PutGetField(k, tag.rest);
    }
    assert TagOf(StatOf(value.value)) == tag.value && FieldOf(StatOf(value.value)) == value.value;
  }

  lemma StatAppend(e: StatEntry, x: Bytes, y: Bytes)
    ensures PutStat(e, x + y) == PutStat(e, x) + y
  {
    var value := PutField(FieldOf(e.value), x);
    PutFieldAppend(FieldOf(e.value), x, y);
    PutFieldAppend(FU8(TagOf(e.value)), value, y);
    PutFieldAppend(FStr(e.key), PutU8(TagOf(e.value), value), y);
  }

  lemma StatLawful()
    ensures Lawful(STAT)
  {
    forall e: StatEntry, tail: Bytes
      ensures GetStat(PutStat(e, tail)) == Ok(Got(e, tail)) && |PutStat(e, tail)| == SizeStat(e) + |tail|
    {
      StatRoundTrip(e, tail);
    }
    forall bs | GetStat(bs).Ok? ensures PutStat(GetStat(bs).value.value, GetStat(bs).value.rest) == bs {
      StatReadBack(bs);
    }
    forall e: StatEntry, x: Bytes, y: Bytes ensures PutStat(e, x + y) == PutStat(e, x) + y {
      StatAppend(e, x, y);
    }
  }

  // ---- mouse points ----

  const POINT_LAYOUT: seq<Kind> := [KI64, KI32, KI32, KI32]

  function PointFields(p: MousePoint): seq<Field> {
    [FI64(p.ts), FI32(p.x), FI32(p.y), FI32(p.buttons)]
  }

  function PointOf(fs: seq<Field>): MousePoint
    requires Kinds(fs) == POINT_LAYOUT
  {
    KindsAt(fs);
    MousePoint(fs[0].l, fs[1].i, fs[2].i, fs[3].i)
  }

  function PutPoint(p: MousePoint, tail: Bytes): Bytes {
    PutFields(PointFields(p), tail)
  }

  function GetPoint(bs: Bytes): Decoded<MousePoint> {
    var fs :- GetFields(POINT_LAYOUT, bs);
    Ok(Got(PointOf(fs.value), fs.rest))
  }

  const POINT := Codec(PutPoint, GetPoint, p => SizeFields(PointFields(p)))

  lemma {:induction false} KindsAt(fs: seq<Field>)
    ensures forall i :: 0 <= i < |fs| ==> Kinds(fs)[i] == fs[i].Kind()
  {
    if fs != [] {
      KindsAt(fs[1..]);
      assert forall i :: 1 <= i < |fs| ==> Kinds(fs)[i] == Kinds(fs[1..])[i - 1] && fs[i] == fs[1..][i - 1];
    }
  }

  /** Two field lists with the same kinds at every index have the same layout. */
  lemma KindsEqual(fs: seq<Field>, ks: seq<Kind>)
    requires |fs| == |ks| && forall i :: 0 <= i < |fs| ==> fs[i].Kind() == ks[i]
    ensures Kinds(fs) == ks
  {
    KindsAt(fs);
  }

  lemma PointLawful()
    ensures Lawful(POINT)
  {
    hide PutFields, GetFields, SizeFields;
    forall p: MousePoint, tail: Bytes
      ensures GetPoint(PutPoint(p, tail)) == Ok(Got(p, tail))
      ensures |PutPoint(p, tail)| == SizeFields(PointFields(p)) + |tail|
    {
      GetPutFields(PointFields(p), tail);
      KindsEqual(PointFields(p), POINT_LAYOUT);
    }
    forall bs | GetPoint(bs).Ok? ensures PutPoint(GetPoint(bs).value.value, GetPoint(bs).value.rest) == bs {
      var fs := GetFields(POINT_LAYOUT, bs).value.value;
      KindsAt(fs);
      assert PointFields(PointOf(fs)) == fs;
      PutGetFields(POINT_LAYOUT, bs);
    }
    forall p: MousePoint, x: Bytes, y: Bytes ensures PutPoint(p, x + y) == PutPoint(p, x) + y {
      PutFieldsAppend(PointFields(p), x, y);
    }
  }

  // ---- environment ----

  const ENV_LAYOUT: seq<Kind> := [
    KStr, KStr, KStr, KStr, KStr, KStr,
    KStr, KI32, KStr, KI32,
    KU64, KI32, KI32, KU8,
    KStr, KStr, KStr, KStr, KStr,
    KI32, KU64, KI32]

  function EnvironmentFields(e: WireEnvironment): seq<Field> {
    [FStr(e.appVersion), FStr(e.os), FStr(e.arch)]
    + [FStr(e.osVersion), FStr(e.steamID), FStr(e.personaName)]
    + [FStr(e.cpuName), FI32(e.cpuCores), FStr(e.gpuName), FI32(e.ramTotalMB)]
    + [FU64(e.displayHz), FI32(e.screenWidth), FI32(e.screenHeight), FU8(e.isWindowed)]
    + [FStr(e.mouseName), FStr(e.mouseVID), FStr(e.mousePID), FStr(e.mouseMI), FStr(e.mouseBackend)]
    + [FI32(e.tracePoints), FU64(e.traceDuration), FI32(e.sampleRate)]
  }

  function EnvironmentOf(fs: seq<Field>): WireEnvironment
    requires Kinds(fs) == ENV_LAYOUT
  {
    KindsAt(fs);
    Environment(
      fs[0].s, fs[1].s, fs[2].s, fs[3].s, fs[4].s, fs[5].s,
      fs[6].s, fs[7].i, fs[8].s, fs[9].i,
      fs[10].bits, fs[11].i, fs[12].i, fs[13].b,
      fs[14].s, fs[15].s, fs[16].s, fs[17].s, fs[18].s,
      fs[19].i, fs[20].bits, fs[21].i)
  }

  function PutEnvironment(e: WireEnvironment, tail: Bytes): Bytes {
    PutFields(EnvironmentFields(e), tail)
  }

  function GetEnvironment(bs: Bytes): Decoded<WireEnvironment> {
    var fs :- GetFields(ENV_LAYOUT, bs);
    Ok(Got(EnvironmentOf(fs.value), fs.rest))
  }

  const ENV := Codec(PutEnvironment, GetEnvironment, e => SizeFields(EnvironmentFields(e)))

  lemma EnvironmentOfFields(e: WireEnvironment)
    ensures Kinds(EnvironmentFields(e)) == ENV_LAYOUT && EnvironmentOf(EnvironmentFields(e)) == e
  {
    KindsEqual(EnvironmentFields(e), ENV_LAYOUT);
  }

  lemma EnvironmentRead(e: WireEnvironment, start: Bytes, done: seq<Field>, rest: Bytes)
    requires GetFields(ENV_LAYOUT, start) == Ok(Got(done, rest)) && done == EnvironmentFields(e)
    ensures GetEnvironment(start) == Ok(Got(e, rest))
  {
    hide GetFields, EnvironmentFields, EnvironmentOf;
    EnvironmentOfFields(e);
  }

  lemma FieldsOfEnvironment(fs: seq<Field>)
    requires Kinds(fs) == ENV_LAYOUT
    ensures EnvironmentFields(EnvironmentOf(fs)) == fs
  {
    KindsAt(fs);
  }

  lemma EnvironmentLawful()
    ensures Lawful(ENV)
  {
    hide PutFields, GetFields, SizeFields, EnvironmentFields, EnvironmentOf;
    forall e: WireEnvironment, tail: Bytes
      ensures ENV.get(ENV.put(e, tail)) == Ok(Got(e, tail))
      ensures |ENV.put(e, tail)| == ENV.size(e) + |tail|
    {
      GetPutFields(EnvironmentFields(e), tail);
      EnvironmentOfFields(e);
    }
    forall bs | ENV.get(bs).Ok?
      ensures ENV.put(ENV.get(bs).value.value, ENV.get(bs).value.rest) == bs
    {
      FieldsOfEnvironment(GetFields(ENV_LAYOUT, bs).value.value);
      PutGetFields(ENV_LAYOUT, bs);
    }
    forall e: WireEnvironment, x: Bytes, y: Bytes ensures ENV.put(e, x + y) == ENV.put(e, x) + y {
      PutFieldsAppend(EnvironmentFields(e), x, y);
    }
  }
}
