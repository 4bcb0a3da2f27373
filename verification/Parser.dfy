/** The `.refleks` parser: a reader that advances over the payload, and what `Parse` accepts. */
module Parser {
  import opened Common
  import opened Codecs
  import opened Primitives
  import opened Fields
  import opened Wire
  import opened Tree
  import opened Layout

  const MAGIC: Bytes := [0x52, 0x46, 0x4C, 0x4B] // "RFLK"
  const VERSION: byte := 1
  const COMPRESSION_NONE: byte := 0
  const COMPRESSION_ZSTD: byte := 1
  const HEADER_SIZE: nat := 14
  const CHECKSUM_SIZE: nat := 8

  datatype StatValue = VString(s: Str) | VInt(i: int64) | VFloat(bits: uint64) | VBool(b: bool)

  datatype File = File(
    fileName: Name, playedAt: int64, formatVersion: byte, stats: map<Str, StatValue>,
    events: Events, mouseTrace: Trace, env: Environment<bool>)

  // ---- from the wire tree to the file ----

  function ValueOf(v: WireStat): StatValue {
    match v
    case StatString(s) => VString(s)
    case StatInt(i) => VInt(i)
    case StatFloat(bits) => VFloat(bits)
    case StatBool(raw) => VBool(raw == 1)
  }

  function StatMap(es: seq<StatEntry>): map<Str, StatValue> {
    if es == [] then map[] else
      var last := es[|es| - 1];
      StatMap(es[..|es| - 1])[last.key := ValueOf(last.value)]
  }

  function ProjectEnvironment(e: WireEnvironment): Environment<bool> {
    Environment(
      e.appVersion, e.os, e.arch, e.osVersion, e.steamID, e.personaName,
      e.cpuName, e.cpuCores, e.gpuName, e.ramTotalMB,
      e.displayHz, e.screenWidth, e.screenHeight, e.isWindowed == 1,
      e.mouseName, e.mouseVID, e.mousePID, e.mouseMI, e.mouseBackend,
      e.tracePoints, e.traceDuration, e.sampleRate)
  }

  function Project(t: WireTree, playedAt: int64): File {
    File(t.fileName, playedAt, VERSION, StatMap(t.body.stats), t.body.events, t.body.trace,
         ProjectEnvironment(t.body.env))
  }

  lemma NoStats()
    ensures StatMap([]) == map[]
  {
  }

  lemma StatMapStep(es: seq<StatEntry>, e: StatEntry)
    ensures StatMap(es + [e]) == StatMap(es)[e.key := ValueOf(e.value)]
  {
    assert (es + [e])[..|es|] == es;
  }

  /** The map has a key exactly when some entry has it. */
  lemma {:induction false} StatMapKeys(es: seq<StatEntry>, key: Str)
    ensures key in StatMap(es) <==> exists i :: 0 <= i < |es| && es[i].key == key
  {
    if es != [] {
      var front := es[..|es| - 1];
      StatMapKeys(front, key);
      assert key in StatMap(es) <==> key in StatMap(front) || key == es[|es| - 1].key;
      if i :| 0 <= i < |es| && es[i].key == key && i < |front| {
        assert front[i].key == key;
      }
    }
  }

  /** The last entry with a key wins. */
  lemma {:induction false} StatMapLastWins(es: seq<StatEntry>, i: nat)
    requires i < |es| && forall j :: i < j < |es| ==> es[j].key != es[i].key
    ensures es[i].key in StatMap(es) && StatMap(es)[es[i].key] == ValueOf(es[i].value)
  {
    if i < |es| - 1 {
      var front := es[..|es| - 1];
      assert front[i] == es[i];
      StatMapLastWins(front, i);
    }
  }

  // ---- the reader ----

  /** Result `r` and remaining bytes `rest` are what decoding gave. */
  ghost predicate Reads<T>(r: Result<T, Error>, rest: Bytes, d: Decoded<T>) {
    match d
    case Ok(g) => r == Ok(g.value) && rest == g.rest
    case Err(e) => r == Err(e)
  }

  lemma ThreeMore(fs: seq<Field>, a: Field, b: Field, c: Field)
    ensures fs + [a] + [b] + [c] == fs + [a, b, c]
  {
  }

  lemma FourMore(fs: seq<Field>, a: Field, b: Field, c: Field, d: Field)
    ensures fs + [a] + [b] + [c] + [d] == fs + [a, b, c, d]
  {
  }

  lemma TwoMoreThanThree(fs: seq<Field>, a: Field, b: Field, c: Field, d: Field, e: Field)
    ensures fs + [a, b, c] + [d] + [e] == fs + [a, b, c, d, e]
  {
  }

  /** Four bytes as a number, the first the least significant. */
  ghost function FourByteSum(bs: Bytes): int
    requires |bs| >= 4
  {
    bs[0] as int + 0x100 * bs[1] as int + 0x1_0000 * bs[2] as int + 0x100_0000 * bs[3] as int
  }

  /** A text was read: its length, which is checked, and then that many bytes. */
  ghost predicate TextRead(bs: Bytes, maxLength: nat, r: Result<Bytes, Error>, rest: Bytes) {
    && (r.Ok? ==> |bs| >= 4)
    && (r.Err? && r.error.StringTooLarge? ==> |bs| >= 4 && rest == bs[4..])
    && (|bs| >= 4 ==>
          var length := FourByteSum(bs);
          && (length > maxLength <==> r == Err(StringTooLarge(length)))
          && (r.Ok? ==> 4 + length <= |bs| && r.value == bs[4..4 + length] && rest == bs[4 + length..]))
  }

  ghost function EightByteSum(bs: Bytes): int
    requires |bs| >= 8
  {
    bs[0] as int + 0x100 * bs[1] as int + 0x1_0000 * bs[2] as int + 0x100_0000 * bs[3] as int
    + 0x1_0000_0000 * bs[4] as int + 0x100_0000_0000 * bs[5] as int
    + 0x1_0000_0000_0000 * bs[6] as int + 0x100_0000_0000_0000 * bs[7] as int
  }

  /** `bytes.Reader` over the payload. */
  class Reader {
    const data: Bytes
    var pos: nat

    ghost predicate Valid()
      reads this
    {
      pos <= |data|
    }

    function Rest(): Bytes
      requires Valid()
      reads this
    {
      data[pos..]
    }

    constructor (payload: Bytes)
      ensures Valid() && Rest() == payload
    {
      data := payload;
      pos := 0;
    }

    /** `io.ReadFull` of `n` bytes. */
    method ReadFull(n: nat) returns (r: Result<Bytes, Error>)
      requires Valid()
      modifies this
      ensures Valid() && Reads(r, Rest(), Take(n, old(Rest())))
      ensures r.Ok? <==> n <= |old(Rest())|
      ensures r.Ok? ==> r.value == old(Rest())[..n] && Rest() == old(Rest())[n..]
      ensures r.Err? ==> r.error == if old(Rest()) == [] then Eof else UnexpectedEof
    {
      assert Take(n, Rest()).Ok? ==> Rest()[..n] == data[pos..pos + n] && Rest()[n..] == data[pos + n..];
      if n <= |data| - pos {
        r := Ok(data[pos..pos + n]);
        pos := pos + n;
      } else if pos == |data| {
        r := Err(Eof);
      } else {
        r := Err(UnexpectedEof);
        pos := |data|;
      }
    }

    method ReadUint8() returns (r: Result<byte, Error>)
      requires Valid()
      modifies this
      ensures Valid() && Reads(r, Rest(), GetU8(old(Rest())))
    {
      var raw :- ReadFull(1);
      return Ok(raw[0]);
    }

    method ReadUint32() returns (r: Result<uint32, Error>)
      requires Valid()
      modifies this
      ensures Valid() && Reads(r, Rest(), GetU32(old(Rest())))
      ensures r.Ok? ==> |old(Rest())| >= 4 && var bs := old(Rest());
                r.value == FourByteSum(bs)
    {
      var raw :- ReadFull(4);
      FourBytes(raw);
      assert Pow256(4) == 0x1_0000_0000;
      return Ok(FromLittleEndian(raw));
    }

    method ReadInt32() returns (r: Result<int32, Error>)
      requires Valid()
      modifies this
      ensures Valid() && Reads(r, Rest(), GetI32(old(Rest())))
      ensures r.Ok? ==> |old(Rest())| >= 4 && var bs := old(Rest());
                r.value == FourByteSum(bs) - if bs[3] >= 0x80 then 0x1_0000_0000 else 0
    {
      var raw :- ReadUint32();
      return Ok(ToSigned(raw, 0x1_0000_0000));
    }

    /** Also the raw bits of `readFloat64`. */
    method ReadUint64() returns (r: Result<uint64, Error>)
      requires Valid()
      modifies this
      ensures Valid() && Reads(r, Rest(), GetU64(old(Rest())))
      ensures r.Ok? ==> |old(Rest())| >= 8 && r.value == EightByteSum(old(Rest()))
    {
      var raw :- ReadFull(8);
      EightBytes(raw);
      assert Pow256(8) == 0x1_0000_0000_0000_0000;
      return Ok(FromLittleEndian(raw));
    }

    method ReadInt64() returns (r: Result<int64, Error>)
      requires Valid()
      modifies this
      ensures Valid() && Reads(r, Rest(), GetI64(old(Rest())))
      ensures r.Ok? ==> |old(Rest())| >= 8 && var bs := old(Rest());
                r.value == EightByteSum(bs) - if bs[7] >= 0x80 then 0x1_0000_0000_0000_0000 else 0
    {
      var raw :- ReadUint64();
      return Ok(ToSigned(raw, 0x1_0000_0000_0000_0000));
    }

    method ReadString(maxLength: nat) returns (r: Result<Bytes, Error>)
      requires Valid()
      modifies this
      ensures Valid() && Reads(r, Rest(), GetBytes(maxLength, old(Rest())))
      ensures TextRead(old(Rest()), maxLength, r, Rest())
    {
      var length :- ReadUint32();
      if length > maxLength {
        return Err(StringTooLarge(length));
      }
      if length == 0 {
        return Ok([]);
      }
      var buf :- ReadFull(length);
      return Ok(buf);
    }

    /** One iteration of the loop of `readStats`. */
    method ReadStat() returns (r: Result<StatEntry, Error>)
      requires Valid()
      modifies this
      ensures Valid() && Reads(r, Rest(), GetStat(old(Rest())))
    {
      hide TextRead, FourByteSum, EightByteSum, GetBytes, GetU8, GetI64, GetU64, Rest;
      var key :- ReadString(MAX_STRING_BYTES);
      var tag :- ReadUint8();
      if tag == STAT_STRING {
        var s :- ReadString(MAX_STRING_BYTES);
        return Ok(StatEntry(key, StatString(s)));
      } else if tag == STAT_INT {
        var i :- ReadInt64();
        return Ok(StatEntry(key, StatInt(i)));
      } else if tag == STAT_FLOAT {
        var bits :- ReadUint64();
        return Ok(StatEntry(key, StatFloat(bits)));
      } else if tag == STAT_BOOL {
        var raw :- ReadUint8();
        return Ok(StatEntry(key, StatBool(raw)));
      } else {
        return Err(UnsupportedStatType(tag));
      }
    }

    method ReadStats() returns (r: Result<map<Str, StatValue>, Error>)
      requires Valid()
      modifies this
      ensures Valid()
      ensures match GetStats(old(Rest()))
              case Ok(g) => r == Ok(StatMap(g.value)) && StatsSay(r.value, g.value) && Rest() == g.rest
              case Err(e) => r == Err(e)
      ensures |old(Rest())| >= 4 && FourByteSum(old(Rest())) > 50000 ==> r == Err(TooManyStats(FourByteSum(old(Rest()))))
    {
      var count :- ReadUint32();
      if count > MAX_STATS_ENTRIES {
        return Err(TooManyStats(count));
      }
      hide TextRead, FourByteSum, Looping, GetMany, Rest, StatsSay, StatMap, ValueOf;
      ghost var start := Rest();
      ghost var done: seq<StatEntry> := [];
      var stats: map<Str, StatValue> := map[];
      NoStats();
      BeginLoop(STAT, count, start);
      for i := 0 to count
        invariant Valid() && |done| == i && stats == StatMap(done)
        invariant Looping(STAT, count, start, done, Rest())
      {
        NextItem(STAT, count, start, done, Rest());
        var entry :- ReadStat();
        StatMapStep(done, entry);
        stats := stats[entry.key := ValueOf(entry.value)];
        done := done + [entry];
      }
      EndLoop(STAT, count, start, done, Rest());
      StatMapSays(done);
      return Ok(stats);
    }

    method ReadRow() returns (r: Result<Row, Error>)
      requires Valid()
      modifies this
      ensures Valid() && Reads(r, Rest(), GetRow(old(Rest())))
      ensures |old(Rest())| >= 4 && FourByteSum(old(Rest())) > 128 ==> r == Err(TooManyEventColumns(FourByteSum(old(Rest()))))
    {
      var cols :- ReadUint32();
      if cols > MAX_EVENT_COLS {
        return Err(TooManyEventColumns(cols));
      }
      hide TextRead, FourByteSum, Looping, GetMany, Rest;
      ghost var start := Rest();
      var row: seq<Str> := [];
      BeginLoop(STR, cols, start);
      for j := 0 to cols
        invariant Valid() && |row| == j
        invariant Looping(STR, cols, start, row, Rest())
      {
        NextItem(STR, cols, start, row, Rest());
        var value :- ReadString(MAX_STRING_BYTES);
        row := row + [value];
      }
      EndLoop(STR, cols, start, row, Rest());
      return Ok(row);
    }

    method ReadEvents() returns (r: Result<Events, Error>)
      requires Valid()
      modifies this
      ensures Valid() && Reads(r, Rest(), GetEvents(old(Rest())))
      ensures |old(Rest())| >= 4 && FourByteSum(old(Rest())) > 500000 ==> r == Err(TooManyEventRows(FourByteSum(old(Rest()))))
    {
      var rows :- ReadUint32();
      if rows > MAX_EVENT_ROWS {
        return Err(TooManyEventRows(rows));
      }
      hide TextRead, FourByteSum, Looping, GetMany, Rest;
      ghost var start := Rest();
      var events: seq<Row> := [];
      BeginLoop(ROW, rows, start);
      for i := 0 to rows
        invariant Valid() && |events| == i
        invariant Looping(ROW, rows, start, events, Rest())
      {
        NextItem(ROW, rows, start, events, Rest());
        var row :- ReadRow();
        events := events + [row];
      }
      EndLoop(ROW, rows, start, events, Rest());
      return Ok(events);
    }

    method ReadPoint() returns (r: Result<MousePoint, Error>)
      requires Valid()
      modifies this
      ensures Valid() && Reads(r, Rest(), GetPoint(old(Rest())))
    {
      hide TextRead, FourByteSum, EightByteSum, PartWay, GetFields, GetField, GetBytes, GetU8, GetI32, GetI64, GetU64, Rest, Valid;
      ghost var start, done := Rest(), [];
      BeginRecord(POINT_LAYOUT, start);
      NextI64(POINT_LAYOUT, start, done, Rest());
      var ts :- ReadInt64();
      done := done + [FI64(ts)];
      NextI32(POINT_LAYOUT, start, done, Rest());
      var x :- ReadInt32();
      done := done + [FI32(x)];
      NextI32(POINT_LAYOUT, start, done, Rest());
      var y :- ReadInt32();
      done := done + [FI32(y)];
      NextI32(POINT_LAYOUT, start, done, Rest());
      var buttons :- ReadInt32();
      done := done + [FI32(buttons)];
      EndRecord(POINT_LAYOUT, start, done, Rest());
      return Ok(MousePoint(ts, x, y, buttons));
    }

    method ReadMouseTrace() returns (r: Result<Trace, Error>)
      requires Valid()
      modifies this
      ensures Valid() && Reads(r, Rest(), GetTrace(old(Rest())))
      ensures |old(Rest())| >= 4 && FourByteSum(old(Rest())) > 20000000 ==> r == Err(TooManyMousePoints(FourByteSum(old(Rest()))))
    {
      var count :- ReadUint32();
      if count > MAX_MOUSE_POINTS {
        return Err(TooManyMousePoints(count));
      }
      hide TextRead, FourByteSum, Looping, GetMany, Rest;
      ghost var start := Rest();
      var trace: seq<MousePoint> := [];
      BeginLoop(POINT, count, start);
      for i := 0 to count
        invariant Valid() && |trace| == i
        invariant Looping(POINT, count, start, trace, Rest())
      {
        NextItem(POINT, count, start, trace, Rest());
        var point :- ReadPoint();
        trace := trace + [point];
      }
      EndLoop(POINT, count, start, trace, Rest());
      return Ok(trace);
    }

    /** Three texts of `readEnvironment` in a row. */
    method ReadThreeTexts(ghost layout: seq<Kind>, ghost start: Bytes, ghost done: seq<Field>)
      returns (r: Result<(Str, Str, Str), Error>)
      requires Valid() && |done| + 3 <= |layout| && PartWay(layout, start, done, Rest())
      requires layout[|done|] == layout[|done| + 1] == layout[|done| + 2] == KStr
      modifies this
      ensures Valid()
      ensures r.Ok? ==> PartWay(layout, start, done + [FStr(r.value.0), FStr(r.value.1), FStr(r.value.2)], Rest())
      ensures r.Err? ==> GetFields(layout, start) == Err(r.error)
    {
      hide TextRead, FourByteSum, EightByteSum, PartWay, GetFields, GetField, GetBytes, GetU8, GetI32, GetI64, GetU64, Rest, Valid;
      ghost var soFar := done;
      NextStr(layout, start, soFar, Rest());
      var first :- ReadString(MAX_STRING_BYTES);
      soFar := soFar + [FStr(first)];
      NextStr(layout, start, soFar, Rest());
      var second :- ReadString(MAX_STRING_BYTES);
      soFar := soFar + [FStr(second)];
      NextStr(layout, start, soFar, Rest());
      var third :- ReadString(MAX_STRING_BYTES);
      ThreeMore(done, FStr(first), FStr(second), FStr(third));
      return Ok((first, second, third));
    }

    /** The fields of `readEnvironment` about the machine. */
    method ReadHardware(ghost start: Bytes, ghost done: seq<Field>) returns (r: Result<(Str, int32, Str, int32), Error>)
      requires Valid() && |done| == 6 && PartWay(ENV_LAYOUT, start, done, Rest())
      modifies this
      ensures Valid()
      ensures r.Ok? ==> PartWay(ENV_LAYOUT, start, done + [FStr(r.value.0), FI32(r.value.1), FStr(r.value.2), FI32(r.value.3)], Rest())
      ensures r.Err? ==> GetFields(ENV_LAYOUT, start) == Err(r.error)
    {
      hide TextRead, FourByteSum, EightByteSum, PartWay, GetFields, GetField, GetBytes, GetU8, GetI32, GetI64, GetU64, Rest, Valid;
      ghost var soFar := done;
      NextStr(ENV_LAYOUT, start, soFar, Rest());
      var cpuName :- ReadString(MAX_STRING_BYTES);
      soFar := soFar + [FStr(cpuName)];
      NextI32(ENV_LAYOUT, start, soFar, Rest());
      var cpuCores :- ReadInt32();
      soFar := soFar + [FI32(cpuCores)];
      NextStr(ENV_LAYOUT, start, soFar, Rest());
      var gpuName :- ReadString(MAX_STRING_BYTES);
      soFar := soFar + [FStr(gpuName)];
      NextI32(ENV_LAYOUT, start, soFar, Rest());
      var ramTotalMB :- ReadInt32();
      soFar := soFar + [FI32(ramTotalMB)];
      FourMore(done, FStr(cpuName), FI32(cpuCores), FStr(gpuName), FI32(ramTotalMB));
      return Ok((cpuName, cpuCores, gpuName, ramTotalMB));
    }

    /** The fields of `readEnvironment` about the screen. */
    method ReadDisplay(ghost start: Bytes, ghost done: seq<Field>) returns (r: Result<(uint64, int32, int32, byte), Error>)
      requires Valid() && |done| == 10 && PartWay(ENV_LAYOUT, start, done, Rest())
      modifies this
      ensures Valid()
      ensures r.Ok? ==> PartWay(ENV_LAYOUT, start, done + [FU64(r.value.0), FI32(r.value.1), FI32(r.value.2), FU8(r.value.3)], Rest())
      ensures r.Err? ==> GetFields(ENV_LAYOUT, start) == Err(r.error)
    {
      hide TextRead, FourByteSum, EightByteSum, PartWay, GetFields, GetField, GetBytes, GetU8, GetI32, GetI64, GetU64, Rest, Valid;
      ghost var soFar := done;
      NextU64(ENV_LAYOUT, start, soFar, Rest());
      var displayHz :- ReadUint64();
      soFar := soFar + [FU64(displayHz)];
      NextI32(ENV_LAYOUT, start, soFar, Rest());
      var screenWidth :- ReadInt32();
      soFar := soFar + [FI32(screenWidth)];
      NextI32(ENV_LAYOUT, start, soFar, Rest());
      var screenHeight :- ReadInt32();
      soFar := soFar + [FI32(screenHeight)];
      NextU8(ENV_LAYOUT, start, soFar, Rest());
      var isWindowedRaw :- ReadUint8();
      soFar := soFar + [FU8(isWindowedRaw)];
      FourMore(done, FU64(displayHz), FI32(screenWidth), FI32(screenHeight), FU8(isWindowedRaw));
      return Ok((displayHz, screenWidth, screenHeight, isWindowedRaw));
    }

    /** The fields of `readEnvironment` about the mouse. */
    method ReadMouse(ghost start: Bytes, ghost done: seq<Field>) returns (r: Result<(Str, Str, Str, Str, Str), Error>)
      requires Valid() && |done| == 14 && PartWay(ENV_LAYOUT, start, done, Rest())
      modifies this
      ensures Valid()
      ensures r.Ok? ==> PartWay(ENV_LAYOUT, start, done + [FStr(r.value.0), FStr(r.value.1), FStr(r.value.2), FStr(r.value.3), FStr(r.value.4)], Rest())
      ensures r.Err? ==> GetFields(ENV_LAYOUT, start) == Err(r.error)
    {
      hide TextRead, FourByteSum, EightByteSum, PartWay, GetFields, GetField, GetBytes, GetU8, GetI32, GetI64, GetU64, Rest, Valid;
      var names :- ReadThreeTexts(ENV_LAYOUT, start, done);
      ghost var soFar := done + [FStr(names.0), FStr(names.1), FStr(names.2)];
      NextStr(ENV_LAYOUT, start, soFar, Rest());
      var mouseMI :- ReadString(MAX_STRING_BYTES);
      soFar := soFar + [FStr(mouseMI)];
      NextStr(ENV_LAYOUT, start, soFar, Rest());
      var mouseBackend :- ReadString(MAX_STRING_BYTES);
      TwoMoreThanThree(done, FStr(names.0), FStr(names.1), FStr(names.2), FStr(mouseMI), FStr(mouseBackend));
      return Ok((names.0, names.1, names.2, mouseMI, mouseBackend));
    }

    /** The fields of `readEnvironment` about the trace summary. */
    method ReadSampling(ghost start: Bytes, ghost done: seq<Field>) returns (r: Result<(int32, uint64, int32), Error>)
      requires Valid() && |done| == 19 && PartWay(ENV_LAYOUT, start, done, Rest())
      modifies this
      ensures Valid()
      ensures r.Ok? ==> PartWay(ENV_LAYOUT, start, done + [FI32(r.value.0), FU64(r.value.1), FI32(r.value.2)], Rest())
      ensures r.Err? ==> GetFields(ENV_LAYOUT, start) == Err(r.error)
    {
      hide TextRead, FourByteSum, EightByteSum, PartWay, GetFields, GetField, GetBytes, GetU8, GetI32, GetI64, GetU64, Rest, Valid;
      ghost var soFar := done;
      NextI32(ENV_LAYOUT, start, soFar, Rest());
      var tracePoints :- ReadInt32();
      soFar := soFar + [FI32(tracePoints)];
      NextU64(ENV_LAYOUT, start, soFar, Rest());
      var traceDuration :- ReadUint64();
      soFar := soFar + [FU64(traceDuration)];
      NextI32(ENV_LAYOUT, start, soFar, Rest());
      var sampleRate :- ReadInt32();
      soFar := soFar + [FI32(sampleRate)];
      ThreeMore(done, FI32(tracePoints), FU64(traceDuration), FI32(sampleRate));
      return Ok((tracePoints, traceDuration, sampleRate));
    }

    method ReadEnvironment() returns (r: Result<Environment<bool>, Error>)
      requires Valid()
      modifies this
      ensures Valid()
      ensures match GetEnvironment(old(Rest()))
              case Ok(g) => r == Ok(ProjectEnvironment(g.value)) && EnvironmentSays(r.value, g.value) && Rest() == g.rest
              case Err(e) => r == Err(e)
    {
      hide EnvironmentOf, ProjectEnvironment, EnvironmentSays, FourByteSum, EightByteSum, PartWay, GetFields, GetField, GetBytes, GetU8, GetI32, GetI64, GetU64, Rest, Valid;
      ghost var start := Rest();
      BeginRecord(ENV_LAYOUT, start);
      var p :- ReadThreeTexts(ENV_LAYOUT, start, []);
      ghost var done := [FStr(p.0), FStr(p.1), FStr(p.2)];
      assert [] + done == done;
      var u :- ReadThreeTexts(ENV_LAYOUT, start, done);
      done := done + [FStr(u.0), FStr(u.1), FStr(u.2)];
      var h :- ReadHardware(start, done);
      done := done + [FStr(h.0), FI32(h.1), FStr(h.2), FI32(h.3)];
      var d :- ReadDisplay(start, done);
      done := done + [FU64(d.0), FI32(d.1), FI32(d.2), FU8(d.3)];
      var m :- ReadMouse(start, done);
      done := done + [FStr(m.0), FStr(m.1), FStr(m.2), FStr(m.3), FStr(m.4)];
      var s :- ReadSampling(start, done);
      done := done + [FI32(s.0), FU64(s.1), FI32(s.2)];
      EndRecord(ENV_LAYOUT, start, done, Rest());
      var raw := Environment(
        p.0, p.1, p.2, u.0, u.1, u.2, h.0, h.1, h.2, h.3, d.0, d.1, d.2, d.3,
        m.0, m.1, m.2, m.3, m.4, s.0, s.1, s.2);
      assert done == EnvironmentFields(raw);
      EnvironmentRead(raw, start, done, Rest());
      ProjectedEnvironment(raw);
      return Ok(ProjectEnvironment(raw));
    }

    method EnsureEof() returns (r: Result<(), Error>)
      requires Valid()
      modifies this
      ensures r == if old(Rest()) == [] then Ok(()) else Err(TrailingBytes)
    {
      if pos == |data| {
        return Ok(());
      }
      pos := pos + 1;
      return Err(TrailingBytes);
    }
  }
  // ---- Parse ----

  /** The bytes of a file: magic, version, no compression, time of play, payload, checksum of the payload. */
  function FileBytes(t: WireTree, playedAt: int64, checksum: Bytes -> uint64): Bytes {
    var payload := PutTree(t, []);
    MAGIC + [VERSION, COMPRESSION_NONE] + PutI64(playedAt, []) + payload + PutU64(checksum(payload), [])
  }

  /** The payload of an uncompressed file, `blank` being the test that a file name trims to nothing. */
  function ParsePayload(bs: Bytes, playedAt: int64, blank: Bytes -> bool): Result<File, Error> {
    var name :- GetName(bs);
    if blank(name.value) then Err(BlankFileName) else
      var body :- GetBody(name.rest);
      if body.rest != [] then Err(TrailingBytes)
      else Ok(Project(WireTree(name.value, body.value), playedAt))
  }

  function PlayedAt(raw: Bytes): int64
    requires |raw| >= HEADER_SIZE
  {
    GetI64(raw[6..14]).value.value
  }

  function Payload(raw: Bytes): Bytes
    requires |raw| >= HEADER_SIZE + CHECKSUM_SIZE
  {
    raw[HEADER_SIZE..|raw| - CHECKSUM_SIZE]
  }

  function StoredChecksum(raw: Bytes): uint64
    requires |raw| >= CHECKSUM_SIZE
  {
    GetU64(raw[|raw| - CHECKSUM_SIZE..]).value.value
  }

  /** `Parse`, on values. */
  function Parsed(raw: Bytes, checksum: Bytes -> uint64, blank: Bytes -> bool): Result<File, Error> {
    if |raw| < HEADER_SIZE + CHECKSUM_SIZE then Err(FileTooSmall)
    else if raw[..4] != MAGIC then Err(BadMagic)
    else if raw[4] != VERSION then Err(UnsupportedVersion(raw[4]))
    else if checksum(Payload(raw)) != StoredChecksum(raw) then Err(ChecksumMismatch)
    else if raw[5] == COMPRESSION_ZSTD then Err(CompressedPayload)
    else if raw[5] != COMPRESSION_NONE then Err(UnsupportedCompression(raw[5]))
    else ParsePayload(Payload(raw), PlayedAt(raw), blank)
  }

  // ---- the same, said byte by byte and field by field ----

  /** The bytes of a file, as the format has them. */
  ghost predicate IsFile(raw: Bytes, t: WireTree, playedAt: int64, checksum: Bytes -> uint64) {
    raw == [0x52, 0x46, 0x4C, 0x4B, 1, 0] + Int8(playedAt) + PayloadBytes(t) + Bytes8(checksum(PayloadBytes(t)))
  }

  ghost predicate ValueSays(v: StatValue, w: WireStat) {
    match w
    case StatString(s) => v == VString(s)
    case StatInt(i) => v == VInt(i)
    case StatFloat(bits) => v == VFloat(bits)
    case StatBool(raw) => v.VBool? && (v.b <==> raw == 1)
  }

  ghost predicate HasKey(es: seq<StatEntry>, key: Str) {
    exists i :: 0 <= i < |es| && es[i].key == key
  }

  /** Entry `i` is the last one with its key. */
  ghost predicate IsLast(es: seq<StatEntry>, i: int) {
    0 <= i < |es| && forall j :: i < j < |es| ==> es[j].key != es[i].key
  }

  ghost predicate StatsSay(stats: map<Str, StatValue>, es: seq<StatEntry>) {
    && (forall key :: key in stats <==> HasKey(es, key))
    && (forall i :: IsLast(es, i) ==> es[i].key in stats && ValueSays(stats[es[i].key], es[i].value))
  }

  ghost predicate EnvironmentSays(e: Environment<bool>, w: WireEnvironment) {
    && e.appVersion == w.appVersion && e.os == w.os && e.arch == w.arch && e.osVersion == w.osVersion
    && e.steamID == w.steamID && e.personaName == w.personaName
    && e.cpuName == w.cpuName && e.cpuCores == w.cpuCores && e.gpuName == w.gpuName && e.ramTotalMB == w.ramTotalMB
    && e.displayHz == w.displayHz && e.screenWidth == w.screenWidth && e.screenHeight == w.screenHeight
    && (e.isWindowed <==> w.isWindowed == 1)
    && e.mouseName == w.mouseName && e.mouseVID == w.mouseVID && e.mousePID == w.mousePID && e.mouseMI == w.mouseMI
    && e.mouseBackend == w.mouseBackend
    && e.tracePoints == w.tracePoints && e.traceDuration == w.traceDuration && e.sampleRate == w.sampleRate
  }

  lemma ProjectedEnvironment(w: WireEnvironment)
    ensures EnvironmentSays(ProjectEnvironment(w), w)
  {
  }

  /** The decoded file says what the tree says, field by field. */
  ghost predicate FileSays(f: File, t: WireTree, playedAt: int64) {
    && f.fileName == t.fileName && f.playedAt == playedAt && f.formatVersion == 1
    && f.events == t.body.events && f.mouseTrace == t.body.trace
    && StatsSay(f.stats, t.body.stats) && EnvironmentSays(f.env, t.body.env)
  }

  /** What is wrong in front of the payload or behind it. */
  ghost function HeaderFault(raw: Bytes, checksum: Bytes -> uint64): Option<Error> {
    if |raw| < 22 then Some(FileTooSmall)
    else if raw[..4] != [0x52, 0x46, 0x4C, 0x4B] then Some(BadMagic)
    else if raw[4] != 1 then Some(UnsupportedVersion(raw[4]))
    else if raw[|raw| - 8..] != Bytes8(checksum(raw[14..|raw| - 8])) then Some(ChecksumMismatch)
    else if raw[5] == 1 then Some(CompressedPayload)
    else if raw[5] != 0 then Some(UnsupportedCompression(raw[5]))
    else None
  }

  ghost predicate DecodesTo(raw: Bytes, checksum: Bytes -> uint64, blank: Bytes -> bool, f: File) {
    exists t: WireTree, playedAt: int64 ::
      IsFile(raw, t, playedAt, checksum) && !blank(t.fileName) && FileSays(f, t, playedAt)
  }

  /** Accepted bytes are those of a file with a name that is not blank, and the result is what that file says; nothing else
      is accepted, and a fault around the payload is what is reported first. */
  ghost predicate ParseSays(raw: Bytes, checksum: Bytes -> uint64, blank: Bytes -> bool, r: Result<File, Error>) {
    && (HeaderFault(raw, checksum).Some? ==> r == Err(HeaderFault(raw, checksum).value))
    && match r
       case Ok(f) => DecodesTo(raw, checksum, blank, f)
       case Err(_) => forall t: WireTree, playedAt: int64 :: IsFile(raw, t, playedAt, checksum) ==> blank(t.fileName)
  }

  lemma FileLaidOut(t: WireTree, playedAt: int64, checksum: Bytes -> uint64)
    ensures IsFile(FileBytes(t, playedAt, checksum), t, playedAt, checksum)
  {
    hide PutI64, PutU64, PutTree, Int8, Bytes8, PayloadBytes;
    PutsTree(t);
    PutsField(FI64(playedAt), []);
    PutsField(FU64(checksum(PayloadBytes(t))), []);
  }

  lemma StatMapSays(es: seq<StatEntry>)
    ensures StatsSay(StatMap(es), es)
  {
    hide StatMap;
    forall key ensures key in StatMap(es) <==> HasKey(es, key) {
      StatMapKeys(es, key);
    }
    forall i | IsLast(es, i) ensures es[i].key in StatMap(es) && ValueSays(StatMap(es)[es[i].key], es[i].value) {
      StatMapLastWins(es, i);
    }
  }

  /** The projection of a tree says what the tree says. */
  lemma ProjectSays(t: WireTree, playedAt: int64)
    ensures FileSays(Project(t, playedAt), t, playedAt)
  {
    hide StatMap, StatsSay;
    StatMapSays(t.body.stats);
  }

  lemma ChecksumBytes(raw: Bytes, sum: uint64)
    requires |raw| >= CHECKSUM_SIZE
    ensures StoredChecksum(raw) == sum <==> raw[|raw| - 8..] == Bytes8(sum)
  {
    hide PutU64, Bytes8, FromLittleEndian;
    var bs := raw[|raw| - CHECKSUM_SIZE..];
    U64Lawful();
    ReadBackAt(U64, bs);
    RoundTripAt(U64, sum, []);
    PutsField(FU64(StoredChecksum(raw)), []);
    PutsField(FU64(sum), []);
  }

  lemma HeaderFirst(raw: Bytes, checksum: Bytes -> uint64, blank: Bytes -> bool)
    ensures HeaderFault(raw, checksum).Some? ==> Parsed(raw, checksum, blank) == Err(HeaderFault(raw, checksum).value)
  {
    hide StoredChecksum, PlayedAt, ParsePayload, Bytes8;
    if |raw| >= 22 {
      ChecksumBytes(raw, checksum(raw[14..|raw| - 8]));
    }
  }

  lemma LaidOutOnce(raw: Bytes, t: WireTree, playedAt: int64, checksum: Bytes -> uint64)
    ensures IsFile(raw, t, playedAt, checksum) <==> raw == FileBytes(t, playedAt, checksum)
  {
    FileLaidOut(t, playedAt, checksum);
  }

  lemma WhatParseSays(raw: Bytes, checksum: Bytes -> uint64, blank: Bytes -> bool)
    ensures ParseSays(raw, checksum, blank, Parsed(raw, checksum, blank))
  {
    hide Parsed, FileBytes, IsFile, FileSays, Project, HeaderFault;
    HeaderFirst(raw, checksum, blank);
    ParseAcceptsExactlyFiles(raw, checksum, blank);
    forall t: WireTree, playedAt: int64 ensures IsFile(raw, t, playedAt, checksum) <==> raw == FileBytes(t, playedAt, checksum) {
      LaidOutOnce(raw, t, playedAt, checksum);
    }
    if Parsed(raw, checksum, blank).Ok? {
      var t: WireTree, playedAt: int64 :| !blank(t.fileName) && raw == FileBytes(t, playedAt, checksum);
      ParseOfFileBytes(t, playedAt, checksum, blank);
      ProjectSays(t, playedAt);
    }
  }

  /** The limits of the format: a tree keeps to them... */
  lemma LimitsKept(t: WireTree, text: Str)
    ensures |t.fileName| <= 1024 && |text| <= 1048576
    ensures |t.body.stats| <= 50000 && |t.body.events| <= 500000 && |t.body.trace| <= 20000000
    ensures forall i :: 0 <= i < |t.body.events| ==> |t.body.events[i]| <= 128
  {
  }

  /** ...and whatever keeps to them is a tree. */
  lemma LimitsSuffice(name: Bytes, stats: seq<StatEntry>, events: seq<seq<Str>>, trace: seq<MousePoint>, env: WireEnvironment,
                      bs: Bytes) returns (t: WireTree, text: Str)
    requires |name| <= 1024 && |bs| <= 1048576 && |stats| <= 50000 && |events| <= 500000 && |trace| <= 20000000
    requires forall i :: 0 <= i < |events| ==> |events[i]| <= 128
    ensures t.fileName == name && text == bs
    ensures t.body.stats == stats && t.body.events == events && t.body.trace == trace && t.body.env == env
  {
    text := bs;
    t := WireTree(name, WireBody(stats, events, trace, env));
  }

  method Parse(raw: Bytes, checksum: Bytes -> uint64, blank: Bytes -> bool) returns (r: Result<File, Error>)
    ensures r == Parsed(raw, checksum, blank)
    ensures ParseSays(raw, checksum, blank, r)
  {
    hide ParseSays;
    WhatParseSays(raw, checksum, blank);
    if |raw| < HEADER_SIZE + CHECKSUM_SIZE {
      return Err(FileTooSmall);
    }
    if raw[..4] != MAGIC {
      return Err(BadMagic);
    }
    var version := raw[4];
    if version != VERSION {
      return Err(UnsupportedVersion(version));
    }
    var compression := raw[5];
    var playedAt := PlayedAt(raw);
    var payload := Payload(raw);
    if checksum(payload) != StoredChecksum(raw) {
      return Err(ChecksumMismatch);
    }
    if compression == COMPRESSION_ZSTD {
      return Err(CompressedPayload);
    } else if compression != COMPRESSION_NONE {
      return Err(UnsupportedCompression(compression));
    }
    r := ParseUncompressed(payload, playedAt, blank);
  }

  /** The part of `Parse` behind the payload reader. */
  method ParseUncompressed(payload: Bytes, playedAt: int64, blank: Bytes -> bool) returns (r: Result<File, Error>)
    ensures r == ParsePayload(payload, playedAt, blank)
  {
    hide TextRead, FourByteSum, StatsSay, EnvironmentSays, GetBytes, GetStats, GetEvents, GetTrace, GetEnvironment;
    var reader := new Reader(payload);
    var fileName :- reader.ReadString(MAX_FILE_NAME_BYTES);
    if blank(fileName) {
      return Err(BlankFileName);
    }
    var stats :- reader.ReadStats();
    var events :- reader.ReadEvents();
    var trace :- reader.ReadMouseTrace();
    var env :- reader.ReadEnvironment();
    var _ :- reader.EnsureEof();
    return Ok(File(fileName, playedAt, VERSION, stats, events, trace, env));
  }

  // ---- what Parse accepts ----

  lemma PayloadOfTree(t: WireTree, playedAt: int64, blank: Bytes -> bool)
    requires !blank(t.fileName)
    ensures ParsePayload(PutTree(t, []), playedAt, blank) == Ok(Project(t, playedAt))
  {
    hide GetName, GetBody, Project;
    TreeRoundTrip(t, []);
  }

  lemma TreeOfPayload(bs: Bytes, playedAt: int64, blank: Bytes -> bool) returns (t: WireTree)
    requires ParsePayload(bs, playedAt, blank).Ok?
    ensures !blank(t.fileName) && bs == PutTree(t, [])
  {
    hide GetName, GetBody, PutTree, Project;
    t := GetTree(bs).value.value;
    TreeReadBack(bs);
  }

  /** The parts of a file's bytes. */
  lemma FileParts(t: WireTree, playedAt: int64, checksum: Bytes -> uint64)
    ensures var raw := FileBytes(t, playedAt, checksum);
            && |raw| >= HEADER_SIZE + CHECKSUM_SIZE
            && raw[..4] == MAGIC && raw[4] == VERSION && raw[5] == COMPRESSION_NONE
            && PlayedAt(raw) == playedAt
            && Payload(raw) == PutTree(t, [])
            && StoredChecksum(raw) == checksum(PutTree(t, []))
  {
    hide GetI64, GetU64, PutI64, PutU64, PutTree;
    var raw := FileBytes(t, playedAt, checksum);
    var payload := PutTree(t, []);
    var time, sum := PutI64(playedAt, []), PutU64(checksum(payload), []);
    assert |time| == 8 && GetI64(time) == Ok(Got(playedAt, [])) by {
      GetPutField(FI64(playedAt), []);
    }
    assert |sum| == 8 && GetU64(sum) == Ok(Got(checksum(payload), [])) by {
      GetPutField(FU64(checksum(payload)), []);
    }
    assert raw[6..14] == time;
    assert raw[|raw| - CHECKSUM_SIZE..] == sum;
    assert raw[HEADER_SIZE..|raw| - CHECKSUM_SIZE] == payload;
  }

  /** Any bytes with the right parts are the bytes of a file. */
  lemma FromParts(raw: Bytes, t: WireTree, checksum: Bytes -> uint64)
    requires |raw| >= HEADER_SIZE + CHECKSUM_SIZE
    requires raw[..4] == MAGIC && raw[4] == VERSION && raw[5] == COMPRESSION_NONE
    requires Payload(raw) == PutTree(t, []) && StoredChecksum(raw) == checksum(Payload(raw))
    ensures raw == FileBytes(t, PlayedAt(raw), checksum)
  {
    hide PutI64, PutU64, PutTree, FromLittleEndian;
    var time, sum := raw[6..14], raw[|raw| - CHECKSUM_SIZE..];
    assert PutI64(PlayedAt(raw), []) == time by {
      I64Lawful();
      ReadBackAt(I64, time);
    }
    assert PutU64(StoredChecksum(raw), []) == sum by {
      U64Lawful();
      ReadBackAt(U64, sum);
    }
    assert raw == raw[..4] + [raw[4], raw[5]] + time + Payload(raw) + sum;
  }

  /** Decoding the bytes of a tree gives the tree's projection. */
  lemma ParseOfFileBytes(t: WireTree, playedAt: int64, checksum: Bytes -> uint64, blank: Bytes -> bool)
    requires !blank(t.fileName)
    ensures Parsed(FileBytes(t, playedAt, checksum), checksum, blank) == Ok(Project(t, playedAt))
  {
    hide Payload, PlayedAt, StoredChecksum, FileBytes, PutTree, ParsePayload, Project;
    FileParts(t, playedAt, checksum);
    PayloadOfTree(t, playedAt, blank);
  }

  /** `Parse` accepts exactly the bytes of the trees whose file name is not blank. */
  lemma ParseAcceptsExactlyFiles(raw: Bytes, checksum: Bytes -> uint64, blank: Bytes -> bool)
    ensures Parsed(raw, checksum, blank).Ok? <==>
            exists t: WireTree, playedAt: int64 :: !blank(t.fileName) && raw == FileBytes(t, playedAt, checksum)
  {
    hide Payload, PlayedAt, StoredChecksum, FileBytes, PutTree, ParsePayload, Project;
    if Parsed(raw, checksum, blank).Ok? {
      var t := TreeOfPayload(Payload(raw), PlayedAt(raw), blank);
      FromParts(raw, t, checksum);
    }
    if t: WireTree, playedAt: int64 :| !blank(t.fileName) && raw == FileBytes(t, playedAt, checksum) {
      ParseOfFileBytes(t, playedAt, checksum, blank);
    }
  }

  /** The tree and the time behind a file's bytes are unique. */
  lemma FileBytesInjective(t: WireTree, t': WireTree, playedAt: int64, playedAt': int64, checksum: Bytes -> uint64)
    requires FileBytes(t, playedAt, checksum) == FileBytes(t', playedAt', checksum)
    ensures t == t' && playedAt == playedAt'
  {
    hide Payload, PlayedAt, StoredChecksum, FileBytes, PutTree, GetTree;
    FileParts(t, playedAt, checksum);
    FileParts(t', playedAt', checksum);
    TreeRoundTrip(t, []);
    TreeRoundTrip(t', []);
  }
}
