/** The whole payload as one codec, and what its laws mean for accepted inputs. */
module Tree {
  import opened Common
  import opened Codecs
  import opened Primitives
  import opened Fields
  import opened Wire

  // ---- counted lists: a count, checked against its limit, then that many items ----

  function PutStats(es: StatEntries, tail: Bytes): Bytes {
    PutU32(|es|, PutMany(STAT, es, tail))
  }

  function GetStats(bs: Bytes): Decoded<StatEntries> {
    var count :- GetU32(bs);
    if count.value > MAX_STATS_ENTRIES then Err(TooManyStats(count.value)) else
      var es :- GetMany(STAT, count.value, count.rest);
      Ok(Got(es.value, es.rest))
  }

  function PutRow(row: Row, tail: Bytes): Bytes {
    PutU32(|row|, PutMany(STR, row, tail))
  }

  function GetRow(bs: Bytes): Decoded<Row> {
    var count :- GetU32(bs);
    if count.value > MAX_EVENT_COLS then Err(TooManyEventColumns(count.value)) else
      var row :- GetMany(STR, count.value, count.rest);
      Ok(Got(row.value, row.rest))
  }

  const ROW := Codec(PutRow, GetRow, (row: Row) => 4 + SizeMany(STR, row))

  function PutEvents(rows: Events, tail: Bytes): Bytes {
    PutU32(|rows|, PutMany(ROW, rows, tail))
  }

  function GetEvents(bs: Bytes): Decoded<Events> {
    var count :- GetU32(bs);
    if count.value > MAX_EVENT_ROWS then Err(TooManyEventRows(count.value)) else
      var rows :- GetMany(ROW, count.value, count.rest);
      Ok(Got(rows.value, rows.rest))
  }

  function PutTrace(ps: Trace, tail: Bytes): Bytes {
    PutU32(|ps|, PutMany(POINT, ps, tail))
  }

  function GetTrace(bs: Bytes): Decoded<Trace> {
    var count :- GetU32(bs);
    if count.value > MAX_MOUSE_POINTS then Err(TooManyMousePoints(count.value)) else
      var ps :- GetMany(POINT, count.value, count.rest);
      Ok(Got(ps.value, ps.rest))
  }

  const STATS := Codec(PutStats, GetStats, (es: StatEntries) => 4 + SizeMany(STAT, es))
  const EVENTS := Codec(PutEvents, GetEvents, (rows: Events) => 4 + SizeMany(ROW, rows))
  const TRACE := Codec(PutTrace, GetTrace, (ps: Trace) => 4 + SizeMany(POINT, ps))

  /** The laws of any counted list, from those of its items. */
  lemma CountedLaws<T(!new)>(c: Codec<T>, xs: seq<T>, tail: Bytes, x: Bytes, y: Bytes)
    requires Lawful(c) && |xs| < 0x1_0000_0000
    ensures GetU32(PutU32(|xs|, PutMany(c, xs, tail))) == Ok(Got(|xs|, PutMany(c, xs, tail)))
    ensures GetMany(c, |xs|, PutMany(c, xs, tail)) == Ok(Got(xs, tail))
    ensures |PutU32(|xs|, PutMany(c, xs, tail))| == 4 + SizeMany(c, xs) + |tail|
    ensures PutU32(|xs|, PutMany(c, xs, x + y)) == PutU32(|xs|, PutMany(c, xs, x)) + y
  {
    GetPutMany(c, xs, tail);
    PutManyAppend(c, xs, x, y);
    PutU32Append(|xs|, PutMany(c, xs, x), y);
    U32RoundTrip(|xs|, PutMany(c, xs, tail));
  }

  lemma U32RoundTrip(n: uint32, tail: Bytes)
    ensures GetU32(PutU32(n, tail)) == Ok(Got(n, tail))
  {
    U32Lawful();
    RoundTripAt(U32, n, tail);
  }

  lemma CountedReadBack<T(!new)>(c: Codec<T>, bs: Bytes)
    requires Lawful(c)
    requires GetU32(bs).Ok? && GetMany(c, GetU32(bs).value.value, GetU32(bs).value.rest).Ok?
    ensures var count := GetU32(bs).value;
            var g := GetMany(c, count.value, count.rest).value;
            PutU32(count.value, PutMany(c, g.value, g.rest)) == bs
  {
    U32Lawful();
    ReadBackAt(U32, bs);
    PutGetMany(c, GetU32(bs).value.value, GetU32(bs).value.rest);
  }

  lemma StatsLawful()
    ensures Lawful(STATS)
  {
    hide GetMany, PutMany, SizeMany, GetU32, PutU32;
    StatLawful();
    forall es: StatEntries, tail: Bytes
      ensures STATS.get(STATS.put(es, tail)) == Ok(Got(es, tail)) && |STATS.put(es, tail)| == STATS.size(es) + |tail|
    {
      CountedLaws(STAT, es, tail, tail, tail);
    }
    forall bs | STATS.get(bs).Ok? ensures STATS.put(STATS.get(bs).value.value, STATS.get(bs).value.rest) == bs {
      CountedReadBack(STAT, bs);
    }
    forall es: StatEntries, x: Bytes, y: Bytes ensures STATS.put(es, x + y) == STATS.put(es, x) + y {
      CountedLaws(STAT, es, x, x, y);
    }
  }

  lemma RowLawful()
    ensures Lawful(ROW)
  {
    hide GetMany, PutMany, SizeMany, GetU32, PutU32;
    StrLawful();
    forall row: Row, tail: Bytes
      ensures ROW.get(ROW.put(row, tail)) == Ok(Got(row, tail)) && |ROW.put(row, tail)| == ROW.size(row) + |tail|
    {
      CountedLaws(STR, row, tail, tail, tail);
    }
    forall bs | ROW.get(bs).Ok? ensures ROW.put(ROW.get(bs).value.value, ROW.get(bs).value.rest) == bs {
      CountedReadBack(STR, bs);
    }
    forall row: Row, x: Bytes, y: Bytes ensures ROW.put(row, x + y) == ROW.put(row, x) + y {
      CountedLaws(STR, row, x, x, y);
    }
  }

  lemma EventsLawful()
    ensures Lawful(EVENTS)
  {
    hide GetMany, PutMany, SizeMany, GetU32, PutU32;
    RowLawful();
    forall rows: Events, tail: Bytes
      ensures EVENTS.get(EVENTS.put(rows, tail)) == Ok(Got(rows, tail))
      ensures |EVENTS.put(rows, tail)| == EVENTS.size(rows) + |tail|
    {
      CountedLaws(ROW, rows, tail, tail, tail);
    }
    forall bs | EVENTS.get(bs).Ok? ensures EVENTS.put(EVENTS.get(bs).value.value, EVENTS.get(bs).value.rest) == bs {
      CountedReadBack(ROW, bs);
    }
    forall rows: Events, x: Bytes, y: Bytes ensures EVENTS.put(rows, x + y) == EVENTS.put(rows, x) + y {
      CountedLaws(ROW, rows, x, x, y);
    }
  }

  lemma TraceLawful()
    ensures Lawful(TRACE)
  {
    hide GetMany, PutMany, SizeMany, GetU32, PutU32;
    PointLawful();
    forall ps: Trace, tail: Bytes
      ensures TRACE.get(TRACE.put(ps, tail)) == Ok(Got(ps, tail)) && |TRACE.put(ps, tail)| == TRACE.size(ps) + |tail|
    {
      CountedLaws(POINT, ps, tail, tail, tail);
    }
    forall bs | TRACE.get(bs).Ok? ensures TRACE.put(TRACE.get(bs).value.value, TRACE.get(bs).value.rest) == bs {
      CountedReadBack(POINT, bs);
    }
    forall ps: Trace, x: Bytes, y: Bytes ensures TRACE.put(ps, x + y) == TRACE.put(ps, x) + y {
      CountedLaws(POINT, ps, x, x, y);
    }
  }

  // ---- the payload ----

  function PutBody(b: WireBody, tail: Bytes): Bytes {
    PutStats(b.stats, PutEvents(b.events, PutTrace(b.trace, PutEnvironment(b.env, tail))))
  }

  function GetBody(bs: Bytes): Decoded<WireBody> {
    var stats :- GetStats(bs);
    var events :- GetEvents(stats.rest);
    var trace :- GetTrace(events.rest);
    var env :- GetEnvironment(trace.rest);
    Ok(Got(WireBody(stats.value, events.value, trace.value, env.value), env.rest))
  }

  function PutTree(t: WireTree, tail: Bytes): Bytes {
    PutName(t.fileName, PutBody(t.body, tail))
  }

  function GetTree(bs: Bytes): Decoded<WireTree> {
    var name :- GetName(bs);
    var body :- GetBody(name.rest);
    Ok(Got(WireTree(name.value, body.value), body.rest))
  }

  /** The summed sizes of every part of the tree. */
  function SizeTree(t: WireTree): nat {
    4 + |t.fileName|
    + 4 + SizeMany(STAT, t.body.stats)
    + 4 + SizeMany(ROW, t.body.events)
    + 4 + SizeMany(POINT, t.body.trace)
    + SizeFields(EnvironmentFields(t.body.env))
  }

  const TREE := Codec(PutTree, GetTree, SizeTree)

  lemma TreeRoundTrip(t: WireTree, tail: Bytes)
    ensures GetTree(PutTree(t, tail)) == Ok(Got(t, tail))
    ensures |PutTree(t, tail)| == SizeTree(t) + |tail|
  {
    var env := PutEnvironment(t.body.env, tail);
    var trace := PutTrace(t.body.trace, env);
    var events := PutEvents(t.body.events, trace);
    var stats := PutStats(t.body.stats, events);
    assert GetEnvironment(env) == Ok(Got(t.body.env, tail))
        && |env| == SizeFields(EnvironmentFields(t.body.env)) + |tail| by {
      EnvironmentLawful();
      RoundTripAt(ENV, t.body.env, tail);
    }
    assert GetTrace(trace) == Ok(Got(t.body.trace, env)) && |trace| == 4 + SizeMany(POINT, t.body.trace) + |env| by {
      TraceLawful();
      RoundTripAt(TRACE, t.body.trace, env);
    }
    assert GetEvents(events) == Ok(Got(t.body.events, trace)) && |events| == 4 + SizeMany(ROW, t.body.events) + |trace| by {
      EventsLawful();
      RoundTripAt(EVENTS, t.body.events, trace);
    }
    assert GetStats(stats) == Ok(Got(t.body.stats, events)) && |stats| == 4 + SizeMany(STAT, t.body.stats) + |events| by {
      StatsLawful();
      RoundTripAt(STATS, t.body.stats, events);
    }
    assert GetName(PutName(t.fileName, stats)) == Ok(Got(t.fileName, stats))
        && |PutName(t.fileName, stats)| == 4 + |t.fileName| + |stats| by {
      NameLawful();
      RoundTripAt(NAME, t.fileName, stats);
    }
  }

  lemma TreeReadBack(bs: Bytes)
    requires GetTree(bs).Ok?
    ensures PutTree(GetTree(bs).value.value, GetTree(bs).value.rest) == bs
    ensures |bs| == SizeTree(GetTree(bs).value.value) + |GetTree(bs).value.rest|
  {
    TreeRoundTrip(GetTree(bs).value.value, GetTree(bs).value.rest);
    var name := GetName(bs).value;
    var stats := GetStats(name.rest).value;
    var events := GetEvents(stats.rest).value;
    var trace := GetTrace(events.rest).value;
    var env := GetEnvironment(trace.rest).value;
    assert PutName(name.value, name.rest) == bs by { NameLawful(); ReadBackAt(NAME, bs); }
    assert PutStats(stats.value, stats.rest) == name.rest by { StatsLawful(); ReadBackAt(STATS, name.rest); }
    assert PutEvents(events.value, events.rest) == stats.rest by { EventsLawful(); ReadBackAt(EVENTS, stats.rest); }
    assert PutTrace(trace.value, trace.rest) == events.rest by { TraceLawful(); ReadBackAt(TRACE, events.rest); }
    assert PutEnvironment(env.value, env.rest) == trace.rest by { EnvironmentLawful(); ReadBackAt(ENV, trace.rest); }
  }

  lemma TreeAppend(t: WireTree, x: Bytes, y: Bytes)
    ensures PutTree(t, x + y) == PutTree(t, x) + y
  {
    var env := PutEnvironment(t.body.env, x);
    var trace := PutTrace(t.body.trace, env);
    var events := PutEvents(t.body.events, trace);
    var stats := PutStats(t.body.stats, events);
    assert PutEnvironment(t.body.env, x + y) == env + y by { EnvironmentLawful(); AppendAt(ENV, t.body.env, x, y); }
    assert PutTrace(t.body.trace, env + y) == trace + y by { TraceLawful(); AppendAt(TRACE, t.body.trace, env, y); }
    assert PutEvents(t.body.events, trace + y) == events + y by { EventsLawful(); AppendAt(EVENTS, t.body.events, trace, y); }
    assert PutStats(t.body.stats, events + y) == stats + y by { StatsLawful(); AppendAt(STATS, t.body.stats, events, y); }
    assert PutName(t.fileName, stats + y) == PutName(t.fileName, stats) + y by { NameLawful(); AppendAt(NAME, t.fileName, stats, y); }
  }

  /** The payload format as a whole is lawful, hence self-delimiting and prefix free. */
  lemma TreeLawful()
    ensures Lawful(TREE)
  {
    forall t: WireTree, tail: Bytes
      ensures TREE.get(TREE.put(t, tail)) == Ok(Got(t, tail)) && |TREE.put(t, tail)| == TREE.size(t) + |tail|
    {
      TreeRoundTrip(t, tail);
    }
    forall bs | TREE.get(bs).Ok? ensures TREE.put(TREE.get(bs).value.value, TREE.get(bs).value.rest) == bs {
      TreeReadBack(bs);
    }
    forall t: WireTree, x: Bytes, y: Bytes ensures TREE.put(t, x + y) == TREE.put(t, x) + y {
      TreeAppend(t, x, y);
    }
  }

  /** What the readers return depends only on the bytes they consume, and these are as many as the sizes of the
      decoded parts sum to. */
  lemma PayloadSelfDelimiting(bs: Bytes, other: Bytes)
    requires GetTree(bs).Ok?
    ensures var g := GetTree(bs).value;
            && bs == PutTree(g.value, []) + g.rest
            && |bs| - |g.rest| == SizeTree(g.value)
            && GetTree(PutTree(g.value, []) + other) == Ok(Got(g.value, other))
  {
    TreeLawful();
    SelfDelimiting(TREE, bs, other);
  }

  /** An accepted payload with bytes behind it leaves exactly those bytes over: no proper extension of it, and so no proper
      prefix, is an accepted payload. */
  lemma PayloadPrefixFree(bs: Bytes, extra: Bytes)
    requires GetTree(bs).Ok? && GetTree(bs).value.rest == []
    ensures GetTree(bs + extra) == Ok(Got(GetTree(bs).value.value, extra))
  {
    TreeLawful();
    PrefixFree(TREE, bs, extra);
  }
}
