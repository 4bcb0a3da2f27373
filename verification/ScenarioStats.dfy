/** The scenario statistics job: one pass over the joined rows, one update per scenario. */
module ScenarioStats {
  import opened Common
  import Ordering
  import opened Summaries
  import opened SummaryMeaning

  /** A row of `scenarios LEFT JOIN runs`. */
  datatype Row = Row(scenarioId: int, runId: Option<int>, score: Option<real>, sens: Option<real>)

  /** The distributions stand for their JSON text. */
  datatype Update = Update(
    scenarioId: int, runCount: nat,
    scoreSampleCount: nat, scoreDistribution: Snapshot,
    sensSampleCount: nat, sensDistribution: Snapshot)

  // ---- the specification: group the rows by scenario ----

  function RowsOf(rows: seq<Row>, id: int): seq<Row> {
    if rows == [] then [] else
      var last := rows[|rows| - 1];
      RowsOf(rows[..|rows| - 1], id) + if last.scenarioId == id then [last] else []
  }

  function RunCount(rows: seq<Row>): nat {
    if rows == [] then 0 else
      RunCount(rows[..|rows| - 1]) + if rows[|rows| - 1].runId.Some? then 1 else 0
  }

  function Values(xs: seq<Option<real>>): seq<real> {
    if xs == [] then [] else
      Values(xs[..|xs| - 1]) + if xs[|xs| - 1].Some? then [xs[|xs| - 1].value] else []
  }

  function ScoreColumn(rows: seq<Row>): (r: seq<Option<real>>)
    ensures |r| == |rows|
  {
    seq(|rows|, i requires 0 <= i < |rows| => rows[i].score)
  }

  function SensColumn(rows: seq<Row>): (r: seq<Option<real>>)
    ensures |r| == |rows|
  {
    seq(|rows|, i requires 0 <= i < |rows| => rows[i].sens)
  }

  function Scores(rows: seq<Row>): seq<real> {
    Values(ScoreColumn(rows))
  }

  function Senses(rows: seq<Row>): seq<real> {
    Values(SensColumn(rows))
  }

  /** The update a group of rows calls for. */
  function UpdateFor(id: int, group: seq<Row>): Update {
    Update(id, RunCount(group), |Scores(group)|, Summary(Scores(group)), |Senses(group)|, Summary(Senses(group)))
  }

  /** The scenario ids in order of first appearance. */
  function Ids(rows: seq<Row>): seq<int> {
    if rows == [] then [] else
      var front := Ids(rows[..|rows| - 1]);
      var id := rows[|rows| - 1].scenarioId;
      if id in front then front else front + [id]
  }

  function UpdatesFor(ids: seq<int>, rows: seq<Row>): (us: seq<Update>)
    ensures |us| == |ids|
  {
    seq(|ids|, k requires 0 <= k < |ids| => UpdateFor(ids[k], RowsOf(rows, ids[k])))
  }

  /** One update per scenario, from exactly that scenario's rows. */
  function Updates(rows: seq<Row>): seq<Update> {
    UpdatesFor(Ids(rows), rows)
  }

  ghost predicate Ordered(rows: seq<Row>) {
    forall i, j :: 0 <= i < j < |rows| ==> rows[i].scenarioId <= rows[j].scenarioId
  }

  ghost predicate Ascending(ids: seq<int>) {
    forall i, j :: 0 <= i < j < |ids| ==> ids[i] < ids[j]
  }

  lemma {:induction false} IdsAreThoseOfRows(rows: seq<Row>, id: int)
    ensures id in Ids(rows) <==> exists i :: 0 <= i < |rows| && rows[i].scenarioId == id
  {
    if rows != [] {
      var front := rows[..|rows| - 1];
      IdsAreThoseOfRows(front, id);
      assert forall i :: 0 <= i < |front| ==> front[i] == rows[i];
      if i :| 0 <= i < |rows| && rows[i].scenarioId == id && i < |front| {
        assert front[i].scenarioId == id;
      }
    }
  }

  /** Over ordered rows the ids ascend, ending with that of the last row. */
  lemma {:induction false} IdsAscend(rows: seq<Row>)
    requires Ordered(rows)
    ensures Ascending(Ids(rows))
    ensures rows != [] ==> Ids(rows) != [] && Ids(rows)[|Ids(rows)| - 1] == rows[|rows| - 1].scenarioId
  {
    if rows != [] {
      var front, id := rows[..|rows| - 1], rows[|rows| - 1].scenarioId;
      IdsAscend(front);
      assert front != [] ==> front[|front| - 1].scenarioId <= id;
      if id in Ids(front) {
        var k :| 0 <= k < |Ids(front)| && Ids(front)[k] == id;
      }
    }
  }

  lemma {:induction false} NoRowsOf(rows: seq<Row>, id: int)
    requires forall i :: 0 <= i < |rows| ==> rows[i].scenarioId != id
    ensures RowsOf(rows, id) == []
  {
    if rows != [] {
      NoRowsOf(rows[..|rows| - 1], id);
    }
  }

  // ---- the buffers ----

  /** A slice that is appended to and truncated to length zero for reuse. */
  class SampleBuffer {
    var data: array<real>
    var len: nat

    ghost predicate Valid()
      reads this
    {
      len <= data.Length
    }

    function Contents(): seq<real>
      requires Valid()
      reads this, data
    {
      data[..len]
    }

    constructor ()
      ensures Valid() && Contents() == [] && fresh(data)
    {
      data := new real[0];
      len := 0;
    }

    /** `append`: in place while there is room, otherwise into a larger array. */
    method Append(x: real)
      requires Valid()
      modifies this, data
      ensures Valid() && Contents() == old(Contents()) + [x]
      ensures data == old(data) || fresh(data)
    {
      if len == data.Length {
        var grown := new real[2 * data.Length + 1](_ => 0.0);
        for i := 0 to len
          modifies grown
          invariant grown[..i] == data[..i]
        {
          grown[i] := data[i];
        }
        data := grown;
      }
      data[len] := x;
      len := len + 1;
    }

    /** `buf[:0]`. */
    method Truncate()
      requires Valid()
      modifies this
      ensures Valid() && Contents() == [] && data == old(data)
    {
      len := 0;
    }
  }

  // ---- the pass ----

  /** The variables of `Run` and its `flush` closure. */
  class Collector {
    var updates: seq<Update>
    const scoreValues: SampleBuffer
    const sensValues: SampleBuffer
    var currentScenarioId: int
    var haveScenario: bool
    var runCount: nat
    var totalRuns: nat
    var totalScoreSamples: nat
    var totalSensSamples: nat

    ghost function Repr(): set<object>
      reads this, scoreValues, sensValues
    {
      {this, scoreValues, sensValues, scoreValues.data, sensValues.data}
    }

    ghost predicate Valid()
      reads this, scoreValues, sensValues
    {
      && scoreValues != sensValues && scoreValues.data != sensValues.data
      && scoreValues.Valid() && sensValues.Valid()
    }

    /** `flushed` has been appended, and `group` is in the buffers. */
    ghost predicate Holds(flushed: seq<Update>, group: seq<Row>)
      requires Valid()
      reads this, scoreValues, sensValues, scoreValues.data, sensValues.data
    {
      && updates == flushed
      && runCount == RunCount(group)
      && scoreValues.Contents() == Scores(group)
      && sensValues.Contents() == Senses(group)
      && totalRuns == SumRuns(flushed) + RunCount(group)
      && totalScoreSamples == SumScores(flushed)
      && totalSensSamples == SumSens(flushed)
    }

    /** The rows `before` have been added. */
    ghost predicate Seen(before: seq<Row>)
      requires Valid()
      reads this, scoreValues, sensValues, scoreValues.data, sensValues.data
    {
      && (haveScenario <==> before != [])
      && (before != [] ==> currentScenarioId == before[|before| - 1].scenarioId)
      && Holds(Finished(before), Group(before))
    }

    constructor ()
      ensures Valid() && fresh(Repr()) && Seen([])
    {
      updates := [];
      scoreValues := new SampleBuffer();
      sensValues := new SampleBuffer();
      currentScenarioId, haveScenario := 0, false;
      runCount, totalRuns, totalScoreSamples, totalSensSamples := 0, 0, 0, 0;
      new;
      EmptyGroup();
    }

    /** `flush` with a scenario at hand: its update is appended and the buffers are emptied. */
    method Flush(ghost flushed: seq<Update>, ghost group: seq<Row>)
      requires Valid() && haveScenario && Holds(flushed, group)
      modifies Repr()
      ensures Valid() && fresh(Repr() - old(Repr()))
      ensures haveScenario && currentScenarioId == old(currentScenarioId)
      ensures Holds(flushed + [UpdateFor(currentScenarioId, group)], [])
    {
      hide Summary, Scores, Senses, RunCount, SumRuns, SumScores, SumSens;
      var score := BuildMetricSummary(scoreValues.data, scoreValues.len);
      var sens := BuildMetricSummary(sensValues.data, sensValues.len);
      SampleCounts(Scores(group));
      SampleCounts(Senses(group));
      var update := Update(
        currentScenarioId, runCount, score.sampleCount, score, sens.sampleCount, sens);
      SumsWithUpdate(flushed, update);
      EmptyGroup();
      updates := updates + [update];
      totalScoreSamples := totalScoreSamples + update.scoreSampleCount;
      totalSensSamples := totalSensSamples + update.sensSampleCount;
      runCount := 0;
      scoreValues.Truncate();
      sensValues.Truncate();
    }

    /** The row loop's body behind the change-of-scenario test. */
    method AddToGroup(row: Row, ghost flushed: seq<Update>, ghost group: seq<Row>)
      requires Valid() && Holds(flushed, group)
      modifies Repr()
      ensures Valid() && fresh(Repr() - old(Repr()))
      ensures haveScenario == old(haveScenario) && currentScenarioId == old(currentScenarioId)
      ensures Holds(flushed, group + [row])
    {
      hide Scores, Senses, RunCount, SumRuns, SumScores, SumSens;
      GroupWithRow(group, row);
      if row.runId.Some? {
        runCount := runCount + 1;
        totalRuns := totalRuns + 1;
      }
      if row.score.Some? {
        scoreValues.Append(row.score.value);
      }
      if row.sens.Some? {
        sensValues.Append(row.sens.value);
      }
    }

    /** The body of the row loop. */
    method AddRow(row: Row, ghost before: seq<Row>)
      requires Valid() && Seen(before) && Ordered(before + [row])
      modifies Repr()
      ensures Valid() && fresh(Repr() - old(Repr()))
      ensures Seen(before + [row])
    {
      hide Finished, Group, Updates, UpdateFor, Ordered, RunCount, Scores, Senses, SumRuns, SumScores, SumSens;
      OrderedPrefix(before, row);
      ghost var flushed, group := Finished(before), Group(before);
      if !haveScenario {
        currentScenarioId := row.scenarioId;
        haveScenario := true;
        NextScenario(before, row);
        NoGroup();
      }
      if row.scenarioId != currentScenarioId {
        Flush(flushed, group);
        NextScenario(before, row);
        LastGroup(before);
        flushed, group := Updates(before), [];
        currentScenarioId := row.scenarioId;
      } else if before != [] {
        SameScenario(before, row);
      }
      assert group == [] ==> group + [row] == [row];
      AddToGroup(row, flushed, group);
    }
  }

  lemma EmptyGroup()
    ensures RunCount([]) == 0 && Scores([]) == [] && Senses([]) == []
  {
  }

  lemma GroupWithRow(group: seq<Row>, row: Row)
    ensures RunCount(group + [row]) == RunCount(group) + if row.runId.Some? then 1 else 0
    ensures Scores(group + [row]) == Scores(group) + if row.score.Some? then [row.score.value] else []
    ensures Senses(group + [row]) == Senses(group) + if row.sens.Some? then [row.sens.value] else []
  {
    assert (group + [row])[..|group|] == group;
    assert ScoreColumn(group + [row])[..|group|] == ScoreColumn(group);
    assert SensColumn(group + [row])[..|group|] == SensColumn(group);
  }

  lemma SampleCounts(values: seq<real>)
    ensures Summary(values).sampleCount == |values|
  {
    hide QuantilesOf, BinsOf;
  }

  // ---- totals ----

  function SumScores(us: seq<Update>): nat {
    if us == [] then 0 else SumScores(us[..|us| - 1]) + us[|us| - 1].scoreSampleCount
  }

  function SumSens(us: seq<Update>): nat {
    if us == [] then 0 else SumSens(us[..|us| - 1]) + us[|us| - 1].sensSampleCount
  }

  function SumRuns(us: seq<Update>): nat {
    if us == [] then 0 else SumRuns(us[..|us| - 1]) + us[|us| - 1].runCount
  }

  // ---- one pass is grouping ----

  function Front(ids: seq<int>): seq<int> {
    if ids == [] then [] else ids[..|ids| - 1]
  }

  /** The updates of every group but the last. */
  function Finished(rows: seq<Row>): seq<Update> {
    UpdatesFor(Front(Ids(rows)), rows)
  }

  /** The group of the last row. */
  function Group(rows: seq<Row>): seq<Row> {
    if rows == [] then [] else RowsOf(rows, rows[|rows| - 1].scenarioId)
  }

  lemma RowsOfAppend(rows: seq<Row>, row: Row, id: int)
    ensures RowsOf(rows + [row], id) == RowsOf(rows, id) + if row.scenarioId == id then [row] else []
  {
    assert (rows + [row])[..|rows|] == rows;
  }

  lemma IdsAppend(rows: seq<Row>, row: Row)
    ensures Ids(rows + [row]) == Ids(rows) + if row.scenarioId in Ids(rows) then [] else [row.scenarioId]
  {
    assert (rows + [row])[..|rows|] == rows;
  }

  lemma UpdatesForAppend(ids: seq<int>, id: int, rows: seq<Row>)
    ensures UpdatesFor(ids + [id], rows) == UpdatesFor(ids, rows) + [UpdateFor(id, RowsOf(rows, id))]
  {
    hide UpdateFor, RowsOf;
  }

  /** A row leaves the updates of other scenarios alone. */
  lemma UpdatesForKept(ids: seq<int>, rows: seq<Row>, row: Row)
    requires row.scenarioId !in ids
    ensures UpdatesFor(ids, rows + [row]) == UpdatesFor(ids, rows)
  {
    hide UpdateFor, RowsOf;
    forall k | 0 <= k < |ids| ensures RowsOf(rows + [row], ids[k]) == RowsOf(rows, ids[k]) {
      RowsOfAppend(rows, row, ids[k]);
      assert RowsOf(rows, ids[k]) + [] == RowsOf(rows, ids[k]);
    }
  }

  lemma OrderedPrefix(rows: seq<Row>, row: Row)
    requires Ordered(rows + [row])
    ensures Ordered(rows)
    ensures forall i :: 0 <= i < |rows| ==> rows[i].scenarioId <= row.scenarioId
  {
    assert forall i :: 0 <= i < |rows| ==> (rows + [row])[i] == rows[i];
    assert (rows + [row])[|rows|] == row;
  }

  lemma FrontOfAppend(ids: seq<int>, id: int)
    ensures Front(ids + [id]) == ids
  {
    assert (ids + [id])[..|ids|] == ids;
  }

  /** With the last group's update, the finished updates are all of them. */
  lemma LastGroup(rows: seq<Row>)
    requires Ordered(rows) && rows != []
    ensures Updates(rows) == Finished(rows) + [UpdateFor(rows[|rows| - 1].scenarioId, Group(rows))]
  {
    hide UpdateFor, RowsOf, UpdatesFor;
    IdsAscend(rows);
    var ids := Ids(rows);
    assert ids == Front(ids) + [ids[|ids| - 1]];
    UpdatesForAppend(Front(ids), ids[|ids| - 1], rows);
  }

  /** A further row of the current scenario belongs to the group in progress. */
  lemma SameScenario(rows: seq<Row>, row: Row)
    requires Ordered(rows + [row]) && rows != [] && rows[|rows| - 1].scenarioId == row.scenarioId
    ensures Finished(rows + [row]) == Finished(rows)
    ensures Group(rows + [row]) == Group(rows) + [row]
  {
    hide UpdateFor, RowsOf, UpdatesFor;
    OrderedPrefix(rows, row);
    IdsAscend(rows);
    IdsAppend(rows, row);
    var ids := Ids(rows);
    assert ids + [] == ids;
    assert row.scenarioId !in Front(ids);
    UpdatesForKept(Front(ids), rows, row);
    RowsOfAppend(rows, row, row.scenarioId);
  }

  /** A row of another scenario closes the group in progress, and no earlier row belongs to the new group. */
  lemma NextScenario(rows: seq<Row>, row: Row)
    requires Ordered(rows + [row]) && (rows != [] ==> rows[|rows| - 1].scenarioId != row.scenarioId)
    ensures Finished(rows + [row]) == Updates(rows)
    ensures Group(rows + [row]) == [row]
  {
    hide UpdateFor, RowsOf, UpdatesFor;
    OrderedPrefix(rows, row);
    NewScenario(rows, row);
    IdsAreThoseOfRows(rows, row.scenarioId);
    IdsAppend(rows, row);
    FrontOfAppend(Ids(rows), row.scenarioId);
    UpdatesForKept(Ids(rows), rows, row);
    NoRowsOf(rows, row.scenarioId);
    RowsOfAppend(rows, row, row.scenarioId);
    assert [] + [row] == [row];
  }

  lemma NewScenario(rows: seq<Row>, row: Row)
    requires Ordered(rows + [row]) && (rows != [] ==> rows[|rows| - 1].scenarioId != row.scenarioId)
    ensures forall i :: 0 <= i < |rows| ==> rows[i].scenarioId != row.scenarioId
  {
    OrderedPrefix(rows, row);
    assert forall i :: 0 <= i < |rows| ==> rows[i].scenarioId <= rows[|rows| - 1].scenarioId;
  }

  lemma SumsWithUpdate(us: seq<Update>, u: Update)
    ensures SumScores(us + [u]) == SumScores(us) + u.scoreSampleCount
    ensures SumSens(us + [u]) == SumSens(us) + u.sensSampleCount
    ensures SumRuns(us + [u]) == SumRuns(us) + u.runCount
  {
    assert (us + [u])[..|us|] == us;
  }

  /** The row loop of `Run`: over rows ordered by scenario, one update per scenario, in ascending order of id,
      each computed from exactly that scenario's rows. */
  method CollectUpdates(rows: seq<Row>)
    returns (updates: seq<Update>, totalRuns: nat, totalScoreSamples: nat, totalSensSamples: nat)
    requires Ordered(rows)
    ensures updates == Updates(rows)
    ensures totalRuns == SumRuns(updates)
    ensures totalScoreSamples == SumScores(updates) && totalSensSamples == SumSens(updates)
  {
    hide UpdateFor, Updates, Finished, Group, Scores, Senses, RunCount, SumRuns, SumScores, SumSens, Ordered;
    var c := new Collector();
    for i := 0 to |rows|
      invariant c.Valid() && fresh(c.Repr()) && c.Seen(rows[..i])
    {
      OrderedTake(rows, i);
      c.AddRow(rows[i], rows[..i]);
    }
    assert rows[..|rows|] == rows;
    EmptyGroup();
    if c.haveScenario {
      LastGroup(rows);
      c.Flush(Finished(rows), Group(rows));
    } else {
      NoGroup();
    }
    return c.updates, c.totalRuns, c.totalScoreSamples, c.totalSensSamples;
  }

  lemma OrderedTake(rows: seq<Row>, i: nat)
    requires i < |rows| && Ordered(rows)
    ensures rows[..i + 1] == rows[..i] + [rows[i]] && Ordered(rows[..i + 1])
  {
  }

  lemma NoGroup()
    ensures Updates([]) == [] && Finished([]) == [] && Group([]) == []
  {
  }

  // ---- the whole job over the tables ----

  /** A row of `runs`, as far as the job reads it. */
  datatype Run = Run(id: int, scenarioId: int, score: Option<real>, sens: Option<real>)

  /** The cached columns of a row of `scenarios`. */
  datatype Cached = Cached(
    runCount: nat, scoreSampleCount: nat, scoreDistribution: Snapshot,
    sensSampleCount: nat, sensDistribution: Snapshot)

  function RunsOf(runs: seq<Run>, id: int): seq<Run> {
    if runs == [] then [] else
      RunsOf(runs[..|runs| - 1], id) + if runs[|runs| - 1].scenarioId == id then [runs[|runs| - 1]] else []
  }

  function RunScores(runs: seq<Run>): (r: seq<Option<real>>)
    ensures |r| == |runs|
  {
    seq(|runs|, i requires 0 <= i < |runs| => runs[i].score)
  }

  function RunSenses(runs: seq<Run>): (r: seq<Option<real>>)
    ensures |r| == |runs|
  {
    seq(|runs|, i requires 0 <= i < |runs| => runs[i].sens)
  }

  /** What the cache of a scenario should say of its runs. */
  function CacheOf(runs: seq<Run>): Cached {
    var scores, senses := Values(RunScores(runs)), Values(RunSenses(runs));
    Cached(|runs|, |scores|, Summary(scores), |senses|, Summary(senses))
  }

  /** The rows a left join yields for one scenario: its runs, or one row of nulls. */
  function JoinedRows(id: int, runs: seq<Run>): (rows: seq<Row>)
    ensures |rows| == if RunsOf(runs, id) == [] then 1 else |RunsOf(runs, id)|
  {
    var mine := RunsOf(runs, id);
    if mine == [] then [Row(id, None, None, None)]
    else seq(|mine|, i requires 0 <= i < |mine| => Row(id, Some(mine[i].id), mine[i].score, mine[i].sens))
  }

  /** `rows` is the result of the job's query: `scenarios LEFT JOIN runs`, ordered by scenario and run id, `runs`
      being listed in the order of their ids. */
  ghost predicate IsLeftJoin(rows: seq<Row>, scenarios: set<int>, runs: seq<Run>) {
    && Ordered(rows)
    && forall id :: RowsOf(rows, id) == if id in scenarios then JoinedRows(id, runs) else []
  }

  lemma {:induction false} AllRunsCount(rows: seq<Row>)
    requires forall i :: 0 <= i < |rows| ==> rows[i].runId.Some?
    ensures RunCount(rows) == |rows|
  {
    if rows != [] {
      AllRunsCount(rows[..|rows| - 1]);
    }
  }

  /** The update computed from a scenario's joined rows says what its runs call for, and zero for no runs. */
  lemma UpdateOfJoinedRows(id: int, runs: seq<Run>)
    ensures var u, c := UpdateFor(id, JoinedRows(id, runs)), CacheOf(RunsOf(runs, id));
            && u.runCount == c.runCount
            && u.scoreSampleCount == c.scoreSampleCount && u.scoreDistribution == c.scoreDistribution
            && u.sensSampleCount == c.sensSampleCount && u.sensDistribution == c.sensDistribution
  {
    hide Summary;
    var mine, rows := RunsOf(runs, id), JoinedRows(id, runs);
    if mine == [] {
      var nulls := ScoreColumn(rows);
      assert nulls == [None] && SensColumn(rows) == [None];
      assert nulls[..0] == [] && rows[..0] == [];
      assert rows == [Row(id, None, None, None)];
      assert RunCount(rows) == RunCount(rows[..0]);
    } else {
      AllRunsCount(rows);
      assert ScoreColumn(rows) == RunScores(mine);
      assert SensColumn(rows) == RunSenses(mine);
    }
  }

  /** The scenarios of a join are exactly the scenarios of the table. */
  lemma JoinedIds(rows: seq<Row>, scenarios: set<int>, runs: seq<Run>, id: int)
    requires IsLeftJoin(rows, scenarios, runs)
    ensures id in Ids(rows) <==> id in scenarios
  {
    IdsAreThoseOfRows(rows, id);
    if id in scenarios {
      assert RowsOf(rows, id) != [];
      if id !in Ids(rows) {
        NoRowsOf(rows, id);
      }
    } else if i :| 0 <= i < |rows| && rows[i].scenarioId == id {
      SomeRowsOf(rows, i);
    }
  }

  lemma {:induction false} SomeRowsOf(rows: seq<Row>, i: nat)
    requires i < |rows|
    ensures RowsOf(rows, rows[i].scenarioId) != []
  {
    if i < |rows| - 1 {
      SomeRowsOf(rows[..|rows| - 1], i);
    }
  }

  // ---- the query ----

  /** The rows of the join, scenario by scenario. */
  function LeftJoin(ids: seq<int>, runs: seq<Run>): seq<Row> {
    if ids == [] then [] else LeftJoin(ids[..|ids| - 1], runs) + JoinedRows(ids[|ids| - 1], runs)
  }

  lemma {:induction false} RowsOfConcat(a: seq<Row>, b: seq<Row>, id: int)
    ensures RowsOf(a + b, id) == RowsOf(a, id) + RowsOf(b, id)
  {
    if b == [] {
      assert a + b == a;
    } else {
      var front := b[..|b| - 1];
      RowsOfConcat(a, front, id);
      assert (a + b)[..|a + b| - 1] == a + front;
    }
  }

  lemma {:induction false} RowsOfOneScenario(rows: seq<Row>, own: int, id: int)
    requires forall i :: 0 <= i < |rows| ==> rows[i].scenarioId == own
    ensures RowsOf(rows, id) == if id == own then rows else []
  {
    if rows != [] {
      RowsOfOneScenario(rows[..|rows| - 1], own, id);
    }
  }

  lemma {:induction false} LeftJoinOrdered(ids: seq<int>, runs: seq<Run>)
    requires Ascending(ids)
    ensures Ordered(LeftJoin(ids, runs))
    ensures forall i :: 0 <= i < |LeftJoin(ids, runs)| ==> LeftJoin(ids, runs)[i].scenarioId in ids
  {
    hide JoinedRows;
    if ids != [] {
      var front, last := ids[..|ids| - 1], ids[|ids| - 1];
      LeftJoinOrdered(front, runs);
      JoinedScenario(last, runs);
      assert ids == front + [last] && forall k :: k in front ==> k < last;
      OrderedConcat(LeftJoin(front, runs), JoinedRows(last, runs), last);
    }
  }

  lemma OrderedConcat(a: seq<Row>, b: seq<Row>, id: int)
    requires Ordered(a) && forall i :: 0 <= i < |a| ==> a[i].scenarioId <= id
    requires forall i :: 0 <= i < |b| ==> b[i].scenarioId == id
    ensures Ordered(a + b)
  {
  }

  /** Over ascending ids the join is ordered, and each scenario has its runs or one row of nulls. */
  lemma {:induction false} LeftJoinRows(ids: seq<int>, runs: seq<Run>, id: int)
    requires Ascending(ids)
    ensures RowsOf(LeftJoin(ids, runs), id) == if id in ids then JoinedRows(id, runs) else []
  {
    hide RowsOf, JoinedRows;
    if ids != [] {
      var front, last := ids[..|ids| - 1], ids[|ids| - 1];
      LeftJoinRows(front, runs, id);
      JoinedScenario(last, runs);
      assert ids == front + [last] && last !in front;
      RowsOfConcat(LeftJoin(front, runs), JoinedRows(last, runs), id);
      RowsOfOneScenario(JoinedRows(last, runs), last, id);
    } else {
      NoRowsOf([], id);
    }
  }

  /** For every set of scenarios and every list of runs there is such a join. */
  lemma JoinIsLeftJoin(ids: seq<int>, scenarios: set<int>, runs: seq<Run>)
    requires Ascending(ids) && forall id :: id in ids <==> id in scenarios
    ensures IsLeftJoin(LeftJoin(ids, runs), scenarios, runs)
  {
    hide RowsOf, JoinedRows, LeftJoin, Ordered, Ascending;
    LeftJoinOrdered(ids, runs);
    forall id ensures RowsOf(LeftJoin(ids, runs), id) == if id in scenarios then JoinedRows(id, runs) else [] {
      LeftJoinRows(ids, runs, id);
    }
  }

  lemma JoinedScenario(id: int, runs: seq<Run>)
    ensures forall i :: 0 <= i < |JoinedRows(id, runs)| ==> JoinedRows(id, runs)[i].scenarioId == id
  {
  }

  predicate Less(a: int, b: int) {
    a < b
  }

  /** The scenario ids in ascending order. */
  method AscendingIds(scenarios: set<int>) returns (ids: seq<int>)
    ensures Ascending(ids) && forall id :: id in ids <==> id in scenarios
  {
    var listed: seq<int>, left := [], scenarios;
    while left != {}
      invariant left <= scenarios && forall id :: id in listed <==> id in scenarios && id !in left
      invariant forall i, j :: 0 <= i < j < |listed| ==> listed[i] != listed[j]
      decreases left
    {
      ghost var some := Someone(left);
      assert some in left;
      var id :| id in left;
      left := left - {id};
      listed := listed + [id];
    }
    Ordering.SortByIsSort(listed, Less);
    return Ordering.SortBy(listed, Less);
  }

  // ---- totals over the runs ----

  function One(r: Run): nat {
    1
  }

  function HasScore(r: Run): nat {
    if r.score.Some? then 1 else 0
  }

  function HasSens(r: Run): nat {
    if r.sens.Some? then 1 else 0
  }

  function Tally(runs: seq<Run>, w: Run -> nat): nat {
    if runs == [] then 0 else Tally(runs[..|runs| - 1], w) + w(runs[|runs| - 1])
  }

  /** The same, scenario by scenario. */
  function TallyBy(ids: seq<int>, runs: seq<Run>, w: Run -> nat): nat {
    if ids == [] then 0 else TallyBy(ids[..|ids| - 1], runs, w) + Tally(RunsOf(runs, ids[|ids| - 1]), w)
  }

  lemma {:induction false} TallyByOneMore(ids: seq<int>, runs: seq<Run>, w: Run -> nat)
    requires runs != [] && Ascending(ids)
    ensures var last := runs[|runs| - 1];
            TallyBy(ids, runs, w) == TallyBy(ids, runs[..|runs| - 1], w) + if last.scenarioId in ids then w(last) else 0
  {
    if ids != [] {
      var front, id := ids[..|ids| - 1], ids[|ids| - 1];
      TallyByOneMore(front, runs, w);
      assert ids == front + [id] && id !in front;
      var mine := RunsOf(runs[..|runs| - 1], id);
      assert (mine + [runs[|runs| - 1]])[..|mine|] == mine && mine + [] == mine;
    }
  }

  lemma {:induction false} NoTally(ids: seq<int>, w: Run -> nat)
    ensures TallyBy(ids, [], w) == 0
  {
    if ids != [] {
      NoTally(ids[..|ids| - 1], w);
    }
  }

  /** Counting by scenario counts every run once. */
  lemma {:induction false} TallyOnce(ids: seq<int>, runs: seq<Run>, w: Run -> nat)
    requires Ascending(ids) && forall i :: 0 <= i < |runs| ==> runs[i].scenarioId in ids
    ensures TallyBy(ids, runs, w) == Tally(runs, w)
  {
    if runs == [] {
      NoTally(ids, w);
    } else {
      TallyByOneMore(ids, runs, w);
      TallyOnce(ids, runs[..|runs| - 1], w);
    }
  }

  lemma {:induction false} TallyMeans(runs: seq<Run>)
    ensures Tally(runs, One) == |runs|
    ensures Tally(runs, HasScore) == |Values(RunScores(runs))| && Tally(runs, HasSens) == |Values(RunSenses(runs))|
  {
    if runs != [] {
      var front := runs[..|runs| - 1];
      TallyMeans(front);
      assert RunScores(runs)[..|runs| - 1] == RunScores(front);
      assert RunSenses(runs)[..|runs| - 1] == RunSenses(front);
    }
  }

  /** The sums over the updates of the first `k` scenarios are the tallies of their runs. */
  lemma {:induction false} SumsAreTallies(rows: seq<Row>, scenarios: set<int>, runs: seq<Run>, k: nat)
    requires IsLeftJoin(rows, scenarios, runs) && k <= |Ids(rows)|
    ensures var ids, us := Ids(rows)[..k], Updates(rows)[..k];
            && SumRuns(us) == TallyBy(ids, runs, One)
            && SumScores(us) == TallyBy(ids, runs, HasScore) && SumSens(us) == TallyBy(ids, runs, HasSens)
  {
    hide IsLeftJoin, Ids, Updates, RunsOf, Tally, UpdateFor, RowsOf;
    UpdatesLength(rows);
    if k > 0 {
      var ids, us := Ids(rows)[..k], Updates(rows)[..k];
      SumsAreTallies(rows, scenarios, runs, k - 1);
      assert ids[..k - 1] == Ids(rows)[..k - 1] && us[..k - 1] == Updates(rows)[..k - 1];
      UpdateOfScenario(rows, scenarios, runs, k - 1);
      TallyMeans(RunsOf(runs, ids[k - 1]));
    }
  }

  lemma UpdatesLength(rows: seq<Row>)
    ensures |Updates(rows)| == |Ids(rows)|
  {
  }

  /** The totals that a run reports: all runs, and all runs with a score or a sensitivity. */
  lemma TotalsOfJoin(rows: seq<Row>, scenarios: set<int>, runs: seq<Run>)
    requires IsLeftJoin(rows, scenarios, runs) && forall i :: 0 <= i < |runs| ==> runs[i].scenarioId in scenarios
    ensures var us := Updates(rows);
            && SumRuns(us) == |runs|
            && SumScores(us) == |Values(RunScores(runs))| && SumSens(us) == |Values(RunSenses(runs))|
  {
    hide IsLeftJoin, Ids, Updates, Tally, TallyBy, Ordered;
    var ids := Ids(rows);
    UpdatesLength(rows);
    SumsAreTallies(rows, scenarios, runs, |ids|);
    assert ids[..|ids|] == ids && Updates(rows)[..|ids|] == Updates(rows);
    JoinOrdered(rows, scenarios, runs);
    IdsAscend(rows);
    forall i | 0 <= i < |runs| ensures runs[i].scenarioId in ids {
      JoinedIds(rows, scenarios, runs, runs[i].scenarioId);
    }
    TallyOnce(ids, runs, One);
    TallyOnce(ids, runs, HasScore);
    TallyOnce(ids, runs, HasSens);
    TallyMeans(runs);
  }

  // ---- what a cache says, said of the table of runs ----

  function Score(r: Run): Option<real> {
    r.score
  }

  function Sensitivity(r: Run): Option<real> {
    r.sens
  }

  /** `xs` are the values that a column has in the runs of a scenario, `at` saying in which. */
  ghost predicate SampleAt(xs: seq<real>, runs: seq<Run>, id: int, column: Run -> Option<real>, at: seq<nat>) {
    && |at| == |xs| && (forall j, k :: 0 <= j < k < |at| ==> at[j] < at[k])
    && (forall k :: 0 <= k < |at| ==>
          at[k] < |runs| && runs[at[k]].scenarioId == id && column(runs[at[k]]) == Some(xs[k]))
    && (forall i :: 0 <= i < |runs| && runs[i].scenarioId == id && column(runs[i]).Some? ==> i in at)
  }

  ghost predicate SampleOf(xs: seq<real>, runs: seq<Run>, id: int, column: Run -> Option<real>) {
    exists at :: SampleAt(xs, runs, id, column, at)
  }

  /** The cache of a scenario counts its runs and summarises its scores and its sensitivities. */
  ghost predicate CacheSays(c: Cached, runs: seq<Run>, id: int) {
    && c.runCount == |set i | 0 <= i < |runs| && runs[i].scenarioId == id|
    && (exists xs :: SampleOf(xs, runs, id, Score) && c.scoreSampleCount == |xs| && SnapshotSays(c.scoreDistribution, xs))
    && (exists xs :: SampleOf(xs, runs, id, Sensitivity) && c.sensSampleCount == |xs| && SnapshotSays(c.sensDistribution, xs))
  }

  function ColumnOf(runs: seq<Run>, column: Run -> Option<real>): (xs: seq<Option<real>>)
    ensures |xs| == |runs| && forall i :: 0 <= i < |runs| ==> xs[i] == column(runs[i])
  {
    seq(|runs|, i requires 0 <= i < |runs| => column(runs[i]))
  }

  lemma {:induction false} CountRunsOf(runs: seq<Run>, id: int)
    ensures |RunsOf(runs, id)| == |set i | 0 <= i < |runs| && runs[i].scenarioId == id|
  {
    if runs != [] {
      var n := |runs| - 1;
      CountRunsOf(runs[..n], id);
      var front := set i | 0 <= i < n && runs[..n][i].scenarioId == id;
      assert (set i | 0 <= i < |runs| && runs[i].scenarioId == id)
          == front + if runs[n].scenarioId == id then {n} else {};
    }
  }

  lemma {:induction false} ValuesAreSample(runs: seq<Run>, id: int, column: Run -> Option<real>) returns (at: seq<nat>)
    ensures SampleAt(Values(ColumnOf(RunsOf(runs, id), column)), runs, id, column, at)
  {
    at := [];
    if runs != [] {
      hide Values, ColumnOf, RunsOf, SampleAt;
      var n := |runs| - 1;
      at := ValuesAreSample(runs[..n], id, column);
      ValuesWithRun(runs, id, column);
      SampleWithRun(Values(ColumnOf(RunsOf(runs[..n], id), column)), runs, id, column, at);
      if runs[n].scenarioId == id && column(runs[n]).Some? {
        at := at + [n];
      }
    }
  }

  lemma SampleWithRun(xs: seq<real>, runs: seq<Run>, id: int, column: Run -> Option<real>, at: seq<nat>)
    requires runs != [] && SampleAt(xs, runs[..|runs| - 1], id, column, at)
    ensures var n := |runs| - 1;
            if runs[n].scenarioId == id && column(runs[n]).Some?
            then SampleAt(xs + [column(runs[n]).value], runs, id, column, at + [n])
            else SampleAt(xs + [], runs, id, column, at)
  {
    var n := |runs| - 1;
    assert xs + [] == xs;
    forall i | 0 <= i < n && runs[i].scenarioId == id && column(runs[i]).Some? ensures i in at {
      assert runs[..n][i] == runs[i];
    }
    assert (at + [n])[|at|] == n;
  }

  lemma ValuesWithRun(runs: seq<Run>, id: int, column: Run -> Option<real>)
    requires runs != []
    ensures var n := |runs| - 1;
            Values(ColumnOf(RunsOf(runs, id), column)) ==
            Values(ColumnOf(RunsOf(runs[..n], id), column))
            + if runs[n].scenarioId == id && column(runs[n]).Some? then [column(runs[n]).value] else []
  {
    var n := |runs| - 1;
    var was, now := ColumnOf(RunsOf(runs[..n], id), column), ColumnOf(RunsOf(runs, id), column);
    if runs[n].scenarioId == id {
      assert now[..|was|] == was;
    } else {
      assert RunsOf(runs, id) == RunsOf(runs[..n], id);
    }
  }

  /** What a run leaves in a cache says this of the runs. */
  lemma CacheSaysRuns(runs: seq<Run>, id: int)
    ensures CacheSays(CacheOf(RunsOf(runs, id)), runs, id)
  {
    hide Summary, SnapshotSays, Values, SampleAt, RunsOf;
    var mine := RunsOf(runs, id);
    CountRunsOf(runs, id);
    assert RunScores(mine) == ColumnOf(mine, Score) && RunSenses(mine) == ColumnOf(mine, Sensitivity);
    var scores, senses := Values(RunScores(mine)), Values(RunSenses(mine));
    var at := ValuesAreSample(runs, id, Score);
    assert SampleOf(scores, runs, id, Score);
    at := ValuesAreSample(runs, id, Sensitivity);
    assert SampleOf(senses, runs, id, Sensitivity);
    SummarySays(scores);
    SummarySays(senses);
  }

  lemma {:induction false} CountValues(xs: seq<Option<real>>)
    ensures |Values(xs)| == |set i | 0 <= i < |xs| && xs[i].Some?|
  {
    if xs != [] {
      var n := |xs| - 1;
      CountValues(xs[..n]);
      var front := set i | 0 <= i < n && xs[..n][i].Some?;
      assert (set i | 0 <= i < |xs| && xs[i].Some?) == front + if xs[n].Some? then {n} else {};
    }
  }

  lemma CountSamples(runs: seq<Run>)
    ensures |Values(RunScores(runs))| == |set i | 0 <= i < |runs| && runs[i].score.Some?|
    ensures |Values(RunSenses(runs))| == |set i | 0 <= i < |runs| && runs[i].sens.Some?|
  {
    CountValues(RunScores(runs));
    CountValues(RunSenses(runs));
    hide Values;
    assert (set i | 0 <= i < |runs| && RunScores(runs)[i].Some?) == set i | 0 <= i < |runs| && runs[i].score.Some?;
    assert (set i | 0 <= i < |runs| && RunSenses(runs)[i].Some?) == set i | 0 <= i < |runs| && runs[i].sens.Some?;
  }

  class Database {
    var scenarios: map<int, Cached>
    var runs: seq<Run>

    /** Every run belongs to a scenario. */
    ghost predicate Valid()
      reads this
    {
      forall i :: 0 <= i < |runs| ==> runs[i].scenarioId in scenarios
    }

    constructor (scenarios: map<int, Cached>, runs: seq<Run>)
      ensures this.scenarios == scenarios && this.runs == runs
    {
      this.scenarios, this.runs := scenarios, runs;
    }

    /** The query: `scenarios LEFT JOIN runs`, ordered by scenario. */
    method Query() returns (rows: seq<Row>)
      ensures IsLeftJoin(rows, scenarios.Keys, runs)
    {
      hide IsLeftJoin, LeftJoin, Ascending;
      var ids := AscendingIds(scenarios.Keys);
      JoinIsLeftJoin(ids, scenarios.Keys, runs);
      return LeftJoin(ids, runs);
    }

    /** `Run`: collect the updates from the query's rows, apply them one by one, commit or roll back. Afterwards
        every scenario caches exactly what its runs call for, and the report counts the scenarios, the runs, and the runs
        with a score or a sensitivity. */
    method Run(commits: bool) returns (r: Result<(nat, nat, nat, nat), ()>)
      requires Valid()
      modifies this
      ensures Valid() && runs == old(runs)
      ensures r.Ok? <==> commits
      ensures r.Err? ==> scenarios == old(scenarios)
      ensures r.Ok? ==> scenarios.Keys == old(scenarios).Keys
      ensures r.Ok? ==> forall id :: id in scenarios ==> scenarios[id] == CacheOf(RunsOf(runs, id))
      ensures r.Ok? ==> forall id :: id in scenarios ==> CacheSays(scenarios[id], runs, id)
      ensures r.Ok? ==> r.value == (|scenarios|, |runs|, |set i | 0 <= i < |runs| && runs[i].score.Some?|,
                                    |set i | 0 <= i < |runs| && runs[i].sens.Some?|)
    {
      hide CacheSays, RunsOf;
      CountSamples(runs);
      hide UpdateFor, RowsOf, JoinedRows, CacheOf, SumRuns, SumScores, SumSens, IsLeftJoin, Values;
      var rows := Query();
      var updates, totalRuns, totalScoreSamples, totalSensSamples := CollectUpdates(rows) by {
        JoinOrdered(rows, scenarios.Keys, runs);
      }
      TotalsOfJoin(rows, scenarios.Keys, runs);
      var ids := Ids(rows);
      AsManyIds(rows, scenarios.Keys, runs);
      var tx := scenarios;
      var updatedRows := 0;
      for i := 0 to |updates|
        invariant tx.Keys == scenarios.Keys && updatedRows == i
        invariant scenarios == old(scenarios) && runs == old(runs)
        invariant forall k :: 0 <= k < i ==> ids[k] in tx && tx[ids[k]] == CacheOf(RunsOf(runs, ids[k]))
      {
        var u := updates[i];
        UpdateOfScenario(rows, scenarios.Keys, runs, i);
        if u.scenarioId in tx {
          tx := tx[u.scenarioId := Cached(
            u.runCount, u.scoreSampleCount, u.scoreDistribution, u.sensSampleCount, u.sensDistribution)];
          updatedRows := updatedRows + 1;
        }
      }
      forall id | id in tx ensures exists k :: 0 <= k < |ids| && ids[k] == id {
        JoinedIds(rows, scenarios.Keys, runs, id);
      }
      if !commits {
        return Err(());
      }
      forall id | id in tx ensures CacheSays(tx[id], runs, id) {
        CacheSaysRuns(runs, id);
      }
      scenarios := tx;
      return Ok((updatedRows, totalRuns, totalScoreSamples, totalSensSamples));
    }
  }

  /** There are as many groups as scenarios. */
  lemma AsManyIds(rows: seq<Row>, scenarios: set<int>, runs: seq<Run>)
    requires IsLeftJoin(rows, scenarios, runs)
    ensures |Ids(rows)| == |scenarios|
  {
    hide IsLeftJoin, Ids, Ordered;
    JoinOrdered(rows, scenarios, runs);
    IdsAscend(rows);
    forall id ensures id in Ids(rows) <==> id in scenarios {
      JoinedIds(rows, scenarios, runs, id);
    }
    AscendingLength(Ids(rows), scenarios);
  }

  lemma {:induction false} AscendingLength(ids: seq<int>, s: set<int>)
    requires Ascending(ids) && forall id :: id in ids <==> id in s
    ensures |ids| == |s|
  {
    if ids == [] {
      if s != {} {
        var x := Someone(s);
        assert false;
      }
    } else {
      var front, last := ids[..|ids| - 1], ids[|ids| - 1];
      assert ids == front + [last] && last !in front && last in s;
      AscendingLength(front, s - {last});
    }
  }

  lemma JoinOrdered(rows: seq<Row>, scenarios: set<int>, runs: seq<Run>)
    requires IsLeftJoin(rows, scenarios, runs)
    ensures Ordered(rows)
  {
  }

  /** The k-th update is for a scenario of the table and carries what its cache should say. */
  lemma UpdateOfScenario(rows: seq<Row>, scenarios: set<int>, runs: seq<Run>, k: nat)
    requires IsLeftJoin(rows, scenarios, runs) && k < |Ids(rows)|
    ensures var id, u := Ids(rows)[k], Updates(rows)[k];
            && id in scenarios && u.scenarioId == id
            && CacheOf(RunsOf(runs, id)) == Cached(
                 u.runCount, u.scoreSampleCount, u.scoreDistribution, u.sensSampleCount, u.sensDistribution)
  {
    var id := Ids(rows)[k];
    JoinedIds(rows, scenarios, runs, id);
    UpdateOfJoinedRows(id, runs);
    hide Ids, RowsOf, JoinedRows, RunsOf, Summary;
  }
}
