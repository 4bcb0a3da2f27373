/** `Service.Run` of the benchmark sync, and what its skip, commit and fingerprint steps add up to over whole runs. */
module Protocol {
  import opened Common
  import opened BenchmarkSource
  import opened Merging
  import opened Parsing
  import opened Tables
  import opened SyncSpec
  import opened SyncRun
  import opened SyncCounts
  import opened SyncRows
  import opened SyncDatabase
  import opened SyncProperties
  import opened ViewRenaming

  // ---- one run ----

  /** What a run finds outside: the decoded source (None when it is not JSON of the right shape), the hash of its bytes,
      the progress endpoint, and whether the commit and the fingerprint write go through. */
  datatype Outside = Outside(
    decoded: Option<seq<Benchmark>>, ctx: Context, fetch: int -> Option<seq<ProgressScenario>>,
    commits: bool, records: bool)

  datatype Outcome = Skipped | Synced(summary: SyncSummary) | Failed | SyncedUnrecorded

  /** The tree that a run writes. */
  ghost function TreeOf(decoded: seq<Benchmark>, fetch: int -> Option<seq<ProgressScenario>>): (es: seq<Benchmark>)
    ensures |es| == |decoded|
  {
    MapSeq(b => EnrichBenchmark(TrimBenchmark(b), fetch), decoded)
  }

  /** The run gets as far as the database with a tree to write. */
  ghost predicate Prepares(out: Outside) {
    && out.decoded.Some?
    && var ts := MapSeq(TrimBenchmark, out.decoded.value);
       && ts != [] && Accepted(ts)
       && forall i, j :: 0 <= i < |ts| && 0 <= j < |ts[i].difficulties| ==> Enrichable(ts[i].difficulties[j], out.fetch)
  }

  /** The run writes its tree over the rows `before`. */
  ghost predicate Writes(out: Outside, before: set<Fact>) {
    && Prepares(out)
    && CanSync(before, TreeOf(out.decoded.value, out.fetch), out.ctx)
    && out.commits
  }

  lemma TreeOfParts(ds: seq<Benchmark>, fetch: int -> Option<seq<ProgressScenario>>, es: seq<Benchmark>)
    requires |es| == |ds| && forall i :: 0 <= i < |ds| ==> es[i] == EnrichBenchmark(TrimBenchmark(ds[i]), fetch)
    ensures es == TreeOf(ds, fetch)
  {
    hide EnrichBenchmark, TrimBenchmark;
  }

  /** What the sync is handed is never empty, and always fit to sync. */
  lemma PreparedIsAccepted(out: Outside)
    requires Prepares(out)
    ensures var bs := TreeOf(out.decoded.value, out.fetch); bs != [] && Accepted(bs)
  {
    hide Accepted, TrimBenchmark, EnrichBenchmark, Enrichable;
    var ts, es := MapSeq(TrimBenchmark, out.decoded.value), TreeOf(out.decoded.value, out.fetch);
    EnrichedIsAccepted(ts, out.fetch, es);
  }

  // ---- the same, said of the source ----

  /** The source is a tree that, trimmed, is sound and whose difficulties can be enriched; it can be written over the tables
      `t`, and the commit goes through. */
  ghost predicate CanWrite(out: Outside, t: Tables) {
    out.decoded.Some? && out.commits && exists ts :: CanWriteTrimmed(out, t, ts)
  }

  ghost predicate CanWriteTrimmed(out: Outside, t: Tables, ts: seq<Benchmark>)
    requires out.decoded.Some?
  {
    && AllTrimmed(ts, out.decoded.value) && ts != [] && Sound(ts, |ts|)
    && (forall i, j :: IsDifficultyOf(ts, i, j) ==> CanEnrich(ts[i].difficulties[j], out.fetch))
    && CanBeWritten(t, ts, out.ctx)
  }

  /** The tables hold the rows of the source's tree, trimmed and enriched. */
  ghost predicate HoldSource(t: Tables, out: Outside) {
    out.decoded.Some? && exists ts, es :: AllTrimmed(ts, out.decoded.value) && AllEnrichedFrom(es, ts, out.fetch) && TablesSay(t, es, out.ctx)
  }

  ghost predicate AllEnrichedFrom(es: seq<Benchmark>, ts: seq<Benchmark>, fetch: int -> Option<seq<ProgressScenario>>) {
    |es| == |ts| && forall i :: 0 <= i < |ts| ==> Enriched(es[i], ts[i], fetch)
  }

  lemma TrimmedTree(ts: seq<Benchmark>, bs: seq<Benchmark>)
    ensures AllTrimmed(ts, bs) <==> ts == MapSeq(TrimBenchmark, bs)
  {
    hide Trimmed, TrimBenchmark;
    forall t, b ensures Trimmed(t, b) <==> t == TrimBenchmark(b) {
      TrimmedOnce(t, b);
    }
  }

  lemma PreparesMeans(out: Outside)
    requires out.decoded.Some?
    ensures var ts := MapSeq(TrimBenchmark, out.decoded.value);
            Prepares(out) <==> ts != [] && Sound(ts, |ts|) &&
                               forall i, j :: IsDifficultyOf(ts, i, j) ==> CanEnrich(ts[i].difficulties[j], out.fetch)
  {
    hide TrimBenchmark, Accepted, Sound, Enrichable, CanEnrich;
    var ts := MapSeq(TrimBenchmark, out.decoded.value);
    AcceptedIsSound(ts);
    forall i, j | IsDifficultyOf(ts, i, j)
      ensures Enrichable(ts[i].difficulties[j], out.fetch) <==> CanEnrich(ts[i].difficulties[j], out.fetch)
    {
      EnrichableMeans(ts[i].difficulties[j], out.fetch);
    }
  }

  /** What enriching adds does not matter for whether a tree can be written. */
  lemma EnrichedWritable(t: Tables, ts: seq<Benchmark>, es: seq<Benchmark>, fetch: int -> Option<seq<ProgressScenario>>, ctx: Context)
    requires AllEnrichedFrom(es, ts, fetch)
    ensures CanBeWritten(t, es, ctx) <==> CanBeWritten(t, ts, ctx)
  {
    hide EnrichedDifficulty;
    forall i, id | 0 <= i < |ts| ensures StillHeld(t, es, i, id) <==> StillHeld(t, ts, i, id) {
      forall d, k ensures HeldBy(t, es, d, k, id) <==> HeldBy(t, ts, d, k, id) {
      }
    }
    hide StillHeld;
    forall i, j | 0 <= i < |ts| && 0 <= j < |ts[i].difficulties|
      ensures var e, d := es[i].difficulties[j], ts[i].difficulties[j];
              e.difficultyName == d.difficultyName && e.kovaaksBenchmarkId == d.kovaaksBenchmarkId && e.categories == d.categories
    {
      SameDifficulty(es[i].difficulties[j], ts[i].difficulties[j], fetch);
    }
    forall i | 0 <= i < |ts| ensures CanBeWrittenAt(t, es, ctx, i) <==> CanBeWrittenAt(t, ts, ctx, i) {
    }
  }

  lemma SameDifficulty(e: Difficulty, d: Difficulty, fetch: int -> Option<seq<ProgressScenario>>)
    requires EnrichedDifficulty(e, d, fetch)
    ensures e.difficultyName == d.difficultyName && e.kovaaksBenchmarkId == d.kovaaksBenchmarkId && e.categories == d.categories
  {
  }

  lemma TreeIsEnriched(out: Outside)
    requires Prepares(out)
    ensures AllEnrichedFrom(TreeOf(out.decoded.value, out.fetch), MapSeq(TrimBenchmark, out.decoded.value), out.fetch)
  {
    hide TrimBenchmark, EnrichBenchmark, Enriched, Enrichable, Accepted;
    var ts := MapSeq(TrimBenchmark, out.decoded.value);
    forall i | 0 <= i < |ts| ensures Enriched(TreeOf(out.decoded.value, out.fetch)[i], ts[i], out.fetch) {
      Enriches(ts[i], out.fetch);
    }
  }

  /** When a run writes. */
  lemma WritesMeans(out: Outside, t: Tables)
    ensures Writes(out, View(t)) <==> CanWrite(out, t)
  {
    hide Prepares, TreeOf, View, CanSync, CanBeWritten, TrimBenchmark, AllTrimmed, Sound, CanEnrich, AllEnrichedFrom, RejectsDate, StopsAtDate;
    if out.decoded.Some? {
      var ts, es := MapSeq(TrimBenchmark, out.decoded.value), TreeOf(out.decoded.value, out.fetch);
      PreparesMeans(out);
      CanSyncMeans(t, es, out.ctx);
      if Prepares(out) {
        TreeIsEnriched(out);
        EnrichedWritable(t, ts, es, out.fetch, out.ctx);
      }
      forall us ensures AllTrimmed(us, out.decoded.value) <==> us == ts {
        TrimmedTree(us, out.decoded.value);
      }
      if CanBeWritten(t, ts, out.ctx) && Prepares(out) {
        assert CanWriteTrimmed(out, t, ts);
      }
    } else {
      assert !Prepares(out) by { NothingDecoded(out); }
    }
  }

  lemma NothingDecoded(out: Outside)
    requires out.decoded.None?
    ensures !Prepares(out)
  {
  }

  lemma SourceHeld(out: Outside, t: Tables)
    requires Prepares(out) && TablesSay(t, TreeOf(out.decoded.value, out.fetch), out.ctx)
    ensures HoldSource(t, out)
  {
    hide TreeOf, TablesSay, TrimBenchmark, AllTrimmed, AllEnrichedFrom, Accepted, Enrichable;
    TreeIsEnriched(out);
    TrimmedTree(MapSeq(TrimBenchmark, out.decoded.value), out.decoded.value);
  }

  method Prepare(out: Outside) returns (r: Option<seq<Benchmark>>)
    requires forall id :: out.fetch(id).Some? ==> |out.fetch(id).value| < INT_LIMIT
    ensures r.Some? <==> Prepares(out)
    ensures r.Some? ==> r.value == TreeOf(out.decoded.value, out.fetch) && Accepted(r.value)
  {
    hide Accepted, TrimBenchmark, EnrichBenchmark, Enrichable, TreeOf;
    if out.decoded.None? {
      return None;
    }
    var ds := out.decoded.value;
    var benchmarks := new Benchmark[|ds|](i requires 0 <= i < |ds| => ds[i]);
    assert benchmarks[..] == ds;
    ghost var ts := MapSeq(TrimBenchmark, ds);
    var parsed := ParseBenchmarks(benchmarks);
    if parsed.Err? {
      return None;
    }
    forall i | 0 <= i < |ds| ensures benchmarks[i] == ts[i] {
      assert benchmarks[i] == benchmarks[..][i];
    }
    var enriched := EnrichBenchmarks(benchmarks, out.fetch);
    if enriched.Err? {
      return None;
    }
    TreeOfParts(ds, out.fetch, benchmarks[..]);
    EnrichedIsAccepted(ts, out.fetch, benchmarks[..]);
    return Some(benchmarks[..]);
  }

  class Service {
    const database: Database
    var stored: Option<string>

    constructor (database: Database, stored: Option<string>)
      ensures this.database == database && this.stored == stored
    {
      this.database, this.stored := database, stored;
    }

    /** `Run`. A source whose hash is the stored one is skipped. Otherwise the tables become the image of the source's
        tree, or nothing changes; the fingerprint is written after that, outside the transaction. */
    method Run(out: Outside) returns (outcome: Outcome)
      requires Valid(database.tables)
      requires forall id :: out.fetch(id).Some? ==> |out.fetch(id).value| < INT_LIMIT
      modifies this, database
      ensures Valid(database.tables)
      ensures outcome.Skipped? <==> old(stored) == Some(out.ctx.sourceHash)
      ensures outcome.Synced? || outcome.SyncedUnrecorded? <==>
              old(stored) != Some(out.ctx.sourceHash) && Writes(out, View(old(database.tables)))
      ensures outcome.Synced? || outcome.SyncedUnrecorded? <==>
              old(stored) != Some(out.ctx.sourceHash) && CanWrite(out, old(database.tables))
      ensures outcome.Synced? || outcome.SyncedUnrecorded? ==> HoldSource(database.tables, out)
      ensures outcome.Synced? || outcome.SyncedUnrecorded? ==>
                var bs := TreeOf(out.decoded.value, out.fetch); View(database.tables) == Image(bs, |bs|, out.ctx)
      ensures outcome.Synced? ==> out.records && stored == Some(out.ctx.sourceHash) && outcome.summary == Sizes(database.tables)
      ensures outcome.SyncedUnrecorded? ==> !out.records && stored == old(stored)
      ensures outcome.Skipped? || outcome.Failed? ==> database.tables == old(database.tables) && stored == old(stored)
    {
      hide Prepares, CanSync, Valid, View, TreeOf, Image, CarriesNamed, Accepted, Sizes, CanWrite, HoldSource, TablesSay;
      hide CanBeWritten, RejectsDate;
      WritesMeans(out, database.tables);
      if stored == Some(out.ctx.sourceHash) {
        return Skipped;
      }
      var prepared := Prepare(out);
      if prepared.None? {
        return Failed;
      }
      var synced := database.SyncToDatabase(prepared.value, out.ctx, out.commits);
      if synced.Err? {
        return Failed;
      }
      SourceHeld(out, database.tables);
      if !out.records {
        return SyncedUnrecorded;
      }
      stored := Some(out.ctx.sourceHash);
      return Synced(synced.value);
    }
  }

  // ---- all runs ----

  /** How far the run in flight has got, with the hash it read at its start. */
  datatype Phase = Idle | Running(hash: string) | Committed(hash: string)

  /** A commit, and whether its fingerprint was written. */
  datatype Commit = Commit(hash: string, recorded: bool)

  /** The source file's hash, the rows, the stored fingerprint, the run in flight, and the commits so far. */
  datatype State = State(file: string, facts: set<Fact>, stored: Option<string>, phase: Phase, log: seq<Commit>)

  datatype Event =
    | FileChanges(file: string)
    | Skip
    | Start
    | Fail
    | CommitRun(bs: seq<Benchmark>, ctx: Context)
    | Record
    | LoseRecord

  ghost predicate Enabled(s: State, e: Event) {
    match e
    case FileChanges(_) => true
    case Skip => s.phase == Idle && s.stored == Some(s.file)
    case Start => s.phase == Idle && s.stored != Some(s.file)
    case Fail => s.phase.Running?
    case CommitRun(bs, ctx) =>
      s.phase == Running(ctx.sourceHash) && bs != [] && Accepted(bs) && CanSync(s.facts, bs, ctx)
    case Record => s.phase.Committed?
    case LoseRecord => s.phase.Committed?
  }

  ghost function After(s: State, e: Event): State {
    match e
    case FileChanges(file) => s.(file := file)
    case Skip => s
    case Start => s.(phase := Running(s.file))
    case Fail => s.(phase := Idle)
    case CommitRun(bs, ctx) =>
      s.(facts := Image(bs, |bs|, ctx), phase := Committed(ctx.sourceHash), log := s.log + [Commit(ctx.sourceHash, false)])
    case Record =>
      if s.phase.Committed? && s.log != [] then
        s.(stored := Some(s.phase.hash), phase := Idle, log := s.log[|s.log| - 1 := Commit(s.phase.hash, true)])
      else s
    case LoseRecord => s.(phase := Idle)
  }

  /** The state after a history of events from empty tables. */
  ghost function Reached(file: string, es: seq<Event>): State {
    if es == [] then State(file, {}, None, Idle, [])
    else After(Reached(file, es[..|es| - 1]), es[|es| - 1])
  }

  /** Every event of the history could happen when it did. */
  ghost predicate History(file: string, es: seq<Event>) {
    es == [] || (History(file, es[..|es| - 1]) && Enabled(Reached(file, es[..|es| - 1]), es[|es| - 1]))
  }

  /** Commit `k` wrote the stored fingerprint, and no commit after it wrote one. */
  ghost predicate IsLastRecorded(s: State, k: nat) {
    && k < |s.log| && s.log[k].recorded && s.stored == Some(s.log[k].hash)
    && forall m :: k < m < |s.log| ==> !s.log[m].recorded
  }

  ghost predicate Inv(s: State) {
    && (forall row :: BenchmarkFact(row) in s.facts ==> s.log != [] && row.sourceHash == s.log[|s.log| - 1].hash)
    && (s.log != [] ==> exists row :: BenchmarkFact(row) in s.facts)
    && (s.phase.Committed? ==> s.log != [] && s.log[|s.log| - 1] == Commit(s.phase.hash, false))
    && (s.stored.None? ==> forall m :: 0 <= m < |s.log| ==> !s.log[m].recorded)
    && (s.stored.Some? ==> exists k :: IsLastRecorded(s, k))
  }

  lemma StepKeepsInv(s: State, e: Event)
    requires Inv(s) && Enabled(s, e)
    ensures Inv(After(s, e))
  {
    hide Image, CanSync, Accepted, RowOf;
    var t := After(s, e);
    if e.CommitRun? {
      ImageHasRow(e.bs, |e.bs|, e.ctx, 0);
      forall row | BenchmarkFact(row) in t.facts ensures row.sourceHash == e.ctx.sourceHash {
        ImageNamesItsSource(e.bs, |e.bs|, e.ctx, row);
      }
    }
    if t.stored.Some? {
      if e.Record? {
        assert IsLastRecorded(t, |s.log| - 1);
      } else {
        var k :| IsLastRecorded(s, k);
        assert IsLastRecorded(t, k);
      }
    }
  }

  /** Over all histories: every benchmark row carries the hash of the last commit, and the stored fingerprint is that of
      the last commit whose fingerprint was written. */
  lemma {:induction false} InvAlways(file: string, es: seq<Event>)
    requires History(file, es)
    ensures Inv(Reached(file, es))
  {
    hide After, Enabled;
    if es != [] {
      InvAlways(file, es[..|es| - 1]);
      StepKeepsInv(Reached(file, es[..|es| - 1]), es[|es| - 1]);
    }
  }

  /** Some benchmark row comes from another source than the file. */
  ghost predicate Stale(s: State) {
    exists row :: BenchmarkFact(row) in s.facts && row.sourceHash != s.file
  }

  /** A skip leaves rows of another source exactly when the last commit lost its fingerprint and the stored one is not its
      own; the file is then back at the content of the last commit that did leave its fingerprint, and every benchmark row
      is of the other source. */
  lemma SkipMeaning(file: string, es: seq<Event>) returns (k: nat)
    requires History(file, es) && Enabled(Reached(file, es), Skip)
    ensures var s := Reached(file, es);
            && IsLastRecorded(s, k) && s.log[k].hash == s.file
            && var last := s.log[|s.log| - 1];
               && (Stale(s) <==> !last.recorded && s.stored != Some(last.hash))
               && (Stale(s) ==> forall row :: BenchmarkFact(row) in s.facts ==> row.sourceHash == last.hash != s.file)
  {
    InvAlways(file, es);
    hide History, Reached;
    var s := Reached(file, es);
    k :| IsLastRecorded(s, k);
    var row :| BenchmarkFact(row) in s.facts;
  }

  /** Without lost fingerprints every skip is right: the rows are those of the file. */
  lemma NoLossNoStale(file: string, es: seq<Event>)
    requires History(file, es) && Enabled(Reached(file, es), Skip) && LoseRecord !in es
    ensures forall row :: BenchmarkFact(row) in Reached(file, es).facts ==> row.sourceHash == Reached(file, es).file
  {
    InvAlways(file, es);
    AllRecorded(file, es);
    var k := SkipMeaning(file, es);
    hide History, Reached;
    var s := Reached(file, es);
    var last := s.log[|s.log| - 1];
    assert last.recorded && k == |s.log| - 1;
  }

  lemma {:induction false} AllRecorded(file: string, es: seq<Event>)
    requires History(file, es) && LoseRecord !in es
    ensures var s := Reached(file, es);
            forall m :: 0 <= m < |s.log| - (if s.phase.Committed? then 1 else 0) ==> s.log[m].recorded
  {
    hide Image, CanSync, Accepted;
    if es != [] {
      InvAlways(file, es[..|es| - 1]);
      AllRecorded(file, es[..|es| - 1]);
      assert es[|es| - 1] in es;
    }
  }

  lemma Unfold(file: string, es: seq<Event>, e: Event, more: seq<Event>)
    requires more == es + [e]
    ensures Reached(file, more) == After(Reached(file, es), e)
    ensures History(file, more) <==> History(file, es) && Enabled(Reached(file, es), e)
  {
    assert more[..|es|] == es;
  }

  /** A run that commits, as three events. */
  lemma RunEvents(s: State, bs: seq<Benchmark>, ctx: Context, recorded: bool)
    requires s.phase == Idle && s.file == ctx.sourceHash && s.stored != Some(ctx.sourceHash) && CanSync(s.facts, bs, ctx)
    requires bs != [] && Accepted(bs)
    ensures var last := if recorded then Record else LoseRecord;
            var started := After(s, Start);
            var committed := After(started, CommitRun(bs, ctx));
            && Enabled(s, Start) && Enabled(started, CommitRun(bs, ctx)) && Enabled(committed, last)
            && After(committed, last) ==
               s.(facts := Image(bs, |bs|, ctx), log := s.log + [Commit(ctx.sourceHash, recorded)],
                  stored := if recorded then Some(ctx.sourceHash) else s.stored)
  {
    hide Image, CanSync, Accepted;
    assert (s.log + [Commit(ctx.sourceHash, false)])[|s.log| := Commit(ctx.sourceHash, true)]
        == s.log + [Commit(ctx.sourceHash, true)];
  }

  /** The same at the end of a history. */
  lemma RunHistory(file: string, es: seq<Event>, bs: seq<Benchmark>, ctx: Context, recorded: bool, more: seq<Event>)
    requires History(file, es) && Reached(file, es).phase == Idle
    requires Reached(file, es).file == ctx.sourceHash && Reached(file, es).stored != Some(ctx.sourceHash)
    requires CanSync(Reached(file, es).facts, bs, ctx) && bs != [] && Accepted(bs)
    requires more == es + [Start, CommitRun(bs, ctx), if recorded then Record else LoseRecord]
    ensures History(file, more)
    ensures var s := Reached(file, es);
            Reached(file, more) == s.(facts := Image(bs, |bs|, ctx), log := s.log + [Commit(ctx.sourceHash, recorded)],
                                      stored := if recorded then Some(ctx.sourceHash) else s.stored)
  {
    hide Image, CanSync, Accepted, Reached, History, Enabled, After;
    var s := Reached(file, es);
    RunEvents(s, bs, ctx, recorded);
    var started, committed := es + [Start], es + [Start, CommitRun(bs, ctx)];
    Unfold(file, es, Start, started);
    Unfold(file, started, CommitRun(bs, ctx), committed);
    Unfold(file, committed, if recorded then Record else LoseRecord, more);
  }

  // ---- the service moves along these histories ----

  /** What a run does, as events: the file is at the content that the run reads, and does not change meanwhile. */
  ghost function EventsOf(out: Outside, outcome: Outcome): seq<Event> {
    match outcome
    case Skipped => [Skip]
    case Failed => [Start, Fail]
    case _ =>
      var bs := if out.decoded.Some? then TreeOf(out.decoded.value, out.fetch) else [];
      [Start, CommitRun(bs, out.ctx), if outcome.Synced? then Record else LoseRecord]
  }

  /** `s` is what the state machine sees of a service between runs. */
  ghost predicate Sees(s: State, file: string, tables: Tables, stored: Option<string>) {
    s.file == file && s.facts == View(tables) && s.stored == stored && s.phase == Idle
  }

  lemma SkipHistory(file: string, es: seq<Event>, more: seq<Event>)
    requires History(file, es) && Enabled(Reached(file, es), Skip) && more == es + [Skip]
    ensures History(file, more) && Reached(file, more) == Reached(file, es)
  {
    hide Reached, History;
    Unfold(file, es, Skip, more);
  }

  lemma FailHistory(file: string, es: seq<Event>, more: seq<Event>)
    requires History(file, es) && Enabled(Reached(file, es), Start) && more == es + [Start, Fail]
    ensures History(file, more) && Reached(file, more) == Reached(file, es)
  {
    hide Reached, History;
    Unfold(file, es, Start, es + [Start]);
    Unfold(file, es + [Start], Fail, more);
  }

  /** At the end of any history that has brought the service where it is, a run is the events of its outcome, and the
      history with them brings the service where it is then. So a skip is one of those that `SkipMeaning` speaks of: it
      leaves benchmark rows of another source exactly when the last commit lost its fingerprint and the stored one is not
      its own. */
  method RunFollows(service: Service, out: Outside, ghost file: string, ghost es: seq<Event>)
    returns (outcome: Outcome, ghost more: seq<Event>)
    requires Valid(service.database.tables)
    requires forall id :: out.fetch(id).Some? ==> |out.fetch(id).value| < INT_LIMIT
    requires History(file, es) && Sees(Reached(file, es), out.ctx.sourceHash, service.database.tables, service.stored)
    modifies service, service.database
    ensures Valid(service.database.tables) && more == es + EventsOf(out, outcome)
    ensures History(file, more)
    ensures Sees(Reached(file, more), out.ctx.sourceHash, service.database.tables, service.stored)
    ensures outcome.Skipped? ==>
              var log := Reached(file, es).log;
              && log != []
              && var last := log[|log| - 1];
                 (exists row :: BenchmarkFact(row) in View(service.database.tables) && row.sourceHash != out.ctx.sourceHash)
                 <==> !last.recorded && service.stored != Some(last.hash)
  {
    hide CanSync, Valid, View, Image, TreeOf, Enrichable, Accepted, TrimBenchmark, History, Reached;
    ghost var s := Reached(file, es);
    outcome := service.Run(out);
    more := es + EventsOf(out, outcome);
    if outcome.Skipped? {
      ghost var k := SkipMeaning(file, es);
      SkipHistory(file, es, more);
    } else if outcome.Failed? {
      FailHistory(file, es, more);
    } else {
      PreparedIsAccepted(out);
      RunHistory(file, es, TreeOf(out.decoded.value, out.fetch), out.ctx, outcome.Synced?, more);
    }
  }

  lemma ChangeHistory(file: string, es: seq<Event>, was: string, hash: string, more: seq<Event>, tables: Tables,
                      stored: Option<string>)
    requires History(file, es) && Sees(Reached(file, es), was, tables, stored) && more == es + [FileChanges(hash)]
    ensures History(file, more) && Sees(Reached(file, more), hash, tables, stored)
  {
    hide Reached, History, View;
    Unfold(file, es, FileChanges(hash), more);
  }

  lemma EmptyHistory(file: string, tables: Tables)
    requires tables.benchmarks == map[]
    ensures History(file, []) && Sees(Reached(file, []), file, tables, None)
  {
    hide View;
    NoBenchmarksNoRows(tables);
  }

  /** Any series of runs from tables without a benchmark, each over whatever the file then holds, is a history: what is
      proved over all histories holds of the service after it. */
  method RunSeries(service: Service, outs: seq<Outside>) returns (outcomes: seq<Outcome>, ghost file: string, ghost es: seq<Event>)
    requires Valid(service.database.tables) && service.database.tables.benchmarks == map[] && service.stored == None
    requires forall i, id :: 0 <= i < |outs| && outs[i].fetch(id).Some? ==> |outs[i].fetch(id).value| < INT_LIMIT
    modifies service, service.database
    ensures Valid(service.database.tables) && |outcomes| == |outs| && History(file, es)
    ensures var s := Reached(file, es);
            Sees(s, if outs == [] then file else outs[|outs| - 1].ctx.sourceHash, service.database.tables, service.stored)
    ensures Inv(Reached(file, es))
  {
    hide Valid, View, Inv, History, Reached, Sees;
    file, es, outcomes := "", [], [];
    EmptyHistory(file, service.database.tables);
    ghost var content := file;
    for i := 0 to |outs|
      invariant Valid(service.database.tables) && |outcomes| == i && History(file, es)
      invariant content == if i == 0 then file else outs[i - 1].ctx.sourceHash
      invariant Sees(Reached(file, es), content, service.database.tables, service.stored)
    {
      ghost var hash := outs[i].ctx.sourceHash;
      ghost var changed := es + [FileChanges(hash)];
      ChangeHistory(file, es, content, hash, changed, service.database.tables, service.stored);
      var outcome;
      outcome, es := RunFollows(service, outs[i], file, changed);
      outcomes := outcomes + [outcome];
      content := hash;
    }
    InvAlways(file, es);
  }
}
