/** The scheduler service: reconciling what is scheduled with the job configuration, when any scheduler call may fail. */
module Scheduler {
  import opened Common

  datatype JobConfig = JobConfig(jobName: string, cronExpr: string, enabled: bool)
  datatype Registration = Registration(gocronId: int, cronExpr: string)
  datatype LiveJob = LiveJob(name: string, cronExpr: string)
  datatype SyncError = LoadFailed
  datatype CallError = CallFailed | NotFound

  const CONFIG_SYNC_JOB := "worker-config-sync"

  /** A call to the scheduler library, and whether it went through. */
  datatype Call =
    | AddCall(name: string, ok: bool)
    | UpdateCall(name: string, ok: bool)
    | RemoveCall(id: int, ok: bool)

  /** What this model assumes of the scheduler library: a call that fails changes nothing, a new job gets a new id, and an
      update leaves one job under the id it returns. `fails` says which calls fail, by their number; `log` lists the calls
      made so far. */
  class Gocron {
    const fails: nat -> bool
    var live: map<int, LiveJob>
    var log: seq<Call>

    constructor (fails: nat -> bool)
      ensures this.fails == fails && live == map[] && log == []
    {
      this.fails, live, log := fails, map[], [];
    }

    method NewJob(name: string, cronExpr: string) returns (r: Result<int, CallError>)
      modifies this
      ensures log == old(log) + [AddCall(name, r.Ok?)]
      ensures r.Ok? <==> !fails(|old(log)|)
      ensures r.Ok? ==> r.value !in old(live) && live == old(live)[r.value := LiveJob(name, cronExpr)]
      ensures r.Err? ==> live == old(live)
    {
      var number := |log|;
      log := log + [AddCall(name, !fails(number))];
      if fails(number) {
        return Err(CallFailed);
      }
      var id := FreshId(live.Keys);
      live := live[id := LiveJob(name, cronExpr)];
      return Ok(id);
    }

    method Update(id: int, name: string, cronExpr: string) returns (r: Result<int, CallError>)
      modifies this
      ensures log == old(log) + [UpdateCall(name, r.Ok?)]
      ensures r.Ok? <==> id in old(live) && !fails(|old(log)|)
      ensures r.Ok? ==> (r.value == id || r.value !in old(live))
                        && live == (old(live) - {id})[r.value := LiveJob(name, cronExpr)]
      ensures r.Err? ==> live == old(live)
    {
      var number := |log|;
      log := log + [UpdateCall(name, id in live && !fails(number))];
      if id !in live {
        return Err(NotFound);
      }
      if fails(number) {
        return Err(CallFailed);
      }
      live := live[id := LiveJob(name, cronExpr)];
      assert live == (old(live) - {id})[id := LiveJob(name, cronExpr)];
      return Ok(id);
    }

    method RemoveJob(id: int) returns (r: Result<(), CallError>)
      modifies this
      ensures log == old(log) + [RemoveCall(id, r.Ok?)]
      ensures r.Ok? <==> id in old(live) && !fails(|old(log)|)
      ensures live == if r.Ok? then old(live) - {id} else old(live)
    {
      var number := |log|;
      log := log + [RemoveCall(id, id in live && !fails(number))];
      if id !in live {
        return Err(NotFound);
      }
      if fails(number) {
        return Err(CallFailed);
      }
      live := live - {id};
      return Ok(());
    }
  }

  // ---- what a list of calls did ----

  /** The names that calls tried to add or update. */
  ghost function CalledNames(calls: seq<Call>): set<string> {
    set c | c in calls && !c.RemoveCall? :: c.name
  }

  /** The names whose add or update failed. */
  ghost function FailedNames(calls: seq<Call>): set<string> {
    set c | c in calls && !c.RemoveCall? && !c.ok :: c.name
  }

  /** The ids that calls tried to remove. */
  ghost function Removals(calls: seq<Call>): set<int> {
    set c | c in calls && c.RemoveCall? :: c.id
  }

  /** The ids whose removal failed. */
  ghost function FailedRemovals(calls: seq<Call>): set<int> {
    set c | c in calls && c.RemoveCall? && !c.ok :: c.id
  }

  lemma NoCalls()
    ensures CalledNames([]) == {} && FailedNames([]) == {} && Removals([]) == {} && FailedRemovals([]) == {}
  {
  }

  lemma MoreCalls(a: seq<Call>, b: seq<Call>)
    ensures CalledNames(a + b) == CalledNames(a) + CalledNames(b)
    ensures FailedNames(a + b) == FailedNames(a) + FailedNames(b)
    ensures Removals(a + b) == Removals(a) + Removals(b)
    ensures FailedRemovals(a + b) == FailedRemovals(a) + FailedRemovals(b)
  {
  }

  lemma OneCall(c: Call)
    ensures CalledNames([c]) == if c.RemoveCall? then {} else {c.name}
    ensures FailedNames([c]) == if c.RemoveCall? || c.ok then {} else {c.name}
    ensures Removals([c]) == if c.RemoveCall? then {c.id} else {}
    ensures FailedRemovals([c]) == if c.RemoveCall? && !c.ok then {c.id} else {}
  {
    assert c in [c];
  }

  /** The calls from number `from` on went through exactly where they were not made to fail. */
  ghost predicate Honest(log: seq<Call>, from: nat, fails: nat -> bool) {
    forall k :: from <= k < |log| ==> (log[k].ok <==> !fails(k))
  }

  lemma HonestMore(log: seq<Call>, from: nat, fails: nat -> bool, c: Call)
    requires from <= |log| && Honest(log, from, fails) && (c.ok <==> !fails(|log|))
    ensures Honest(log + [c], from, fails)
  {
  }

  // ---- the specification ----

  /** `job_name` is the primary key of the configuration table. */
  ghost predicate UniqueNames(configs: seq<JobConfig>) {
    forall i, j :: 0 <= i < j < |configs| ==> configs[i].jobName != configs[j].jobName
  }

  predicate Wants(configs: seq<JobConfig>, name: string) {
    exists i :: 0 <= i < |configs| && configs[i].jobName == name && configs[i].enabled
  }

  /** The schedule that the configuration asks for, as far as jobs are available. */
  ghost function Wanted(configs: seq<JobConfig>, available: set<string>): map<string, string> {
    if configs == [] then map[] else
      var rest, last := Wanted(configs[..|configs| - 1], available), configs[|configs| - 1];
      if last.enabled && last.jobName in available then rest[last.jobName := last.cronExpr] else rest
  }

  ghost function Crons(reg: map<string, Registration>): map<string, string> {
    map n | n in reg :: reg[n].cronExpr
  }

  ghost predicate Agrees(reg: map<string, Registration>, wanted: map<string, string>, name: string) {
    if name in wanted then name in reg && reg[name].cronExpr == wanted[name] else name !in reg
  }

  /** The names that are scheduled otherwise than wanted. */
  ghost function Disagreements(reg: map<string, Registration>, wanted: map<string, string>): set<string> {
    set n | n in reg.Keys + wanted.Keys && !Agrees(reg, wanted, n)
  }

  ghost predicate SameEntry(was: map<string, Registration>, now: map<string, Registration>, name: string) {
    (name in was <==> name in now) && (name in was ==> was[name] == now[name])
  }

  /** One pass: only wanted names stay registered; a failed add or update leaves its entry as it was, and every other
      wanted name ends up with its schedule, untouched where it had it. */
  ghost predicate Pass(was: map<string, Registration>, now: map<string, Registration>, wanted: map<string, string>,
                       failed: set<string>) {
    && now.Keys <= wanted.Keys
    && (forall n :: n in wanted ==> if n in failed || Agrees(was, wanted, n) then SameEntry(was, now, n) else Agrees(now, wanted, n))
    && (forall n :: n in failed ==> n in wanted && !Agrees(was, wanted, n))
  }

  /** A pass never adds a disagreement, and leaves those of the failed names. */
  lemma PassShrinks(was: map<string, Registration>, now: map<string, Registration>, wanted: map<string, string>,
                    failed: set<string>)
    requires Pass(was, now, wanted, failed)
    ensures Disagreements(now, wanted) == failed && failed <= Disagreements(was, wanted)
    ensures failed == {} ==> Crons(now) == wanted
  {
    if failed == {} {
      assert forall n :: n in wanted ==> Agrees(now, wanted, n);
    }
  }

  /** Once the wanted schedule is reached, a pass changes nothing, and no call is left that could fail. */
  lemma PassKeeps(was: map<string, Registration>, now: map<string, Registration>, wanted: map<string, string>,
                  failed: set<string>)
    requires Pass(was, now, wanted, failed) && Crons(was) == wanted
    ensures now == was && failed == {}
  {
    assert forall n :: n in was <==> n in Crons(was);
    assert forall n :: n in wanted ==> Agrees(was, wanted, n) && SameEntry(was, now, n);
    assert failed == {};
  }

  /** A run of passes over a fixed configuration. */
  ghost predicate Passes(regs: seq<map<string, Registration>>, wanted: map<string, string>, failed: seq<set<string>>) {
    |regs| == |failed| + 1 && forall i :: 0 <= i < |failed| ==> Pass(regs[i], regs[i + 1], wanted, failed[i])
  }

  /** Over whole runs disagreements never come back, and after one pass without a failed add or update the schedule is
      the wanted one for good. */
  lemma {:induction false} PassesConverge(regs: seq<map<string, Registration>>, wanted: map<string, string>,
                                          failed: seq<set<string>>, i: nat, j: nat)
    requires Passes(regs, wanted, failed) && i <= j <= |failed|
    ensures Disagreements(regs[j], wanted) <= Disagreements(regs[i], wanted)
    ensures i < j && failed[i] == {} ==> Crons(regs[j]) == wanted && regs[j] == regs[i + 1]
    decreases j - i
  {
    hide Pass, Disagreements, Crons;
    if i < j {
      PassesConverge(regs, wanted, failed, i, j - 1);
      assert Pass(regs[j - 1], regs[j - 1 + 1], wanted, failed[j - 1]);
      PassShrinks(regs[j - 1], regs[j], wanted, failed[j - 1]);
      if failed[i] == {} && i < j - 1 {
        PassKeeps(regs[j - 1], regs[j], wanted, failed[j - 1]);
      }
    }
  }

  // ---- the second loop of a pass ----

  /** Where the second loop has got from `kept`, with `wanted` the schedule asked for so far. */
  ghost predicate Done(kept: map<string, Registration>, reg: map<string, Registration>, wanted: map<string, string>,
                       failed: set<string>) {
    && (forall n :: n in wanted ==> if n in failed || Agrees(kept, wanted, n) then SameEntry(kept, reg, n) else Agrees(reg, wanted, n))
    && (forall n :: n !in wanted ==> SameEntry(kept, reg, n))
    && (forall n :: n in failed ==> n in wanted && !Agrees(kept, wanted, n))
  }

  /** The wanted names that a pass has to call for. */
  ghost function Due(was: map<string, Registration>, wanted: map<string, string>): set<string> {
    set n | n in wanted && !Agrees(was, wanted, n)
  }

  /** The live jobs that a pass has to remove. */
  ghost function DueRemovals(was: map<string, Registration>, wanted: map<string, string>): set<int> {
    set n | n in was && n !in wanted :: was[n].gocronId
  }

  lemma DoneAtFirst(kept: map<string, Registration>, cs: seq<JobConfig>, available: set<string>)
    ensures Done(kept, kept, Wanted(cs[..0], available), {}) && Due(kept, Wanted(cs[..0], available)) == {}
  {
  }

  /** The wanted schedule: exactly the enabled names of available jobs... */
  lemma {:induction false} WantedMeans(cs: seq<JobConfig>, available: set<string>, name: string)
    ensures name in Wanted(cs, available) <==> name in available && Wants(cs, name)
  {
    if cs != [] {
      var front := cs[..|cs| - 1];
      WantedMeans(front, available, name);
      if i :| 0 <= i < |cs| && cs[i].jobName == name && cs[i].enabled && i < |front| {
        assert front[i] == cs[i];
      }
    }
  }

  /** ...each with the cron expression of its configuration. */
  lemma {:induction false} WantedCron(cs: seq<JobConfig>, available: set<string>, i: nat)
    requires UniqueNames(cs) && i < |cs| && cs[i].enabled && cs[i].jobName in available
    ensures var w := Wanted(cs, available); cs[i].jobName in w && w[cs[i].jobName] == cs[i].cronExpr
  {
    var n := |cs| - 1;
    if i < n {
      WantedCron(cs[..n], available, i);
      assert cs[n].jobName != cs[i].jobName;
    }
  }

  lemma WantedStep(cs: seq<JobConfig>, i: nat, available: set<string>)
    requires i < |cs| && UniqueNames(cs)
    ensures var w := Wanted(cs[..i], available);
            && cs[i].jobName !in w
            && Wanted(cs[..i + 1], available) ==
               if cs[i].enabled && cs[i].jobName in available then w[cs[i].jobName := cs[i].cronExpr] else w
  {
    WantedMeans(cs[..i], available, cs[i].jobName);
    assert cs[..i + 1][..i] == cs[..i];
  }

  lemma DoneStep(kept: map<string, Registration>, before: map<string, Registration>, now: map<string, Registration>,
                 w: map<string, string>, cfg: JobConfig, failed: set<string>, ok: bool)
    requires Done(kept, before, w, failed) && cfg.jobName !in w
    requires var n := cfg.jobName;
             var had := n in before && before[n].cronExpr == cfg.cronExpr;
             && (had ==> ok)
             && (had || !ok ==> now == before)
             && (ok ==> n in now && now[n].cronExpr == cfg.cronExpr && now == before[n := now[n]])
    ensures Done(kept, now, w[cfg.jobName := cfg.cronExpr], if ok then failed else failed + {cfg.jobName})
  {
    var name, v := cfg.jobName, w[cfg.jobName := cfg.cronExpr];
    assert SameEntry(kept, before, name);
    forall n | n in w ensures Agrees(kept, v, n) == Agrees(kept, w, n) && Agrees(now, v, n) == Agrees(before, w, n) {
    }
  }

  lemma DueStep(kept: map<string, Registration>, before: map<string, Registration>, w: map<string, string>,
                cfg: JobConfig, failed: set<string>)
    requires Done(kept, before, w, failed) && cfg.jobName !in w
    ensures cfg.jobName !in Due(kept, w)
    ensures var n := cfg.jobName;
            Due(kept, w[n := cfg.cronExpr]) ==
            Due(kept, w) + if n in before && before[n].cronExpr == cfg.cronExpr then {} else {n}
  {
    var name, v := cfg.jobName, w[cfg.jobName := cfg.cronExpr];
    assert SameEntry(kept, before, name);
    forall n ensures n in Due(kept, v) <==> n in Due(kept, w) || (n == name && !Agrees(kept, v, name)) {
      if n in w {
        assert Agrees(kept, v, n) == Agrees(kept, w, n);
      }
    }
  }

  lemma DoneIsPass(was: map<string, Registration>, kept: map<string, Registration>, now: map<string, Registration>,
                   cs: seq<JobConfig>, available: set<string>, failed: set<string>)
    requires Done(kept, now, Wanted(cs, available), failed) && was.Keys <= available
    requires forall n :: n in kept <==> n in was && Wants(cs, n)
    requires forall n :: n in kept ==> kept[n] == was[n]
    ensures Pass(was, now, Wanted(cs, available), failed)
    ensures Due(kept, Wanted(cs, available)) == Due(was, Wanted(cs, available))
    ensures forall n :: n in was ==> (Wants(cs, n) <==> n in Wanted(cs, available))
  {
    hide Wanted, Wants;
    var w := Wanted(cs, available);
    forall n ensures n in w <==> n in available && Wants(cs, n) {
      WantedMeans(cs, available, n);
    }
    forall n | n in w ensures SameEntry(was, kept, n) && Agrees(was, w, n) == Agrees(kept, w, n) {
    }
  }

  // ---- live jobs ----

  ghost function Ids(reg: map<string, Registration>): set<int> {
    set n | n in reg :: reg[n].gocronId
  }

  /** Every registration stands for its own live job. */
  ghost predicate Tracks(reg: map<string, Registration>, live: map<int, LiveJob>, syncId: int) {
    && syncId in live
    && (forall n :: n in reg ==> reg[n].gocronId in live && reg[n].gocronId != syncId
                                 && live[reg[n].gocronId] == LiveJob(n, reg[n].cronExpr))
  }

  /** Live jobs that nothing registered stands for. */
  ghost function Orphans(reg: map<string, Registration>, live: map<int, LiveJob>, syncId: int): set<int> {
    live.Keys - Ids(reg) - {syncId}
  }

  lemma IdsWithout(reg: map<string, Registration>, live: map<int, LiveJob>, syncId: int, name: string)
    requires Tracks(reg, live, syncId) && name in reg
    ensures Ids(reg) == Ids(reg - {name}) + {reg[name].gocronId} && reg[name].gocronId !in Ids(reg - {name})
  {
    var less := reg - {name};
    forall id ensures id in Ids(reg) <==> id in Ids(less) || id == reg[name].gocronId {
      if id in Ids(reg) && id != reg[name].gocronId {
        var n :| n in reg && reg[n].gocronId == id;
        assert n in less && less[n].gocronId == id;
      }
      if id in Ids(less) {
        var n :| n in less && less[n].gocronId == id;
        assert n in reg && reg[n].gocronId == id;
      }
    }
  }

  lemma Removed(reg: map<string, Registration>, live: map<int, LiveJob>, syncId: int, name: string, ok: bool)
    requires Tracks(reg, live, syncId) && name in reg
    ensures var id := reg[name].gocronId;
            var less, left := reg - {name}, if ok then live - {id} else live;
            && Tracks(less, left, syncId)
            && Orphans(less, left, syncId) == Orphans(reg, live, syncId) + if ok then {} else {id}
  {
    IdsWithout(reg, live, syncId, name);
    hide Ids;
    var id := reg[name].gocronId;
    forall n | n in reg && n != name ensures reg[n].gocronId != id {
    }
  }

  lemma Registered(reg: map<string, Registration>, live: map<int, LiveJob>, syncId: int, name: string, id: int, cron: string)
    requires Tracks(reg, live, syncId) && name !in reg && id !in live
    ensures var more, now := reg[name := Registration(id, cron)], live[id := LiveJob(name, cron)];
            Tracks(more, now, syncId) && Orphans(more, now, syncId) == Orphans(reg, live, syncId)
  {
    var more := reg[name := Registration(id, cron)];
    var now := live[id := LiveJob(name, cron)];
    assert more - {name} == reg;
    assert Tracks(more, now, syncId);
    IdsWithout(more, now, syncId, name);
  }

  lemma Rescheduled(reg: map<string, Registration>, live: map<int, LiveJob>, syncId: int, name: string, id: int, cron: string)
    requires Tracks(reg, live, syncId) && name in reg && (id == reg[name].gocronId || id !in live)
    ensures var was := reg[name].gocronId;
            var more, now := reg[name := Registration(id, cron)], (live - {was})[id := LiveJob(name, cron)];
            Tracks(more, now, syncId) && Orphans(more, now, syncId) == Orphans(reg, live, syncId)
  {
    var was := reg[name].gocronId;
    Removed(reg, live, syncId, name, true);
    Registered(reg - {name}, live - {was}, syncId, name, id, cron);
    assert (reg - {name})[name := Registration(id, cron)] == reg[name := Registration(id, cron)];
  }

  lemma TracksLive(reg: map<string, Registration>, live: map<int, LiveJob>, syncId: int, name: string)
    requires Tracks(reg, live, syncId) && name in reg
    ensures reg[name].gocronId in live && reg[name].gocronId in Ids(reg) && reg[name].gocronId != syncId
    ensures reg[name].gocronId !in Orphans(reg, live, syncId)
  {
  }

  lemma OrphansAreLive(reg: map<string, Registration>, live: map<int, LiveJob>, syncId: int)
    ensures Orphans(reg, live, syncId) <= live.Keys
  {
  }

  lemma NothingRegistered(live: map<int, LiveJob>, syncId: int)
    requires live.Keys == {syncId}
    ensures Tracks(map[], live, syncId) && Orphans(map[], live, syncId) == {}
  {
  }

  // ---- the loops of a pass, on values ----

  ghost function Unwanted(reg: map<string, Registration>, configs: seq<JobConfig>): set<string> {
    set n | n in reg && !Wants(configs, n)
  }

  /** After the calls `made` on top of `start` the registrations of `gone` are gone, one removal having been made for the
      live job of each. */
  ghost predicate Removing(was: map<string, Registration>, reg: map<string, Registration>, gone: set<string>,
                           start: seq<Call>, made: seq<Call>, fails: nat -> bool) {
    && gone <= was.Keys && reg == was - gone
    && Honest(start + made, |start|, fails)
    && CalledNames(made) == {} && Removals(made) == IdsOf(was, gone) && |made| == |gone|
  }

  lemma NothingRemoved(was: map<string, Registration>, start: seq<Call>, live: map<int, LiveJob>, fails: nat -> bool)
    ensures Removing(was, was, {}, start, [], fails) && Fewer(live, live)
  {
    NoCalls();
    assert IdsOf(was, {}) == {} && was - {} == was;
  }

  lemma RemovingStep(was: map<string, Registration>, reg: map<string, Registration>, gone: set<string>,
                     start: seq<Call>, made: seq<Call>, fails: nat -> bool, name: string, call: Call)
    requires Removing(was, reg, gone, start, made, fails) && name in reg
    requires call == RemoveCall(reg[name].gocronId, !fails(|start + made|))
    ensures Removing(was, reg - {name}, gone + {name}, start, made + [call], fails)
  {
    hide CalledNames, Removals, IdsOf, Honest;
    OneCall(call);
    MoreCalls(made, [call]);
    IdsOfMore(was, gone, name);
    HonestMore(start + made, |start|, fails, call);
    assert start + made + [call] == start + (made + [call]);
    assert reg - {name} == was - (gone + {name});
  }

  /** After the calls `made` the second loop has got as far as `wanted`. */
  ghost predicate Scheduling(kept: map<string, Registration>, reg: map<string, Registration>, wanted: map<string, string>,
                             start: seq<Call>, made: seq<Call>, fails: nat -> bool) {
    && Honest(start + made, |start|, fails)
    && Done(kept, reg, wanted, FailedNames(made))
    && CalledNames(made) == Due(kept, wanted) && |made| == |Due(kept, wanted)|
    && Removals(made) == {} && FailedRemovals(made) == {}
  }

  lemma NothingScheduled(kept: map<string, Registration>, cs: seq<JobConfig>, available: set<string>, start: seq<Call>,
                         fails: nat -> bool, orphans: set<int>, live: map<int, LiveJob>)
    ensures Scheduling(kept, kept, Wanted(cs[..0], available), start, [], fails) && OrphansStay(orphans, live, live)
  {
    NoCalls();
    DoneAtFirst(kept, cs, available);
  }

  lemma SchedulingStep(kept: map<string, Registration>, before: map<string, Registration>, now: map<string, Registration>,
                       w: map<string, string>, cfg: JobConfig, start: seq<Call>, made: seq<Call>, fails: nat -> bool,
                       ok: bool, calls: seq<Call>)
    requires Scheduling(kept, before, w, start, made, fails) && cfg.jobName !in w
    requires Scheduled(before, now, cfg, calls, ok, !fails(|start + made|))
    ensures Scheduling(kept, now, w[cfg.jobName := cfg.cronExpr], start, made + calls, fails)
  {
    hide Honest, Done, Due, CalledNames, FailedNames, Removals, FailedRemovals;
    DoneStep(kept, before, now, w, cfg, FailedNames(made), ok);
    DueStep(kept, before, w, cfg, FailedNames(made));
    if calls == [] {
      assert made + calls == made;
    } else {
      CallMade(start, made, fails, calls);
      CallCounts(made, calls, cfg.jobName, ok, Due(kept, w));
    }
  }

  /** What one add or update does to what the calls did. */
  lemma CallCounts(made: seq<Call>, calls: seq<Call>, name: string, ok: bool, due: set<string>)
    requires |calls| == 1 && calls == [calls[0]] && !calls[0].RemoveCall? && calls[0].name == name && calls[0].ok == ok
    requires CalledNames(made) == due && |made| == |due| && Removals(made) == {} && FailedRemovals(made) == {}
    requires name !in due
    ensures CalledNames(made + calls) == due + {name} && |made + calls| == |due + {name}|
    ensures FailedNames(made + calls) == if ok then FailedNames(made) else FailedNames(made) + {name}
    ensures Removals(made + calls) == {} && FailedRemovals(made + calls) == {}
  {
    hide CalledNames, FailedNames, Removals, FailedRemovals;
    MoreCalls(made, calls);
    OneCall(calls[0]);
  }

  lemma CallMade(start: seq<Call>, made: seq<Call>, fails: nat -> bool, calls: seq<Call>)
    requires |calls| == 1 && Honest(start + made, |start|, fails) && (calls[0].ok <==> !fails(|start + made|))
    ensures calls == [calls[0]] && Honest(start + (made + calls), |start|, fails)
  {
    hide Honest;
    HonestMore(start + made, |start|, fails, calls[0]);
    assert calls == [calls[0]];
    assert start + made + calls == start + (made + calls);
  }

  /** One step of the second loop: no call if the schedule is right, otherwise one, which `works` or changes nothing. */
  ghost predicate Scheduled(before: map<string, Registration>, now: map<string, Registration>, cfg: JobConfig,
                            calls: seq<Call>, ok: bool, works: bool) {
    var n := cfg.jobName;
    var had := n in before && before[n].cronExpr == cfg.cronExpr;
    && (if had then calls == [] && ok
        else |calls| == 1 && !calls[0].RemoveCall? && calls[0].name == n && calls[0].ok == ok == works)
    && (had || !ok ==> now == before)
    && (ok ==> n in now && now[n].cronExpr == cfg.cronExpr && now == before[n := now[n]])
  }

  lemma HonestJoin(start: seq<Call>, a: seq<Call>, b: seq<Call>, fails: nat -> bool)
    requires Honest(start + a, |start|, fails) && Honest(start + a + b, |start + a|, fails)
    ensures Honest(start + (a + b), |start|, fails)
  {
    var log := start + (a + b);
    forall k | |start| <= k < |log| ensures log[k].ok <==> !fails(k) {
      assert log == start + a + b;
      if k < |start + a| {
        assert log[k] == (start + a)[k];
      } else {
        assert log[k] == (start + a + b)[k];
      }
    }
  }

  lemma NoNewCalls(log: seq<Call>, fails: nat -> bool, orphans: set<int>, live: map<int, LiveJob>)
    ensures Honest(log, |log|, fails) && OrphansStay(orphans, live, live)
  {
  }

  /** A pass with its calls: one for every name not scheduled as wanted, and one removal for every registration not
      wanted. The names left as they were are those whose own call failed. */
  ghost predicate PassWith(was: map<string, Registration>, now: map<string, Registration>, wanted: map<string, string>,
                           made: seq<Call>) {
    && Pass(was, now, wanted, FailedNames(made))
    && CalledNames(made) == Due(was, wanted)
    && Removals(made) == DueRemovals(was, wanted)
    && |made| == |Due(was, wanted)| + |was.Keys - wanted.Keys|
  }

  /** What both loops together do. */
  lemma BothLoops(was: map<string, Registration>, kept: map<string, Registration>, now: map<string, Registration>,
                  cs: seq<JobConfig>, available: set<string>, start: seq<Call>, removing: seq<Call>, adding: seq<Call>,
                  fails: nat -> bool)
    requires was.Keys <= available
    requires Removing(was, kept, Unwanted(was, cs), start, removing, fails)
    requires Scheduling(kept, now, Wanted(cs, available), start + removing, adding, fails)
    ensures var w, made := Wanted(cs, available), removing + adding;
            && Honest(start + made, |start|, fails)
            && PassWith(was, now, w, made)
    ensures FailedRemovals(adding) == {}
  {
    hide Wants, Wanted, Done, Due, Pass, DueRemovals, CalledNames, FailedNames, Removals, FailedRemovals, IdsOf;
    hide Honest, Unwanted;
    var w := Wanted(cs, available);
    MoreCalls(removing, adding);
    FailedAreCalled(removing);
    HonestJoin(start, removing, adding, fails);
    KeptMeans(was, kept, cs);
    DoneIsPass(was, kept, now, cs, available, FailedNames(adding));
    RemovalsDue(was, cs, w);
    NoneOf(FailedNames(removing), FailedNames(adding));
    NoneOf(CalledNames(removing), CalledNames(adding));
    NoneOf(Removals(adding), Removals(removing));
  }

  lemma NoneOf<T>(none: set<T>, some: set<T>)
    ensures none == {} ==> none + some == some == some + none
  {
  }

  lemma KeptMeans(was: map<string, Registration>, kept: map<string, Registration>, cs: seq<JobConfig>)
    requires kept == was - Unwanted(was, cs)
    ensures forall n :: n in kept <==> n in was && Wants(cs, n)
    ensures forall n :: n in kept ==> kept[n] == was[n]
  {
    hide Wants;
  }

  // ---- a pass, said of the configuration ----

  /** The job is enabled with this schedule, and available. */
  ghost predicate Asked(cs: seq<JobConfig>, available: set<string>, name: string, cron: string) {
    exists i :: 0 <= i < |cs| && cs[i].jobName == name && cs[i].enabled && cs[i].cronExpr == cron && name in available
  }

  ghost predicate AskedFor(cs: seq<JobConfig>, available: set<string>, name: string) {
    exists i :: 0 <= i < |cs| && cs[i].jobName == name && cs[i].enabled && name in available
  }

  ghost predicate ScheduledAs(reg: map<string, Registration>, name: string, cron: string) {
    name in reg && reg[name].cronExpr == cron
  }

  /** What a pass leaves: nothing is registered that is not asked for; what is asked for is registered with its schedule and
      live under it unless its own call failed, and is as it was if that call failed or the schedule was right before. */
  ghost predicate Reconciles(was: map<string, Registration>, now: map<string, Registration>, live: map<int, LiveJob>,
                             cs: seq<JobConfig>, available: set<string>, failed: set<string>)
  {
    && (forall n :: n in now ==> AskedFor(cs, available, n))
    && (forall n, cron :: Asked(cs, available, n, cron) ==>
          if n in failed || ScheduledAs(was, n, cron) then SameEntry(was, now, n) else ScheduledAs(now, n, cron))
    && (forall n, cron :: Asked(cs, available, n, cron) && n !in failed ==> LiveAs(now, live, n, cron))
  }

  ghost predicate LiveAs(reg: map<string, Registration>, live: map<int, LiveJob>, name: string, cron: string) {
    ScheduledAs(reg, name, cron) && reg[name].gocronId in live && live[reg[name].gocronId] == LiveJob(name, cron)
  }

  /** Which calls it makes: an add or an update for what is asked for and was not scheduled so, and a removal for the job of
      every registration no longer asked for. */
  ghost predicate CallsFor(was: map<string, Registration>, cs: seq<JobConfig>, available: set<string>, made: seq<Call>) {
    && (forall n :: n in CalledNames(made) ==> AskedFor(cs, available, n))
    && (forall n, cron :: Asked(cs, available, n, cron) ==> (n in CalledNames(made) <==> !ScheduledAs(was, n, cron)))
    && (forall id :: id in Removals(made) <==> exists n :: n in was && !AskedFor(cs, available, n) && was[n].gocronId == id)
  }

  lemma WantedSays(cs: seq<JobConfig>, available: set<string>, name: string)
    requires UniqueNames(cs)
    ensures name in Wanted(cs, available) <==> AskedFor(cs, available, name)
    ensures forall cron :: Asked(cs, available, name, cron) <==>
              name in Wanted(cs, available) && Wanted(cs, available)[name] == cron
  {
    hide Wanted;
    WantedMeans(cs, available, name);
    forall i | 0 <= i < |cs| && cs[i].enabled && cs[i].jobName in available
      ensures cs[i].jobName in Wanted(cs, available) && Wanted(cs, available)[cs[i].jobName] == cs[i].cronExpr
    {
      WantedCron(cs, available, i);
    }
  }

  lemma PassReconciles(was: map<string, Registration>, now: map<string, Registration>, live: map<int, LiveJob>, syncId: int,
                       cs: seq<JobConfig>, available: set<string>, failed: set<string>)
    requires UniqueNames(cs) && Tracks(now, live, syncId) && Pass(was, now, Wanted(cs, available), failed)
    ensures Reconciles(was, now, live, cs, available, failed)
  {
    hide Wanted, UniqueNames, Asked, AskedFor;
    var w := Wanted(cs, available);
    forall n | n in now ensures AskedFor(cs, available, n) {
      WantedSays(cs, available, n);
    }
    forall n, cron | Asked(cs, available, n, cron)
      ensures if n in failed || ScheduledAs(was, n, cron) then SameEntry(was, now, n) else ScheduledAs(now, n, cron)
      ensures n !in failed ==> LiveAs(now, live, n, cron)
    {
      WantedSays(cs, available, n);
      assert n in w && w[n] == cron;
    }
  }

  lemma PassSays(was: map<string, Registration>, now: map<string, Registration>, wanted: map<string, string>, made: seq<Call>)
    requires PassWith(was, now, wanted, made)
    ensures Pass(was, now, wanted, FailedNames(made))
  {
  }

  lemma PassCalls(was: map<string, Registration>, now: map<string, Registration>, cs: seq<JobConfig>, available: set<string>,
                  made: seq<Call>)
    requires UniqueNames(cs) && PassWith(was, now, Wanted(cs, available), made)
    ensures CallsFor(was, cs, available, made)
  {
    hide Wanted, UniqueNames, Asked, AskedFor, Pass, CalledNames, FailedNames, Removals;
    var w := Wanted(cs, available);
    forall n
      ensures n in w <==> AskedFor(cs, available, n)
      ensures forall cron :: Asked(cs, available, n, cron) ==> n in w && w[n] == cron
    {
      WantedSays(cs, available, n);
    }
  }

  // ---- the service ----

  class Service {
    const sched: Gocron
    const syncId: int
    const syncCron: string
    var registered: map<string, Registration>
    var available: set<string>

    /** Registered jobs are available, each has its live job, the config sync job has its own with the schedule it was given,
        and the live jobs that nothing registered stands for are
        exactly those whose removal failed at some time. */
    ghost predicate Valid()
      reads this, sched
    {
      && registered.Keys <= available && Tracks(registered, sched.live, syncId)
      && syncId in sched.live && sched.live[syncId] == LiveJob(CONFIG_SYNC_JOB, syncCron)
      && OrphanJobs() == FailedRemovals(sched.log)
    }

    ghost function OrphanJobs(): set<int>
      reads this, sched
    {
      Orphans(registered, sched.live, syncId)
    }

    lemma LiveJobOf(name: string)
      requires Valid() && name in registered
      ensures var id := registered[name].gocronId;
              id in sched.live && sched.live[id].name == name && id !in OrphanJobs()
    {
    }

    lemma OrphanIsLive(id: int, was: map<int, LiveJob>)
      requires Valid() && id in OrphanJobs() && OrphansStay(OrphanJobs(), was, sched.live) && id in was
      ensures id in sched.live && sched.live[id] == was[id]
    {
    }

    lemma WhatValidSays()
      requires Valid()
      ensures registered.Keys <= available && Tracks(registered, sched.live, syncId)
      ensures OrphanJobs() == Orphans(registered, sched.live, syncId) == FailedRemovals(sched.log)
      ensures OrphanJobs() <= sched.live.Keys
    {
    }

    /** The service that `New` returns, once the config sync job is scheduled under `syncId`. */
    constructor (sched: Gocron, syncId: int, syncCron: string)
      requires sched.live == map[syncId := LiveJob(CONFIG_SYNC_JOB, syncCron)] && FailedRemovals(sched.log) == {}
      ensures this.sched == sched && this.syncId == syncId && this.syncCron == syncCron && Valid()
      ensures registered == map[] && available == {}
    {
      this.sched, this.syncId, this.syncCron, registered, available := sched, syncId, syncCron, map[], {};
      new;
      NothingRegistered(sched.live, syncId);
    }

    /** `AddJob`. Nothing is scheduled until the next sync. */
    method AddJob(name: string)
      requires Valid()
      modifies this
      ensures Valid() && registered == old(registered) && available == old(available) + {name}
    {
      available := available + {name};
    }

    /** The body of the first loop: the live job is removed, and the registration is dropped even when that fails. */
    method Remove(name: string) returns (ghost call: Call)
      requires Valid() && name in registered
      modifies this, sched
      ensures Valid() && available == old(available) && registered == old(registered) - {name}
      ensures sched.log == old(sched.log) + [call]
      ensures call == RemoveCall(old(registered)[name].gocronId, !sched.fails(|old(sched.log)|))
      ensures OrphanJobs() == old(OrphanJobs()) + FailedRemovals([call])
      ensures Fewer(sched.live, old(sched.live))
    {
      hide Orphans, Tracks, FailedRemovals;
      ghost var live := sched.live;
      TracksLive(registered, live, syncId, name);
      var removed := sched.RemoveJob(registered[name].gocronId);
      call := RemoveCall(registered[name].gocronId, removed.Ok?);
      Removed(registered, live, syncId, name, removed.Ok?);
      OneCall(call);
      MoreCalls(old(sched.log), [call]);
      registered := registered - {name};
    }

    /** The first loop of `Sync`: every unwanted registration goes, with one removal for its live job. */
    method RemoveUnwanted(configs: seq<JobConfig>) returns (ghost made: seq<Call>)
      requires Valid()
      modifies this, sched
      ensures Valid() && available == old(available) && Fewer(sched.live, old(sched.live))
      ensures sched.log == old(sched.log) + made
      ensures Removing(old(registered), registered, Unwanted(old(registered), configs), old(sched.log), made, sched.fails)
    {
      hide Valid, Removing, Fewer, Wants;
      ghost var was, start, live := registered, sched.log, sched.live;
      made := [];
      ghost var gone: set<string> := {};
      NothingRemoved(was, start, live, sched.fails);
      var names := registered.Keys;
      while names != {}
        invariant Valid() && available == old(available) && names <= was.Keys
        invariant forall n :: n in gone <==> n in was && n !in names && !Wants(configs, n)
        invariant registered == was - gone && sched.log == start + made
        invariant Removing(was, registered, gone, start, made, sched.fails) && Fewer(sched.live, live)
        decreases names
      {
        var name :| name in names;
        names := names - {name};
        if Wants(configs, name) {
          continue;
        }
        ghost var reg, mid := registered, sched.live;
        ghost var call := Remove(name);
        FewerStill(sched.live, mid, live);
        RemovingStep(was, reg, gone, start, made, sched.fails, name, call);
        made, gone := made + [call], gone + {name};
      }
      assert gone == Unwanted(was, configs);
    }

    /** A changed cron expression: the live job is updated in place. */
    method Reschedule(cfg: JobConfig) returns (ghost ok: bool, ghost calls: seq<Call>)
      requires Valid() && cfg.jobName in registered && registered[cfg.jobName].cronExpr != cfg.cronExpr
      modifies this, sched
      ensures Valid() && available == old(available) && OrphanJobs() == old(OrphanJobs())
      ensures OrphansStay(old(OrphanJobs()), old(sched.live), sched.live)
      ensures sched.log == old(sched.log) + calls
      ensures Scheduled(old(registered), registered, cfg, calls, ok, !sched.fails(|old(sched.log)|))
    {
      hide Orphans, Tracks, FailedRemovals;
      var name := cfg.jobName;
      ghost var live := sched.live;
      OrphansAreLive(registered, live, syncId);
      TracksLive(registered, live, syncId, name);
      var updated := sched.Update(registered[name].gocronId, name, cfg.cronExpr);
      ok, calls := updated.Ok?, [UpdateCall(name, updated.Ok?)];
      OneCall(calls[0]);
      MoreCalls(old(sched.log), calls);
      if updated.Ok? {
        Rescheduled(registered, live, syncId, name, updated.value, cfg.cronExpr);
        registered := registered[name := Registration(updated.value, cfg.cronExpr)];
      }
    }

    /** A new job. */
    method Register(cfg: JobConfig) returns (ghost ok: bool, ghost calls: seq<Call>)
      requires Valid() && cfg.jobName in available && cfg.jobName !in registered
      modifies this, sched
      ensures Valid() && available == old(available) && OrphanJobs() == old(OrphanJobs())
      ensures OrphansStay(old(OrphanJobs()), old(sched.live), sched.live)
      ensures sched.log == old(sched.log) + calls
      ensures Scheduled(old(registered), registered, cfg, calls, ok, !sched.fails(|old(sched.log)|))
    {
      hide Orphans, Tracks, FailedRemovals;
      var name := cfg.jobName;
      ghost var live := sched.live;
      OrphansAreLive(registered, live, syncId);
      var added := sched.NewJob(name, cfg.cronExpr);
      ok, calls := added.Ok?, [AddCall(name, added.Ok?)];
      OneCall(calls[0]);
      MoreCalls(old(sched.log), calls);
      if added.Ok? {
        Registered(registered, live, syncId, name, added.value, cfg.cronExpr);
        registered := registered[name := Registration(added.value, cfg.cronExpr)];
      }
    }

    /** The body of the second loop, for an enabled and available job. */
    method Schedule(cfg: JobConfig) returns (ghost ok: bool, ghost calls: seq<Call>)
      requires Valid() && cfg.jobName in available
      modifies this, sched
      ensures Valid() && available == old(available) && OrphanJobs() == old(OrphanJobs())
      ensures OrphansStay(old(OrphanJobs()), old(sched.live), sched.live)
      ensures sched.log == old(sched.log) + calls
      ensures Scheduled(old(registered), registered, cfg, calls, ok, !sched.fails(|old(sched.log)|))
    {
      hide Valid, OrphanJobs;
      if cfg.jobName !in registered {
        ok, calls := Register(cfg);
      } else if registered[cfg.jobName].cronExpr != cfg.cronExpr {
        ok, calls := Reschedule(cfg);
      } else {
        ok, calls := true, [];
      }
    }

    /** The second loop of `Sync`: one call for every wanted name that is not scheduled as wanted, and those whose call
        fails stay as they are. */
    method ScheduleWanted(cs: seq<JobConfig>) returns (ghost made: seq<Call>)
      requires Valid() && UniqueNames(cs)
      modifies this, sched
      ensures Valid() && available == old(available)
      ensures OrphansStay(old(OrphanJobs()), old(sched.live), sched.live)
      ensures sched.log == old(sched.log) + made
      ensures Scheduling(old(registered), registered, Wanted(cs, available), old(sched.log), made, sched.fails)
    {
      hide Valid, OrphanJobs, Wanted, UniqueNames, Scheduling, OrphansStay;
      ghost var kept, start, live, orphans := registered, sched.log, sched.live, OrphanJobs();
      made := [];
      NothingScheduled(kept, cs, available, start, sched.fails, orphans, live);
      for i := 0 to |cs|
        invariant Valid() && available == old(available) && OrphanJobs() == orphans && sched.log == start + made
        invariant Scheduling(kept, registered, Wanted(cs[..i], available), start, made, sched.fails)
        invariant OrphansStay(orphans, live, sched.live)
      {
        ghost var before, mid := registered, sched.live;
        WantedStep(cs, i, available);
        if !cs[i].enabled || cs[i].jobName !in available {
          continue;
        }
        ghost var ok, calls := Schedule(cs[i]);
        SchedulingStep(kept, before, registered, Wanted(cs[..i], available), cs[i], start, made, sched.fails, ok, calls);
        StillThere(orphans, live, mid, sched.live);
        made := made + calls;
      }
      assert cs[..|cs|] == cs;
    }

    /** `Sync`. With `made` the calls of the pass: the schedule moves towards the wanted one except for the names whose own
        add or update failed; calls go to exactly the names not scheduled as wanted and to the live jobs of the
        registrations not wanted; and the jobs left live without a registration are exactly those whose removal failed, on
        top of the earlier ones, which stay. */
    method Sync(configs: Option<seq<JobConfig>>) returns (r: Result<(), SyncError>, ghost made: seq<Call>)
      requires Valid() && (configs.Some? ==> UniqueNames(configs.value))
      modifies this, sched
      ensures Valid() && available == old(available)
      ensures r.Ok? <==> configs.Some?
      ensures r.Err? ==> registered == old(registered) && sched.live == old(sched.live) && made == []
      ensures sched.log == old(sched.log) + made && Honest(sched.log, |old(sched.log)|, sched.fails)
      ensures r.Ok? ==> PassWith(old(registered), registered, Wanted(configs.value, available), made)
      ensures r.Ok? ==> Reconciles(old(registered), registered, sched.live, configs.value, available, FailedNames(made))
      ensures r.Ok? ==> CallsFor(old(registered), configs.value, available, made)
      ensures r.Ok? && Crons(old(registered)) == Wanted(configs.value, available) ==>
                registered == old(registered) && made == []
      ensures OrphanJobs() == old(OrphanJobs()) + FailedRemovals(made) && old(OrphanJobs()) !! FailedRemovals(made)
      ensures OrphansStay(OrphanJobs(), old(sched.live), sched.live)
    {
      hide Valid, OrphanJobs, Orphans, Tracks, Wanted, PassWith, Crons, UniqueNames, Removing, Scheduling;
      hide FailedRemovals, OrphansStay, Fewer, Unwanted, Honest, Reconciles, CallsFor;
      made := [];
      if configs.None? {
        NoNewCalls(sched.log, sched.fails, OrphanJobs(), sched.live);
        NoCalls();
        return Err(LoadFailed), made;
      }
      var cs := configs.value;
      ghost var was, start, live := registered, sched.log, sched.live;
      WhatValidSays();
      ghost var removing := RemoveUnwanted(cs);
      ghost var kept, middle, left := registered, sched.log, sched.live;
      WhatValidSays();
      FewerStay(OrphanJobs(), live, left);
      ghost var adding := ScheduleWanted(cs);
      WhatValidSays();
      made := removing + adding;
      assert middle == start + removing && start + made == middle + adding;
      BothLoops(was, kept, registered, cs, available, start, removing, adding, sched.fails);
      MoreCalls(middle, adding);
      assert FailedRemovals(middle) + {} == FailedRemovals(middle);
      MoreCalls(start, made);
      StillThere(OrphanJobs(), live, left, sched.live);
      RemovedApart(was, registered, live, syncId, Wanted(cs, available), made);
      NothingDue(was, registered, Wanted(cs, available), made);
      PassSays(was, registered, Wanted(cs, available), made);
      PassReconciles(was, registered, sched.live, syncId, cs, available, FailedNames(made));
      PassCalls(was, registered, cs, available, made);
      return Ok(()), made;
    }

    /** `EnabledJobs`: the registered names in any order, each once. */
    method EnabledJobs() returns (names: seq<string>)
      ensures forall n :: n in names <==> n in registered
      ensures |names| == |registered|
    {
      names := [];
      var left := registered.Keys;
      while left != {}
        invariant left <= registered.Keys && |names| + |left| == |registered.Keys|
        invariant forall n :: n in names <==> n in registered && n !in left
        decreases left
      {
        var name :| name in left;
        left := left - {name};
        names := names + [name];
      }
    }

    /** Of two live jobs with the same name (the config sync job aside) one is left over from a removal that failed. So as
        long as none has failed, no two live jobs have the same name. */
    lemma OneLiveJobPerName(a: int, b: int)
      requires Valid()
      requires a in sched.live && b in sched.live && a != syncId && b != syncId && a != b
      ensures sched.live[a].name == sched.live[b].name ==> a in OrphanJobs() || b in OrphanJobs()
      ensures FailedRemovals(sched.log) == {} ==> sched.live[a].name != sched.live[b].name
    {
      hide FailedRemovals;
      if a !in OrphanJobs() && b !in OrphanJobs() {
        var m := NameOf(registered, sched.live, syncId, a);
        var n := NameOf(registered, sched.live, syncId, b);
      }
    }

    /** How many live jobs have a name: one if it is registered, and one more for each of its removals that failed. */
    lemma LiveJobsNamed(name: string)
      requires Valid()
      ensures var named := set id | id in sched.live && id != syncId && sched.live[id].name == name;
              var left := set id | id in OrphanJobs() && id in sched.live && sched.live[id].name == name;
              |named| == |left| + if name in registered then 1 else 0
    {
      hide FailedRemovals;
      var named := set id | id in sched.live && id != syncId && sched.live[id].name == name;
      var left := set id | id in OrphanJobs() && id in sched.live && sched.live[id].name == name;
      forall id | id in named && id !in left ensures name in registered && id == registered[name].gocronId {
        var n := NameOf(registered, sched.live, syncId, id);
      }
      if name in registered {
        LiveJobOf(name);
        SameSet(named, left + {registered[name].gocronId});
      } else {
        SameSet(named, left);
      }
    }
  }

  /** Every registration has its own job, so a live job without orphans around is some registration's. */
  lemma NameOf(reg: map<string, Registration>, live: map<int, LiveJob>, syncId: int, id: int) returns (n: string)
    requires Tracks(reg, live, syncId) && id in live && id != syncId && id !in Orphans(reg, live, syncId)
    ensures n in reg && reg[n].gocronId == id && live[id].name == n
  {
    assert id in Ids(reg);
    n :| n in reg && reg[n].gocronId == id;
  }

  /** These live jobs are still live, as they were. */
  ghost predicate OrphansStay(orphans: set<int>, was: map<int, LiveJob>, now: map<int, LiveJob>) {
    forall id :: id in orphans && id in was ==> id in now && now[id] == was[id]
  }

  lemma StillThere(orphans: set<int>, was: map<int, LiveJob>, mid: map<int, LiveJob>, now: map<int, LiveJob>)
    requires OrphansStay(orphans, was, mid) && OrphansStay(orphans, mid, now)
    ensures OrphansStay(orphans, was, now)
  {
  }

  /** Some live jobs are gone, and nothing else has changed. */
  ghost predicate Fewer(now: map<int, LiveJob>, was: map<int, LiveJob>) {
    forall id :: id in now ==> id in was && now[id] == was[id]
  }

  lemma FewerStill(now: map<int, LiveJob>, mid: map<int, LiveJob>, was: map<int, LiveJob>)
    requires Fewer(now, mid) && Fewer(mid, was)
    ensures Fewer(now, was)
  {
  }

  lemma FewerStay(orphans: set<int>, was: map<int, LiveJob>, now: map<int, LiveJob>)
    requires Fewer(now, was) && orphans <= now.Keys
    ensures OrphansStay(orphans, was, now)
  {
  }

  ghost function IdsOf(reg: map<string, Registration>, names: set<string>): set<int> {
    set n | n in reg && n in names :: reg[n].gocronId
  }

  lemma IdsOfMore(reg: map<string, Registration>, names: set<string>, name: string)
    requires name in reg
    ensures IdsOf(reg, names + {name}) == IdsOf(reg, names) + {reg[name].gocronId}
  {
    var more := IdsOf(reg, names + {name});
    forall id | id in IdsOf(reg, names) ensures id in more {
      var n :| n in reg && n in names && reg[n].gocronId == id;
      assert n in names + {name};
    }
    assert name in names + {name};
  }

  lemma FailedAreCalled(calls: seq<Call>)
    ensures FailedNames(calls) <= CalledNames(calls) && FailedRemovals(calls) <= Removals(calls)
  {
  }

  lemma RemovalsDue(was: map<string, Registration>, cs: seq<JobConfig>, wanted: map<string, string>)
    requires forall n :: n in was ==> (Wants(cs, n) <==> n in wanted)
    ensures IdsOf(was, Unwanted(was, cs)) == DueRemovals(was, wanted)
    ensures Unwanted(was, cs) == was.Keys - wanted.Keys
  {
    hide Wants;
    var removed := IdsOf(was, Unwanted(was, cs));
    forall id ensures id in removed <==> id in DueRemovals(was, wanted) {
    }
  }

  lemma RemovedApart(was: map<string, Registration>, now: map<string, Registration>, live: map<int, LiveJob>, syncId: int,
                     wanted: map<string, string>, made: seq<Call>)
    requires Tracks(was, live, syncId) && PassWith(was, now, wanted, made)
    ensures Orphans(was, live, syncId) !! FailedRemovals(made)
  {
    hide Removals, FailedRemovals, Pass, Due, CalledNames, FailedNames;
    FailedAreCalled(made);
    forall id | id in DueRemovals(was, wanted) ensures id in Ids(was) {
    }
  }

  /** A pass over the wanted schedule makes no call and changes nothing. */
  lemma NothingDue(was: map<string, Registration>, now: map<string, Registration>, wanted: map<string, string>, made: seq<Call>)
    requires PassWith(was, now, wanted, made)
    ensures Crons(was) == wanted ==> now == was && made == []
  {
    if Crons(was) == wanted {
      PassKeeps(was, now, wanted, FailedNames(made));
      assert forall n :: n in was <==> n in Crons(was);
      assert Due(was, wanted) == {} && was.Keys - wanted.Keys == {};
    }
  }

  /** `New`: the config sync job is the first call; without it there is no service. */
  method New(fails: nat -> bool, syncCron: string) returns (r: Option<Service>)
    ensures r.Some? <==> syncCron != "" && !fails(0)
    ensures r.Some? ==> var s := r.value;
              && fresh(s) && fresh(s.sched) && s.Valid()
              && s.registered == map[] && s.available == {} && s.OrphanJobs() == {}
              && s.sched.fails == fails && s.sched.log == [AddCall(CONFIG_SYNC_JOB, true)]
              && s.syncCron == syncCron && s.sched.live == map[s.syncId := LiveJob("worker-config-sync", syncCron)]
  {
    if syncCron == "" {
      return None;
    }
    var sched := new Gocron(fails);
    var job := sched.NewJob(CONFIG_SYNC_JOB, syncCron);
    if job.Err? {
      return None;
    }
    OneCall(AddCall(CONFIG_SYNC_JOB, true));
    assert sched.log == [AddCall(CONFIG_SYNC_JOB, true)];
    var s := new Service(sched, job.value, syncCron);
    return Some(s);
  }

  // ---- a removal that fails ----

  /** A job is taken out of the configuration and its removal fails: the next pass makes no call any more, and the job is
      live for good. */
  method DisableTwice(service: Service, name: string)
    requires service.Valid() && service.registered.Keys == {name} && service.sched.fails(|service.sched.log|)
    modifies service, service.sched
    ensures service.Valid() && service.registered == map[] && service.available == old(service.available)
    ensures |service.sched.log| == |old(service.sched.log)| + 1
    ensures var id := old(service.registered[name].gocronId);
            && service.OrphanJobs() == old(service.OrphanJobs()) + {id}
            && id in service.sched.live && service.sched.live[id].name == name
  {
    hide PassWith, Honest, FailedRemovals, OrphansStay;
    ghost var was, start, live := service.registered, service.sched.log, service.sched.live;
    ghost var id := was[name].gocronId;
    service.LiveJobOf(name);
    ghost var r, made := service.Sync(Some([]));
    FailedRemovalCall(was, service.registered, name, start, made, service.sched.fails);
    service.OrphanIsLive(id, live);
    ghost var middle := service.sched.live;
    r, made := service.Sync(Some([]));
    service.OrphanIsLive(id, middle);
    NoCalls();
  }

  /** The calls of a pass that has one registration to drop, when its removal fails. */
  lemma FailedRemovalCall(was: map<string, Registration>, now: map<string, Registration>, name: string,
                          start: seq<Call>, made: seq<Call>, fails: nat -> bool)
    requires was.Keys == {name} && fails(|start|)
    requires PassWith(was, now, Wanted([], {}), made) && Honest(start + made, |start|, fails)
    ensures now == map[] && made == [RemoveCall(was[name].gocronId, false)]
    ensures FailedRemovals(made) == {was[name].gocronId} && Crons(now) == Wanted([], {})
  {
    hide FailedRemovals, FailedNames;
    var wanted := Wanted([], {});
    assert Due(was, wanted) == {} && DueRemovals(was, wanted) == {was[name].gocronId};
    assert |was.Keys - wanted.Keys| == 1 by {
      assert was.Keys - wanted.Keys == {name};
    }
    assert made == [made[0]] && made[0] in made;
    OneCall(made[0]);
    assert CalledNames(made) == {} && Removals(made) == {was[name].gocronId};
    assert made[0].RemoveCall? && made[0].id == was[name].gocronId;
    assert now == map[] && Crons(now) == map[];
    assert (start + made)[|start|] == made[0];
  }

  /** The whole story from an empty scheduler whose third call fails: a job is enabled, disabled, looked at again, and
      enabled once more. In the end two live jobs have its name. */
  method TwoLiveJobs(name: string, cronExpr: string) returns (service: Service, orphan: int)
    ensures service.Valid() && service.registered.Keys == {name} && service.OrphanJobs() == {orphan}
    ensures var sched, id := service.sched, service.registered[name].gocronId;
            && |sched.log| == 4
            && orphan in sched.live && id in sched.live && orphan != id
            && sched.live[orphan].name == name && sched.live[id].name == name
  {
    hide PassWith, Honest, FailedRemovals, OrphansStay, Orphans, Tracks;
    var created := New((k: nat) => k == 2, cronExpr + "*");
    service := created.value;
    service.AddJob(name);
    var on := [JobConfig(name, cronExpr, true)];
    var start := service.sched.log;
    ghost var r, made := service.Sync(Some(on));
    OneAdded(map[], service.registered, name, cronExpr, start, made, service.sched.fails);
    orphan := service.registered[name].gocronId;
    DisableTwice(service, name);
    start := service.sched.log;
    ghost var live := service.sched.live;
    r, made := service.Sync(Some(on));
    OneAdded(map[], service.registered, name, cronExpr, start, made, service.sched.fails);
    service.OrphanIsLive(orphan, live);
    service.LiveJobOf(name);
  }

  /** The calls of a pass that has one job to add, when that works. */
  lemma OneAdded(was: map<string, Registration>, now: map<string, Registration>, name: string, cronExpr: string,
                 start: seq<Call>, made: seq<Call>, fails: nat -> bool)
    requires was == map[] && !fails(|start|)
    requires PassWith(was, now, Wanted([JobConfig(name, cronExpr, true)], {name}), made)
    requires Honest(start + made, |start|, fails)
    ensures now.Keys == {name} && |made| == 1 && FailedRemovals(made) == {}
  {
    hide FailedRemovals;
    var on := [JobConfig(name, cronExpr, true)];
    var wanted := Wanted(on, {name});
    assert on[..0] == [] && wanted == map[name := cronExpr];
    assert Due(was, wanted) == {name} && DueRemovals(was, wanted) == {} && was.Keys - wanted.Keys == {};
    assert |Due(was, wanted)| == 1;
    assert made == [made[0]] && made[0] in made;
    OneCall(made[0]);
    assert (start + made)[|start|] == made[0];
  }
}
