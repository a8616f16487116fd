/** The audit logger every agent writes to: an append-only list of execution records, with per-scenario
    analytics over it. */
module Audit {
  import opened Wrappers
  import opened Dicts
  import opened Shared
  import opened StableSort

  /** The `performance_metrics` of an entry. All three absent is the empty table `{}`. */
  datatype Metrics = Metrics(processingTime: Option<real>, tokensUsed: Option<nat>, modelUsed: Option<string>)

  const NoMetrics := Metrics(None, None, None)

  /** One `AuditLogEntry`. The logged input and output are kept as they were given. */
  datatype LogEntry<I, O> = LogEntry(
    logId: string,
    timestamp: string,
    agentName: string,
    scenario: string,
    action: string,
    input: I,
    output: O,
    adaptations: Adaptations,
    performance: Metrics,
    success: bool)

  /** The label an adaptation is counted under: its key and its value. */
  type Label = (string, Value)

  /** Per-agent counters, before the rates are added. */
  datatype Tally = Tally(executions: nat, successes: nat, totalTime: real)

  /** Per-agent counters with their rates. */
  datatype AgentStats = AgentStats(executions: nat, successes: nat, totalTime: real, successRate: real, avgTime: real)

  /** `get_scenario_analytics`: `{}` when the scenario has no entries. */
  datatype Analytics =
    | NoLogs
    | Stats(
        totalExecutions: nat,
        successRate: real,
        avgProcessingTime: real,
        mostUsedAdaptations: seq<(Label, nat)>,
        agentPerformance: Dict<string, AgentStats>)

  /** `export_scenario_report`, before it is rendered as JSON. */
  datatype Report<I, O> = Report(scenario: string, generatedAt: string, analytics: Analytics, detailedLogs: seq<LogEntry<I, O>>)

  // ---------------------------------------------------------------------------------------------
  // Selecting and summing entries

  /** The entries of one scenario, in log order. */
  function ForScenario<I, O>(logs: seq<LogEntry<I, O>>, scenario: string): (sl: seq<LogEntry<I, O>>)
    ensures |sl| <= |logs|
    ensures forall i :: 0 <= i < |sl| ==> sl[i].scenario == scenario
    decreases |logs|
  {
    if logs == [] then []
    else
      var init, e := logs[..|logs| - 1], logs[|logs| - 1];
      var rest := ForScenario(init, scenario);
      assert forall i :: 0 <= i < |logs| - 1 ==> logs[i] == init[i];
      if e.scenario == scenario then rest + [e] else rest
  }

  /** A scenario has no entries exactly when no entry of the log is about it. */
  lemma {:induction false} ForScenarioEmpty<I, O>(logs: seq<LogEntry<I, O>>, scenario: string)
    ensures ForScenario(logs, scenario) == [] <==> forall i :: 0 <= i < |logs| ==> logs[i].scenario != scenario
    decreases |logs|
  {
    if logs != [] {
      var init := logs[..|logs| - 1];
      ForScenarioEmpty(init, scenario);
      assert forall i :: 0 <= i < |logs| - 1 ==> logs[i] == init[i];
    }
  }

  /** Selecting a scenario's entries commutes with appending to the log. */
  lemma {:induction false} ForScenarioAppend<I, O>(a: seq<LogEntry<I, O>>, b: seq<LogEntry<I, O>>, scenario: string)
    ensures ForScenario(a + b, scenario) == ForScenario(a, scenario) + ForScenario(b, scenario)
    decreases |b|
  {
    if b != [] {
      var init, e := b[..|b| - 1], b[|b| - 1];
      assert (a + b)[..|a + b| - 1] == a + init;
      assert (a + b)[|a + b| - 1] == e;
      ForScenarioAppend(a, init, scenario);
      var tail := if e.scenario == scenario then [e] else [];
      assert ForScenario(a + b, scenario) == ForScenario(a + init, scenario) + tail;
      assert ForScenario(b, scenario) == ForScenario(init, scenario) + tail;
    } else {
      assert a + b == a;
    }
  }

  /** The entries of one agent, in log order. */
  function ByAgent<I, O>(logs: seq<LogEntry<I, O>>, agent: string): (es: seq<LogEntry<I, O>>)
    ensures |es| <= |logs|
    ensures forall i :: 0 <= i < |es| ==> es[i].agentName == agent
    decreases |logs|
  {
    if logs == [] then []
    else
      var init, e := logs[..|logs| - 1], logs[|logs| - 1];
      var rest := ByAgent(init, agent);
      assert forall i :: 0 <= i < |logs| - 1 ==> logs[i] == init[i];
      if e.agentName == agent then rest + [e] else rest
  }

  /** The number of successful entries. */
  function Successes<I, O>(logs: seq<LogEntry<I, O>>): (n: nat)
    ensures n <= |logs|
    decreases |logs|
  {
    if logs == [] then 0
    else Successes(logs[..|logs| - 1]) + if logs[|logs| - 1].success then 1 else 0
  }

  /** An entry's `processing_time`, 0 when it has none. */
  function TimeOf<I, O>(e: LogEntry<I, O>): real {
    e.performance.processingTime.GetOr(0.0)
  }

  /** The sum of the entries' processing times. */
  function TotalTime<I, O>(logs: seq<LogEntry<I, O>>): real
    decreases |logs|
  {
    if logs == [] then 0.0 else TotalTime(logs[..|logs| - 1]) + TimeOf(logs[|logs| - 1])
  }

  /** The last ten entries, or all of them when there are fewer. */
  function LastTen<T>(s: seq<T>): (r: seq<T>)
    ensures |r| == if |s| <= 10 then |s| else 10
    ensures r == s[|s| - |r|..]
  {
    if |s| <= 10 then s else s[|s| - 10..]
  }

  // ---------------------------------------------------------------------------------------------
  // Most used adaptations

  /** Every adaptation of every entry, entry by entry, each entry's in key order. */
  function LabelsOf<I, O>(logs: seq<LogEntry<I, O>>): seq<Label>
    decreases |logs|
  {
    if logs == [] then [] else LabelsOf(logs[..|logs| - 1]) + logs[|logs| - 1].adaptations.Pairs()
  }

  /** The sort key of a counted key. */
  function CountOf<L>(p: (L, nat)): real {
    p.1 as real
  }

  /** `dict(sorted(counts.items(), key=count, reverse=True)[:10])`. */
  function Top<L(==, !new)>(counts: Dict<L, nat>): seq<(L, nat)> {
    FirstTen(SortDesc(counts.Pairs(), CountOf))
  }

  /** `s[:10]`. */
  function FirstTen<T>(s: seq<T>): seq<T> {
    if |s| <= 10 then s else s[..10]
  }

  /** The counter's items are the keys seen, each with its number of occurrences. */
  lemma CountPairs<L(!new)>(ls: seq<L>, ps: seq<(L, nat)>)
    requires ps == Counts(ls).Pairs()
    ensures forall k :: 0 <= k < |ps| ==> ps[k].0 in ls && ps[k].1 == Occurrences(ls, ps[k].0)
    ensures forall l :: l in ls ==> (l, Occurrences(ls, l)) in ps
  {
    var d := Counts(ls);
    CountsValid(ls);
    PairsOfAll(d.keys, d.values);
    forall k | 0 <= k < |d.keys| ensures d.keys[k] in ls && d.values[d.keys[k]] == Occurrences(ls, d.keys[k]) {
      CountsSpec(ls, d.keys[k]);
    }
    forall l | l in ls ensures (l, Occurrences(ls, l)) in d.Pairs() {
      CountsSpec(ls, l);
      var k :| 0 <= k < |d.keys| && d.keys[k] == l;
      assert d.Pairs()[k] == (l, Occurrences(ls, l));
    }
  }

  /** The first ten of the items sorted by count: by non-increasing count, each one of the items, and an
      item left out counts no more than the last one kept. */
  lemma TopOfSorted<L>(ps: seq<(L, nat)>, top: seq<(L, nat)>)
    requires top == FirstTen(SortDesc(ps, CountOf))
    ensures |top| <= 10
    ensures forall i, j :: 0 <= i < j < |top| ==> top[i].1 >= top[j].1
    ensures forall i :: 0 <= i < |top| ==> top[i] in ps
    ensures forall p :: p in ps ==> p in top || (|top| == 10 && p.1 <= top[9].1)
  {
    var sorted := SortDesc(ps, CountOf);
    SortDescSpec(ps, CountOf);
    forall i, j | 0 <= i < j < |top| ensures top[i].1 >= top[j].1 {
      assert top[i] == sorted[i] && top[j] == sorted[j];
      assert CountOf(sorted[i]) >= CountOf(sorted[j]);
    }
    forall i | 0 <= i < |top| ensures top[i] in ps {
      assert top[i] == sorted[i];
      assert sorted[i] in multiset(ps);
    }
    forall p | p in ps ensures p in top || (|top| == 10 && p.1 <= top[9].1) {
      assert p in multiset(sorted);
      var j :| 0 <= j < |sorted| && sorted[j] == p;
      if j < |top| {
        assert top[j] == sorted[j];
      } else {
        assert top[9] == sorted[9];
        assert CountOf(sorted[9]) >= CountOf(sorted[j]);
      }
    }
  }

  /** Each key kept is one of `ls`, with its number of occurrences. */
  lemma TopEntries<L(!new)>(ls: seq<L>, top: seq<(L, nat)>)
    requires top == Top(Counts(ls))
    ensures forall i :: 0 <= i < |top| ==> top[i].0 in ls && top[i].1 == Occurrences(ls, top[i].0)
  {
    var ps := Counts(ls).Pairs();
    CountPairs(ls, ps);
    TopOfSorted(ps, top);
    forall i | 0 <= i < |top| ensures top[i].0 in ls && top[i].1 == Occurrences(ls, top[i].0) {
      var p := top[i];
      assert p in ps;
      var k :| 0 <= k < |ps| && ps[k] == p;
    }
  }

  /** A key of `ls` left out occurs no more often than the last one kept, of ten. */
  lemma TopComplete<L(!new)>(ls: seq<L>, top: seq<(L, nat)>, l: L)
    requires top == Top(Counts(ls))
    requires l in ls
    ensures (exists i :: 0 <= i < |top| && top[i] == (l, Occurrences(ls, l))) || (|top| == 10 && Occurrences(ls, l) <= top[9].1)
  {
    var ps := Counts(ls).Pairs();
    CountPairs(ls, ps);
    TopOfSorted(ps, top);
    var p := (l, Occurrences(ls, l));
    assert p in ps;
    if p in top {
      var i :| 0 <= i < |top| && top[i] == p;
    }
  }

  /** The ten most frequent keys of `ls`: at most ten, by non-increasing count, each with the number of
      times it occurs; a key left out occurs no more often than the last one kept. */
  lemma TopSpec<L(!new)>(ls: seq<L>, top: seq<(L, nat)>)
    requires top == Top(Counts(ls))
    ensures |top| <= 10
    ensures forall i, j :: 0 <= i < j < |top| ==> top[i].1 >= top[j].1
    ensures forall i :: 0 <= i < |top| ==> top[i].0 in ls && top[i].1 == Occurrences(ls, top[i].0)
    ensures forall l :: l in ls ==> (exists i :: 0 <= i < |top| && top[i] == (l, Occurrences(ls, l)))
                                    || (|top| == 10 && Occurrences(ls, l) <= top[9].1)
  {
    TopOfSorted(Counts(ls).Pairs(), top);
    TopEntries(ls, top);
    forall l | l in ls
      ensures (exists i :: 0 <= i < |top| && top[i] == (l, Occurrences(ls, l))) || (|top| == 10 && Occurrences(ls, l) <= top[9].1)
    {
      TopComplete(ls, top, l);
    }
  }

  /** `_get_common_adaptations` on a list of entries. */
  function MostUsed<I, O>(logs: seq<LogEntry<I, O>>): seq<(Label, nat)> {
    Top(Counts(LabelsOf(logs)))
  }

  /** At most ten adaptations come back, by non-increasing count, each with the number of entries' uses of
      it; one left out is used no more often than the last one kept. */
  lemma MostUsedSpec<I, O>(logs: seq<LogEntry<I, O>>)
    ensures var top, ls := MostUsed(logs), LabelsOf(logs);
            && |top| <= 10
            && (forall i, j :: 0 <= i < j < |top| ==> top[i].1 >= top[j].1)
            && (forall i :: 0 <= i < |top| ==> top[i].0 in ls && top[i].1 == Occurrences(ls, top[i].0))
            && (forall l :: l in ls ==> (exists i :: 0 <= i < |top| && top[i] == (l, Occurrences(ls, l)))
                                          || (|top| == 10 && Occurrences(ls, l) <= top[9].1))
  {
    TopSpec(LabelsOf(logs), MostUsed(logs));
  }

  /** `adaptations[label] = adaptations.get(label, 0) + 1` for each label of one entry. */
  method CountEntry<L(==, !new)>(counts: Dict<L, nat>, ghost seen: seq<L>, ps: seq<L>) returns (r: Dict<L, nat>)
    requires counts == Counts(seen)
    ensures r == Counts(seen + ps)
  {
    r := counts;
    assert seen + ps[..0] == seen;
    for j := 0 to |ps|
      invariant r == Counts(seen + ps[..j])
    {
      assert (seen + ps[..j + 1])[..|seen + ps[..j + 1]| - 1] == seen + ps[..j];
      r := r.Put(ps[j], r.Get(ps[j]).GetOr(0) + 1);
    }
    assert ps[..|ps|] == ps;
  }

  /** `_get_common_adaptations`: counts every adaptation of every entry, then keeps the ten most used. */
  method CommonAdaptations<I, O>(logs: seq<LogEntry<I, O>>) returns (top: seq<(Label, nat)>)
    ensures top == MostUsed(logs)
  {
    var counts: Dict<Label, nat> := Empty();
    for i := 0 to |logs|
      invariant counts == Counts(LabelsOf(logs[..i]))
    {
      assert logs[..i + 1][..i] == logs[..i];
      counts := CountEntry(counts, LabelsOf(logs[..i]), logs[i].adaptations.Pairs());
    }
    assert logs[..|logs|] == logs;
    var items := counts.Pairs();
    var a := new (Label, nat)[|items|](k requires 0 <= k < |items| => items[k]);
    assert a[..] == items;
    SortArray(a, CountOf);
    top := FirstTen(a[..]);
  }

  // ---------------------------------------------------------------------------------------------
  // Per-agent performance

  /** The counters built entry by entry; a new agent goes to the end. */
  function Tallies<I, O>(logs: seq<LogEntry<I, O>>): Dict<string, Tally>
    decreases |logs|
  {
    if logs == [] then Empty() else Record(Tallies(logs[..|logs| - 1]), logs[|logs| - 1])
  }

  const NoTally := Tally(0, 0, 0.0)

  /** Counts one entry against its agent, starting the agent's counters at zero if it has none. */
  function Record<I, O>(d: Dict<string, Tally>, e: LogEntry<I, O>): Dict<string, Tally> {
    d.Put(e.agentName, Bump(d.Get(e.agentName).GetOr(NoTally), e))
  }

  /** The counters after one more entry. */
  function Bump<I, O>(t: Tally, e: LogEntry<I, O>): Tally {
    Tally(t.executions + 1, t.successes + if e.success then 1 else 0, t.totalTime + TimeOf(e))
  }

  /** The counters of a list of entries, counted all at once. */
  function TallyOf<I, O>(es: seq<LogEntry<I, O>>): Tally {
    Tally(|es|, Successes(es), TotalTime(es))
  }

  lemma {:induction false} TalliesValid<I, O>(logs: seq<LogEntry<I, O>>)
    ensures Tallies(logs).Valid()
    decreases |logs|
  {
    if logs != [] {
      TalliesValid(logs[..|logs| - 1]);
    }
  }

  /** An agent's counters count exactly its own entries. */
  lemma {:induction false} TalliesSpec<I, O>(logs: seq<LogEntry<I, O>>, agent: string)
    ensures Tallies(logs).Get(agent) == if ByAgent(logs, agent) == [] then None else Some(TallyOf(ByAgent(logs, agent)))
    decreases |logs|
  {
    if logs != [] {
      var init, e := logs[..|logs| - 1], logs[|logs| - 1];
      TalliesSpec(init, agent);
      if e.agentName == agent {
        var es := ByAgent(init, agent);
        assert ByAgent(logs, agent) == es + [e];
        TallyOfSnoc(es, e);
      } else {
        assert ByAgent(logs, agent) == ByAgent(init, agent);
      }
    }
  }

  /** Counting an entry after the others bumps their counters. */
  lemma TallyOfSnoc<I, O>(es: seq<LogEntry<I, O>>, e: LogEntry<I, O>)
    ensures TallyOf(es + [e]) == Bump(TallyOf(es), e)
  {
    assert (es + [e])[..|es|] == es;
  }

  /** The rates of one agent's counters. */
  function Finish(t: Tally): AgentStats {
    AgentStats(
      t.executions, t.successes, t.totalTime,
      if t.executions > 0 then t.successes as real / t.executions as real else 0.0,
      if t.executions > 0 then t.totalTime / t.executions as real else 0.0)
  }

  /** The rates of the agents `ks`, one after another. */
  function Finished(ks: seq<string>, m: map<string, Tally>): map<string, AgentStats>
    decreases |ks|
  {
    if ks == [] then map[]
    else
      var k := ks[|ks| - 1];
      var r := Finished(ks[..|ks| - 1], m);
      if k in m then r[k := Finish(m[k])] else r
  }

  lemma {:induction false} FinishedSpec(ks: seq<string>, m: map<string, Tally>, k: string)
    ensures k in Finished(ks, m) <==> k in ks && k in m
    ensures k in Finished(ks, m) ==> Finished(ks, m)[k] == Finish(m[k])
    decreases |ks|
  {
    if ks != [] {
      FinishedSpec(ks[..|ks| - 1], m, k);
      assert k in ks <==> k in ks[..|ks| - 1] || k == ks[|ks| - 1];
    }
  }

  /** `_get_agent_performance` on a list of entries. */
  function Performance<I, O>(logs: seq<LogEntry<I, O>>): Dict<string, AgentStats> {
    var t := Tallies(logs);
    Dict(t.keys, Finished(t.keys, t.values))
  }

  /** Each agent with an entry has its executions, its successes (never more than its executions), a
      success rate in [0, 1] and its mean time; no other agent is listed. */
  lemma PerformanceSpec<I, O>(logs: seq<LogEntry<I, O>>, agent: string)
    ensures var p, es := Performance(logs), ByAgent(logs, agent);
            && p.Valid()
            && (agent in p.values <==> es != [])
            && (agent in p.values ==>
                  var s := p.values[agent];
                  && s.executions == |es| >= 1
                  && s.successes == Successes(es) <= s.executions
                  && s.successRate == s.successes as real / s.executions as real
                  && 0.0 <= s.successRate <= 1.0
                  && s.totalTime == TotalTime(es)
                  && s.avgTime == s.totalTime / s.executions as real)
  {
    var t := Tallies(logs);
    var es := ByAgent(logs, agent);
    TalliesValid(logs);
    TalliesSpec(logs, agent);
    forall a ensures a in Finished(t.keys, t.values) <==> a in t.keys {
      FinishedSpec(t.keys, t.values, a);
    }
    FinishedSpec(t.keys, t.values, agent);
    if es != [] {
      Rate(Successes(es), |es|);
    }
  }

  /** The counting pass of `_get_agent_performance`. */
  method CountAgents<I, O>(logs: seq<LogEntry<I, O>>) returns (tallies: Dict<string, Tally>)
    ensures tallies == Tallies(logs)
  {
    tallies := Empty();
    for i := 0 to |logs|
      invariant tallies == Tallies(logs[..i])
    {
      assert logs[..i + 1][..i] == logs[..i];
      tallies := Record(tallies, logs[i]);
    }
    assert logs[..|logs|] == logs;
  }

  /** `_get_agent_performance`: counts per agent, then adds each agent's rates. */
  method AgentPerformance<I, O>(logs: seq<LogEntry<I, O>>) returns (perf: Dict<string, AgentStats>)
    ensures perf == Performance(logs)
  {
    var tallies := CountAgents(logs);
    var stats: map<string, AgentStats> := map[];
    for j := 0 to |tallies.keys|
      invariant stats == Finished(tallies.keys[..j], tallies.values)
    {
      assert tallies.keys[..j + 1][..j] == tallies.keys[..j];
      var k := tallies.keys[j];
      if k in tallies.values {
        stats := stats[k := Finish(tallies.values[k])];
      }
    }
    assert tallies.keys[..|tallies.keys|] == tallies.keys;
    perf := Dict(tallies.keys, stats);
  }

  // ---------------------------------------------------------------------------------------------
  // Analytics and export

  /** `get_scenario_analytics` over a snapshot of the log. */
  function AnalyticsOf<I, O>(logs: seq<LogEntry<I, O>>, scenario: string): Analytics {
    var sl := ForScenario(logs, scenario);
    if sl == [] then NoLogs
    else Stats(|sl|, Successes(sl) as real / |sl| as real, TotalTime(sl) / |sl| as real, MostUsed(sl), Performance(sl))
  }

  /** No analytics exactly when the scenario has no entries; otherwise the scenario's entries are counted,
      the success rate is the share of them that succeeded and the mean time is their total over their
      number. */
  lemma AnalyticsSpec<I, O>(logs: seq<LogEntry<I, O>>, scenario: string)
    ensures var a, sl := AnalyticsOf(logs, scenario), ForScenario(logs, scenario);
            && (a.NoLogs? <==> forall i :: 0 <= i < |logs| ==> logs[i].scenario != scenario)
            && (a.Stats? ==>
                  && a.totalExecutions == |sl| >= 1
                  && a.successRate == Successes(sl) as real / |sl| as real
                  && 0.0 <= a.successRate <= 1.0
                  && a.avgProcessingTime == TotalTime(sl) / |sl| as real)
  {
    var sl := ForScenario(logs, scenario);
    ForScenarioEmpty(logs, scenario);
    if sl != [] {
      Rate(Successes(sl), |sl|);
    }
  }

  /** The export's analytics, and its scenario's last ten entries. */
  function ReportOf<I, O>(logs: seq<LogEntry<I, O>>, scenario: string, generatedAt: string): Report<I, O> {
    Report(scenario, generatedAt, AnalyticsOf(logs, scenario), LastTen(ForScenario(logs, scenario)))
  }

  /** The exported entries are the scenario's last ten, in log order. */
  lemma ReportSpec<I, O>(logs: seq<LogEntry<I, O>>, scenario: string, generatedAt: string)
    ensures |ReportOf(logs, scenario, generatedAt).detailedLogs|
            == if |ForScenario(logs, scenario)| <= 10 then |ForScenario(logs, scenario)| else 10
    ensures ReportOf(logs, scenario, generatedAt).detailedLogs
            == ForScenario(logs, scenario)[|ForScenario(logs, scenario)| - |ReportOf(logs, scenario, generatedAt).detailedLogs|..]
    ensures forall i :: 0 <= i < |ReportOf(logs, scenario, generatedAt).detailedLogs| ==>
              ReportOf(logs, scenario, generatedAt).detailedLogs[i].scenario == scenario
  {
    var sl := ForScenario(logs, scenario);
    var d := ReportOf(logs, scenario, generatedAt).detailedLogs;
    assert d == LastTen(sl);
    assert forall i :: 0 <= i < |d| ==> d[i] == sl[|sl| - |d| + i];
  }

  // ---------------------------------------------------------------------------------------------
  // The logger

  /** `DynamicAuditLogger`: the entries in the order they were logged. */
  class AuditLog<I, O> {
    var logs: seq<LogEntry<I, O>>

    constructor()
      ensures logs == []
    {
      logs := [];
    }

    /** `log_dynamic_execution`: appends one entry and returns its id. Absent adaptations and metrics are
        stored as empty tables. */
    method LogExecution(
      logId: string, timestamp: string, agentName: string, scenario: string, action: string,
      input: I, output: O, adaptations: Option<Adaptations>, performance: Option<Metrics>, success: bool)
      returns (id: string)
      modifies this
      ensures logs == old(logs) + [LogEntry(logId, timestamp, agentName, scenario, action, input, output,
                                            adaptations.GetOr(Empty()), performance.GetOr(NoMetrics), success)]
      ensures id == logId
    {
      var entry := LogEntry(logId, timestamp, agentName, scenario, action, input, output,
                            adaptations.GetOr(Empty()), performance.GetOr(NoMetrics), success);
      logs := logs + [entry];
      id := logId;
    }

    /** `get_scenario_analytics`. */
    method ScenarioAnalytics(scenario: string) returns (a: Analytics)
      ensures a == AnalyticsOf(logs, scenario)
    {
      var sl := ForScenario(logs, scenario);
      if sl == [] {
        return NoLogs;
      }
      var common := CommonAdaptations(sl);
      var perf := AgentPerformance(sl);
      a := Stats(|sl|, Successes(sl) as real / |sl| as real, TotalTime(sl) / |sl| as real, common, perf);
    }

    /** `export_scenario_report`, up to the JSON rendering. */
    method ExportScenarioReport(scenario: string, generatedAt: string) returns (r: Report<I, O>)
      ensures r == ReportOf(logs, scenario, generatedAt)
    {
      var analytics := ScenarioAnalytics(scenario);
      var sl := ForScenario(logs, scenario);
      r := Report(scenario, generatedAt, analytics, LastTen(sl));
    }
  }

  /** Logging an entry adds one to its scenario's entries and leaves other scenarios' entries as they were. */
  lemma LoggingAddsOne<I, O>(logs: seq<LogEntry<I, O>>, e: LogEntry<I, O>, scenario: string)
    ensures ForScenario(logs + [e], scenario) == ForScenario(logs, scenario) + if e.scenario == scenario then [e] else []
  {
    assert (logs + [e])[..|logs + [e]| - 1] == logs;
  }
}
