/** The in-memory runtime metrics: one record per background loop (keyed by
    loop name) and one per simulation runner (keyed by world id), written by
    the `note_*` recorders and read back as snapshots by the ops routes. The
    clock reading `now` of each recorder is a parameter. */
module RuntimeMetrics {
  import opened Wrappers
  import opened Envelopes
  import Text

  /** An instant read from the clock. */
  type Time = int

  // ---------------------------------------------------------------------------
  // Loop records
  // ---------------------------------------------------------------------------

  datatype LoopMetric = LoopMetric(
    name: string,
    status: string,
    restartCount: int,
    lastStartedAt: Option<Time>,
    lastErrorAt: Option<Time>,
    lastError: Option<string>)

  /** The record `setdefault` inserts the first time a loop is seen. */
  function FreshLoop(name: string, status: string): LoopMetric {
    LoopMetric(name, status, 0, None, None, None)
  }

  /** The record a recorder starts from: the stored one, or a fresh one. */
  function LoopOr(loops: map<string, LoopMetric>, name: string, status: string): LoopMetric {
    if name in loops then loops[name] else FreshLoop(name, status)
  }

  /** At most this many characters of an error message are kept. */
  const ErrorTextLimit: nat := 400

  function Started(m: LoopMetric, now: Time): LoopMetric {
    m.(status := "running", lastStartedAt := Some(now))
  }

  function Exited(m: LoopMetric): LoopMetric {
    m.(status := "exited", restartCount := m.restartCount + 1)
  }

  function Cancelled(m: LoopMetric): LoopMetric {
    m.(status := "cancelled")
  }

  function Errored(m: LoopMetric, error: string, now: Time): LoopMetric {
    m.(status := "error", restartCount := m.restartCount + 1,
       lastErrorAt := Some(now), lastError := Some(Text.Take(error, ErrorTextLimit)))
  }

  /** What each recorder does to a loop record: "started" and "cancelled" keep
      the restart count, "exited" and "error" add exactly one; the error text
      is cut to its first 400 characters; the name never changes. */
  lemma LoopRecorders(m: LoopMetric, error: string, now: Time)
    ensures Started(m, now).status == "running" && Started(m, now).restartCount == m.restartCount
    ensures Started(m, now).lastStartedAt == Some(now)
    ensures Cancelled(m).status == "cancelled" && Cancelled(m).restartCount == m.restartCount
    ensures Exited(m).status == "exited" && Exited(m).restartCount == m.restartCount + 1
    ensures var e := Errored(m, error, now);
      e.status == "error" && e.restartCount == m.restartCount + 1
      && e.lastError.Some? && |e.lastError.value| <= ErrorTextLimit
      && e.lastError.value <= error && e.lastErrorAt == Some(now)
    ensures Started(m, now).name == Exited(m).name == Cancelled(m).name == Errored(m, error, now).name == m.name
  {
  }

  /** A loop seen for the first time by `note_loop_started` has restart count 0. */
  lemma FirstStartHasNoRestarts(loops: map<string, LoopMetric>, name: string, now: Time)
    requires name !in loops
    ensures Started(LoopOr(loops, name, "running"), now).restartCount == 0
    ensures Started(LoopOr(loops, name, "running"), now).status == "running"
  {
  }

  // ---------------------------------------------------------------------------
  // Runner records
  // ---------------------------------------------------------------------------

  datatype RunnerMetric = RunnerMetric(
    worldId: WorldId,
    status: string,
    ticksTotal: int,
    tickFailures: int,
    successRate: real,
    lastDurationMs: Option<int>,
    avgDurationMs: Option<real>,
    lastTickDelayMs: Option<int>,
    lastSeenAt: Option<Time>)

  function FreshRunner(world: WorldId, status: string): RunnerMetric {
    RunnerMetric(world, status, 0, 0, 1.0, None, None, None, None)
  }

  function RunnerOr(runners: map<WorldId, RunnerMetric>, world: WorldId, status: string): RunnerMetric {
    if world in runners then runners[world] else FreshRunner(world, status)
  }

  function StatusNoted(m: RunnerMetric, status: string, now: Time): RunnerMetric {
    m.(status := status, lastSeenAt := Some(now))
  }

  /** The running mean of tick durations: the duration itself when there is
      no previous mean, the incremental mean otherwise. */
  function NextAverage(previousTotal: int, previousAvg: Option<real>, durationMs: int): real {
    if previousTotal <= 0 || previousAvg.None? then durationMs as real
    else (previousAvg.value * previousTotal as real + durationMs as real) / (previousTotal as real + 1.0)
  }

  function TickNoted(m: RunnerMetric, tickOk: bool, ticksTotal: int, tickFailures: int,
                     successRate: real, durationMs: int, tickDelayMs: int, now: Time): RunnerMetric {
    m.(status := if tickOk then "running" else "degraded",
       ticksTotal := ticksTotal,
       tickFailures := tickFailures,
       successRate := successRate,
       lastDurationMs := Some(durationMs),
       lastTickDelayMs := Some(tickDelayMs),
       lastSeenAt := Some(now),
       avgDurationMs := Some(NextAverage(m.ticksTotal, m.avgDurationMs, durationMs)))
  }

  /** `note_runner_tick` sets "running" exactly when the tick succeeded and
      "degraded" otherwise, and copies the runner's own counters. */
  lemma TickNotedStatus(m: RunnerMetric, tickOk: bool, ticksTotal: int, tickFailures: int,
                        successRate: real, durationMs: int, tickDelayMs: int, now: Time)
    ensures var r := TickNoted(m, tickOk, ticksTotal, tickFailures, successRate, durationMs, tickDelayMs, now);
      (r.status == "running" <==> tickOk) && (r.status == "degraded" <==> !tickOk)
      && r.ticksTotal == ticksTotal && r.tickFailures == tickFailures
      && r.worldId == m.worldId && r.lastDurationMs == Some(durationMs)
  {
  }

  function Sum(ds: seq<int>): int {
    if ds == [] then 0 else Sum(ds[..|ds| - 1]) + ds[|ds| - 1]
  }

  /** The arithmetic mean of a non-empty list of durations. */
  function Mean(ds: seq<int>): real
    requires ds != []
  {
    Sum(ds) as real / |ds| as real
  }

  /** The incremental mean is the true mean: if the stored average is the mean
      of the `n` durations so far, recording the next tick with total `n + 1`
      stores the mean of all `n + 1` durations. The first tick stores its own
      duration, the mean of one. */
  lemma {:induction false} AverageIsMean(ds: seq<int>, d: int)
    ensures NextAverage(0, None, d) == Mean([d])
    ensures ds != [] ==> NextAverage(|ds|, Some(Mean(ds)), d) == Mean(ds + [d])
  {
    assert Sum([d]) == Sum([]) + d;
    if ds != [] {
      var n := |ds| as real;
      var s := Sum(ds) as real;
      assert (ds + [d])[..|ds|] == ds;
      assert Sum(ds + [d]) == Sum(ds) + d;
      calc {
        NextAverage(|ds|, Some(Mean(ds)), d);
        (s / n * n + d as real) / (n + 1.0);
        { assert s / n * n == s; }
        (s + d as real) / (n + 1.0);
        Mean(ds + [d]);
      }
    }
  }

  // ---------------------------------------------------------------------------
  // Records as dictionaries, and `merge_metric_defaults`
  // ---------------------------------------------------------------------------

  datatype FieldValue = FStr(s: string) | FInt(i: int) | FReal(r: real) | FTime(t: Time) | FNone

  /** `dict(defaults)` updated with `metric`: every default key is present and
      the metric's own values win. */
  function MergeDefaults<K, V>(metric: map<K, V>, defaults: map<K, V>): (r: map<K, V>)
    ensures r.Keys == metric.Keys + defaults.Keys
    ensures forall k :: k in metric ==> r[k] == metric[k]
    ensures forall k :: k in defaults && k !in metric ==> r[k] == defaults[k]
  {
    defaults + metric
  }

  /** A record that already has every default key is returned unchanged. */
  lemma MergeKeepsCompleteRecord<K, V>(metric: map<K, V>, defaults: map<K, V>)
    requires defaults.Keys <= metric.Keys
    ensures MergeDefaults(metric, defaults) == metric
  {
  }

  function OptTime(t: Option<Time>): FieldValue {
    if t.Some? then FTime(t.value) else FNone
  }

  function OptStr(t: Option<string>): FieldValue {
    if t.Some? then FStr(t.value) else FNone
  }

  function OptInt(t: Option<int>): FieldValue {
    if t.Some? then FInt(t.value) else FNone
  }

  function OptReal(t: Option<real>): FieldValue {
    if t.Some? then FReal(t.value) else FNone
  }

  function LoopFields(m: LoopMetric): map<string, FieldValue> {
    map["name" := FStr(m.name), "status" := FStr(m.status), "restart_count" := FInt(m.restartCount),
        "last_started_at" := OptTime(m.lastStartedAt), "last_error_at" := OptTime(m.lastErrorAt),
        "last_error" := OptStr(m.lastError)]
  }

  function RunnerFields(m: RunnerMetric): map<string, FieldValue> {
    map["world_id" := FStr(m.worldId), "status" := FStr(m.status), "ticks_total" := FInt(m.ticksTotal),
        "tick_failures" := FInt(m.tickFailures), "success_rate" := FReal(m.successRate),
        "last_duration_ms" := OptInt(m.lastDurationMs), "avg_duration_ms" := OptReal(m.avgDurationMs),
        "last_tick_delay_ms" := OptInt(m.lastTickDelayMs), "last_seen_at" := OptTime(m.lastSeenAt)]
  }

  /** The defaults the ops snapshot merges under every loop record. */
  const LoopDefaults: map<string, FieldValue> :=
    map["status" := FStr("unknown"), "restart_count" := FInt(0), "last_started_at" := FNone,
        "last_error_at" := FNone, "last_error" := FNone]

  /** The defaults the ops snapshot merges under every runner record. */
  const RunnerDefaults: map<string, FieldValue> :=
    map["status" := FStr("unknown"), "ticks_total" := FInt(0), "tick_failures" := FInt(0),
        "success_rate" := FReal(1.0), "last_duration_ms" := FNone, "avg_duration_ms" := FNone,
        "last_tick_delay_ms" := FNone, "last_seen_at" := FNone]

  /** The recorders always write complete records, so the ops defaults never
      show through: merging leaves every stored record as it is. */
  lemma DefaultsNeverShowThrough(l: LoopMetric, r: RunnerMetric)
    ensures MergeDefaults(LoopFields(l), LoopDefaults) == LoopFields(l)
    ensures MergeDefaults(RunnerFields(r), RunnerDefaults) == RunnerFields(r)
  {
    MergeKeepsCompleteRecord(LoopFields(l), LoopDefaults);
    MergeKeepsCompleteRecord(RunnerFields(r), RunnerDefaults);
  }

  // ---------------------------------------------------------------------------
  // The store
  // ---------------------------------------------------------------------------

  /** The keys of an insertion-ordered dictionary: each key once, in the order
      it was first inserted. */
  ghost predicate OrderOf<V>(order: seq<string>, m: map<string, V>) {
    (forall i, j :: 0 <= i < j < |order| ==> order[i] != order[j])
    && (forall k :: k in m <==> k in order)
  }

  /** The key order after writing `k`: unchanged if `k` was present, else `k` last. */
  function Touch<K>(order: seq<K>, present: bool, k: K): seq<K> {
    if present then order else order + [k]
  }

  lemma TouchKeepsOrder<V>(order: seq<string>, m: map<string, V>, k: string, v: V)
    requires OrderOf(order, m)
    ensures OrderOf(Touch(order, k in m, k), m[k := v])
  {
  }

  /** The values of `m` listed in the order of `order`. */
  function InOrder<V>(order: seq<string>, m: map<string, V>): (r: seq<V>)
    requires forall k :: 0 <= k < |order| ==> order[k] in m
    ensures |r| == |order|
    ensures forall k :: 0 <= k < |order| ==> r[k] == m[order[k]]
  {
    if order == [] then [] else InOrder(order[..|order| - 1], m) + [m[order[|order| - 1]]]
  }

  class MetricsStore {
    var loops: map<string, LoopMetric>
    var loopOrder: seq<string>
    var runners: map<WorldId, RunnerMetric>
    var runnerOrder: seq<WorldId>

    /** The orders list the keys, and every record is filed under its own key. */
    ghost predicate Valid()
      reads this
    {
      OrderOf(loopOrder, loops) && OrderOf(runnerOrder, runners)
      && (forall n :: n in loops ==> loops[n].name == n)
      && (forall w :: w in runners ==> runners[w].worldId == w)
    }

    constructor()
      ensures Valid()
      ensures loops == map[] && runners == map[] && loopOrder == [] && runnerOrder == []
    {
      loops := map[];
      loopOrder := [];
      runners := map[];
      runnerOrder := [];
    }

    method PutLoop(name: string, m: LoopMetric)
      requires Valid() && m.name == name
      modifies this
      ensures Valid()
      ensures loops == old(loops)[name := m]
      ensures loopOrder == Touch(old(loopOrder), name in old(loops), name)
      ensures runners == old(runners) && runnerOrder == old(runnerOrder)
    {
      TouchKeepsOrder(loopOrder, loops, name, m);
      loopOrder := Touch(loopOrder, name in loops, name);
      loops := loops[name := m];
    }

    method PutRunner(world: WorldId, m: RunnerMetric)
      requires Valid() && m.worldId == world
      modifies this
      ensures Valid()
      ensures runners == old(runners)[world := m]
      ensures runnerOrder == Touch(old(runnerOrder), world in old(runners), world)
      ensures loops == old(loops) && loopOrder == old(loopOrder)
    {
      TouchKeepsOrder(runnerOrder, runners, world, m);
      runnerOrder := Touch(runnerOrder, world in runners, world);
      runners := runners[world := m];
    }

    /** `note_loop_started(name)` */
    method NoteLoopStarted(name: string, now: Time)
      requires Valid()
      modifies this
      ensures Valid()
      ensures loops == old(loops)[name := Started(LoopOr(old(loops), name, "running"), now)]
      ensures loopOrder == Touch(old(loopOrder), name in old(loops), name)
      ensures runners == old(runners) && runnerOrder == old(runnerOrder)
    {
      var m := if name in loops then loops[name] else FreshLoop(name, "running");
      PutLoop(name, Started(m, now));
    }

    /** `note_loop_exited(name)` */
    method NoteLoopExited(name: string)
      requires Valid()
      modifies this
      ensures Valid()
      ensures loops == old(loops)[name := Exited(LoopOr(old(loops), name, "exited"))]
      ensures loopOrder == Touch(old(loopOrder), name in old(loops), name)
      ensures runners == old(runners) && runnerOrder == old(runnerOrder)
    {
      var m := if name in loops then loops[name] else FreshLoop(name, "exited");
      PutLoop(name, Exited(m));
    }

    /** `note_loop_cancelled(name)` */
    method NoteLoopCancelled(name: string)
      requires Valid()
      modifies this
      ensures Valid()
      ensures loops == old(loops)[name := Cancelled(LoopOr(old(loops), name, "cancelled"))]
      ensures loopOrder == Touch(old(loopOrder), name in old(loops), name)
      ensures runners == old(runners) && runnerOrder == old(runnerOrder)
    {
      var m := if name in loops then loops[name] else FreshLoop(name, "cancelled");
      PutLoop(name, Cancelled(m));
    }

    /** `note_loop_error(name, error)` */
    method NoteLoopError(name: string, error: string, now: Time)
      requires Valid()
      modifies this
      ensures Valid()
      ensures loops == old(loops)[name := Errored(LoopOr(old(loops), name, "error"), error, now)]
      ensures loopOrder == Touch(old(loopOrder), name in old(loops), name)
      ensures runners == old(runners) && runnerOrder == old(runnerOrder)
    {
      var m := if name in loops then loops[name] else FreshLoop(name, "error");
      PutLoop(name, Errored(m, error, now));
    }

    /** `note_runner_status(world, status)` */
    method NoteRunnerStatus(world: WorldId, status: string, now: Time)
      requires Valid()
      modifies this
      ensures Valid()
      ensures runners == old(runners)[world := StatusNoted(RunnerOr(old(runners), world, status), status, now)]
      ensures runnerOrder == Touch(old(runnerOrder), world in old(runners), world)
      ensures loops == old(loops) && loopOrder == old(loopOrder)
    {
      var m := if world in runners then runners[world] else FreshRunner(world, status);
      PutRunner(world, StatusNoted(m, status, now));
    }

    /** `note_runner_tick(...)` */
    method NoteRunnerTick(world: WorldId, tickOk: bool, ticksTotal: int, tickFailures: int,
                          successRate: real, durationMs: int, tickDelayMs: int, now: Time)
      requires Valid()
      modifies this
      ensures Valid()
      ensures runners == old(runners)[world := TickNoted(RunnerOr(old(runners), world, "running"),
        tickOk, ticksTotal, tickFailures, successRate, durationMs, tickDelayMs, now)]
      ensures runnerOrder == Touch(old(runnerOrder), world in old(runners), world)
      ensures loops == old(loops) && loopOrder == old(loopOrder)
    {
      var m := if world in runners then runners[world] else FreshRunner(world, "running");
      PutRunner(world, TickNoted(m, tickOk, ticksTotal, tickFailures, successRate, durationMs, tickDelayMs, now));
    }

    /** `clear_runtime_metrics()`: the only way records disappear. */
    method Clear()
      modifies this
      ensures Valid()
      ensures loops == map[] && runners == map[] && loopOrder == [] && runnerOrder == []
    {
      loops := map[];
      loopOrder := [];
      runners := map[];
      runnerOrder := [];
    }

    /** `get_loop_metrics_snapshot()`: copies of the loop records in insertion order. */
    function LoopSnapshot(): (r: seq<LoopMetric>)
      requires Valid()
      reads this
      ensures |r| == |loopOrder| == |loops|
      ensures forall k :: 0 <= k < |r| ==> r[k] == loops[loopOrder[k]]
    {
      OrderCardinality(loopOrder, loops);
      InOrder(loopOrder, loops)
    }

    /** `get_runner_metrics_snapshot()`: copies of the runner records in insertion order. */
    function RunnerSnapshot(): (r: seq<RunnerMetric>)
      requires Valid()
      reads this
      ensures |r| == |runnerOrder| == |runners|
      ensures forall k :: 0 <= k < |r| ==> r[k] == runners[runnerOrder[k]]
    {
      OrderCardinality(runnerOrder, runners);
      InOrder(runnerOrder, runners)
    }
  }

  /** An order lists as many keys as the dictionary holds. */
  lemma {:induction false} OrderCardinality<V>(order: seq<string>, m: map<string, V>)
    requires OrderOf(order, m)
    ensures |order| == |m|
    decreases |order|
  {
    if order == [] {
      assert m.Keys == {};
    } else {
      var last := order[|order| - 1];
      var rest := m - {last};
      assert OrderOf(order[..|order| - 1], rest);
      OrderCardinality(order[..|order| - 1], rest);
      assert m.Keys == rest.Keys + {last};
    }
  }
}
