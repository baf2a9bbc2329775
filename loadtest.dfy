/** The load-test script: per-endpoint statistics, the endpoint list and
    the round-robin request plan, the alerts and exit code, and the trend
    report over the run history. HTTP, timing and the worker pool are not
    modelled; latencies are exact reals, and the float formatting of
    deltas is a parameter. */
module LoadTest {
  import opened Wrappers
  import Text

  // ---------------------------------------------------------------------------
  // Endpoint statistics
  // ---------------------------------------------------------------------------

  /** One finished request: its latency and its status code, `None` when
      the request raised. */
  datatype Sample = Sample(latencyMs: real, status: Option<int>)

  /** The fields of an `EndpointStats`. */
  datatype Stats = Stats(latencies: seq<real>, ok: nat, failed: nat, statusCounts: map<int, nat>)

  /** The `defaultdict(int)` lookup. */
  function Count(m: map<int, nat>, code: int): nat {
    if code in m then m[code] else 0
  }

  predicate Success(code: int) {
    200 <= code < 300
  }

  /** `record` on the fields' values. */
  function Recorded(s: Stats, sample: Sample): Stats {
    var latencies := s.latencies + [sample.latencyMs];
    match sample.status
    case None => s.(latencies := latencies, failed := s.failed + 1)
    case Some(code) =>
      var counts := s.statusCounts[code := Count(s.statusCounts, code) + 1];
      if Success(code) then s.(latencies := latencies, ok := s.ok + 1, statusCounts := counts)
      else s.(latencies := latencies, failed := s.failed + 1, statusCounts := counts)
  }

  /** The statistics after recording `samples`, in order, from `s`. */
  function Tally(s: Stats, samples: seq<Sample>): Stats {
    if samples == [] then s else Recorded(Tally(s, samples[..|samples| - 1]), samples[|samples| - 1])
  }

  /** How many samples succeeded. */
  function Successes(samples: seq<Sample>): nat {
    if samples == [] then 0
    else
      var last := samples[|samples| - 1];
      Successes(samples[..|samples| - 1]) + (if last.status.Some? && Success(last.status.value) then 1 else 0)
  }

  /** How many samples carry status `code`. */
  function WithStatus(samples: seq<Sample>, code: int): nat {
    if samples == [] then 0
    else WithStatus(samples[..|samples| - 1], code) + (if samples[|samples| - 1].status == Some(code) then 1 else 0)
  }

  /** From fresh statistics, recorded samples give: every latency, in
      order; `ok` the successes; `ok + failed` the number of samples;
      and for each status code the number of samples that carried it,
      requests that raised counting for none. */
  lemma {:induction false} TallySound(samples: seq<Sample>)
    ensures var s := Tally(Stats([], 0, 0, map[]), samples);
      && |s.latencies| == |samples|
      && (forall k :: 0 <= k < |samples| ==> s.latencies[k] == samples[k].latencyMs)
      && s.ok == Successes(samples)
      && s.ok + s.failed == |samples|
      && (forall code :: Count(s.statusCounts, code) == WithStatus(samples, code))
      && (forall code :: code in s.statusCounts ==> s.statusCounts[code] > 0)
  {
    if samples != [] {
      var init := samples[..|samples| - 1];
      TallySound(init);
      var s0 := Tally(Stats([], 0, 0, map[]), init);
      var s := Tally(Stats([], 0, 0, map[]), samples);
      assert s == Recorded(s0, samples[|samples| - 1]);
      forall k | 0 <= k < |samples| ensures s.latencies[k] == samples[k].latencyMs {
        if k < |init| {
          assert samples[k] == init[k];
        }
      }
    }
  }

  /** `EndpointStats`. */
  class EndpointStats {
    var latenciesMs: seq<real>
    var ok: nat
    var failed: nat
    var statusCounts: map<int, nat>

    constructor()
      ensures latenciesMs == [] && ok == 0 && failed == 0 && statusCounts == map[]
    {
      latenciesMs := [];
      ok := 0;
      failed := 0;
      statusCounts := map[];
    }

    function State(): Stats
      reads this
    {
      Stats(latenciesMs, ok, failed, statusCounts)
    }

    /** Every recorded latency is counted once, as a success or a failure. */
    predicate Valid()
      reads this
    {
      ok + failed == |latenciesMs|
    }

    /** `record`: the latency is always appended; a request that raised
        counts as failed and leaves the status counts alone; otherwise the
        code's count goes up, and `ok` or `failed` by whether it is 2xx. */
    method Record(latencyMs: real, status: Option<int>)
      modifies this
      ensures State() == Recorded(old(State()), Sample(latencyMs, status))
      ensures latenciesMs == old(latenciesMs) + [latencyMs]
      ensures status.None? ==> statusCounts == old(statusCounts) && ok == old(ok) && failed == old(failed) + 1
      ensures status.Some? ==>
        && Count(statusCounts, status.value) == Count(old(statusCounts), status.value) + 1
        && (forall c :: c != status.value ==> Count(statusCounts, c) == Count(old(statusCounts), c))
        && (Success(status.value) ==> ok == old(ok) + 1 && failed == old(failed))
        && (!Success(status.value) ==> ok == old(ok) && failed == old(failed) + 1)
      ensures old(Valid()) ==> Valid()
    {
      latenciesMs := latenciesMs + [latencyMs];
      if status.None? {
        failed := failed + 1;
        return;
      }
      var code := status.value;
      statusCounts := statusCounts[code := (if code in statusCounts then statusCounts[code] else 0) + 1];
      if 200 <= code < 300 {
        ok := ok + 1;
      } else {
        failed := failed + 1;
      }
    }
  }

  // ---------------------------------------------------------------------------
  // Endpoints and the request plan
  // ---------------------------------------------------------------------------

  const BaseEndpoints: seq<string> := [
    "/health",
    "/api/worlds",
    "/api/ops/metrics",
    "/api/ops/alerts",
    "/api/multiverse/worlds/map?min_strength=0.2&min_count=1"
  ]

  /** `build_endpoints`: the five base endpoints, and four world endpoints
      after them when a (non-empty) world id is given. */
  function BuildEndpoints(worldId: Option<string>): seq<string> {
    if worldId.Some? && worldId.value != "" then
      var w := worldId.value;
      BaseEndpoints + [
        "/api/worlds/" + w + "/feed?limit=20",
        "/api/worlds/" + w + "/strata",
        "/api/worlds/" + w + "/strata/compare",
        "/api/multiverse/worlds/" + w + "/neighbors?min_strength=0.2"
      ]
    else BaseEndpoints
  }

  lemma ContainsInfix(a: string, w: string, b: string)
    ensures Text.Contains(a + w + b, w)
  {
    assert Text.OccursAt(a + w + b, w, |a|) by {
      assert (a + w + b)[|a|..|a| + |w|] == w;
    }
  }

  /** Five endpoints without a world, nine with one; the base five come
      first, and each of the other four names the world. */
  lemma BuildEndpointsSound(worldId: Option<string>)
    ensures var r := BuildEndpoints(worldId);
      && |r| == (if worldId.Some? && worldId.value != "" then 9 else 5)
      && r[..5] == BaseEndpoints
      && (forall k :: 5 <= k < |r| ==> Text.Contains(r[k], worldId.value))
  {
    if worldId.Some? && worldId.value != "" {
      var w := worldId.value;
      var r := BuildEndpoints(worldId);
      ContainsInfix("/api/worlds/", w, "/feed?limit=20");
      ContainsInfix("/api/worlds/", w, "/strata");
      ContainsInfix("/api/worlds/", w, "/strata/compare");
      ContainsInfix("/api/multiverse/worlds/", w, "/neighbors?min_strength=0.2");
      assert r[5] == "/api/worlds/" + w + "/feed?limit=20";
      assert r[6] == "/api/worlds/" + w + "/strata";
      assert r[7] == "/api/worlds/" + w + "/strata/compare";
      assert r[8] == "/api/multiverse/worlds/" + w + "/neighbors?min_strength=0.2";
    }
  }

  /** The loop that fills the request queue: request `i` goes to
      `endpoints[i % len(endpoints)]`. */
  method PlanRequests(total: int, endpoints: seq<string>) returns (queue: seq<string>)
    requires endpoints != []
    ensures |queue| == if total > 0 then total else 0
    ensures forall i :: 0 <= i < |queue| ==> queue[i] == endpoints[i % |endpoints|]
  {
    queue := [];
    var i := 0;
    while i < total
      invariant 0 <= i && |queue| == i
      invariant i <= (if total > 0 then total else 0)
      invariant forall k :: 0 <= k < i ==> queue[k] == endpoints[k % |endpoints|]
    {
      queue := queue + [endpoints[i % |endpoints|]];
      i := i + 1;
    }
  }

  /** The plan cycles through the endpoints: it repeats with their number
      as period, and a plan at least that long reaches every endpoint. */
  lemma RoundRobin(queue: seq<string>, endpoints: seq<string>)
    requires endpoints != []
    requires forall i :: 0 <= i < |queue| ==> queue[i] == endpoints[i % |endpoints|]
    ensures forall i :: 0 <= i && i + |endpoints| < |queue| ==> queue[i + |endpoints|] == queue[i]
    ensures |queue| >= |endpoints| ==> forall j :: 0 <= j < |endpoints| ==> queue[j] == endpoints[j]
  {
    var n := |endpoints|;
    forall i | 0 <= i && i + n < |queue| ensures queue[i + n] == queue[i] {
      ModShift(i, n);
      assert queue[i + n] == endpoints[(i + n) % n];
    }
    if |queue| >= n {
      forall j | 0 <= j < n ensures queue[j] == endpoints[j] {
        SmallMod(j, n);
        assert queue[j] == endpoints[j % n];
      }
    }
  }

  lemma SmallMod(j: nat, n: nat)
    requires j < n
    ensures j % n == j
  {
  }

  lemma ModShift(i: nat, n: nat)
    requires n > 0
    ensures (i + n) % n == i % n
  {
    var q, r := i / n, i % n;
    var q2, r2 := (i + n) / n, (i + n) % n;
    assert q2 * n + r2 == (q + 1) * n + r;
    if q2 > q + 1 {
      MulAtLeast(q2 - q - 1, n);
      assert false;
    } else if q2 < q + 1 {
      MulAtLeast(q + 1 - q2, n);
      assert false;
    }
  }

  lemma MulAtLeast(a: int, n: int)
    requires a >= 1 && n > 0
    ensures a * n >= n
  {
    assert a * n == (a - 1) * n + n;
    assert (a - 1) * n >= 0;
  }

  // ---------------------------------------------------------------------------
  // Alerts and exit code
  // ---------------------------------------------------------------------------

  datatype Alert = SuccessRateBelowTarget(rate: real) | P95LatencyHigh(p95Ms: real)

  /** `total_ok / total_done`, or 0 when nothing completed. */
  function SuccessRate(ok: nat, failed: nat): real {
    if ok + failed == 0 then 0.0 else ok as real / (ok + failed) as real
  }

  /** The alerts of a run, given the overall 95th percentile when any
      latency was recorded. */
  function Alerts(ok: nat, failed: nat, p95: Option<real>): seq<Alert> {
    var rate := SuccessRate(ok, failed);
    (if rate < 0.98 then [SuccessRateBelowTarget(rate)] else [])
    + (if p95.Some? && p95.value > 1000.0 then [P95LatencyHigh(p95.value)] else [])
  }

  /** The rate is below 98% exactly when fewer than 98 in 100 requests
      succeeded, or when none completed. */
  lemma RateBelowTarget(ok: nat, failed: nat)
    ensures SuccessRate(ok, failed) < 0.98 <==> ok + failed == 0 || 100 * ok < 98 * (ok + failed)
  {
    if ok + failed > 0 {
      var d := (ok + failed) as real;
      var o := ok as real;
      QuotientBelow(o, d, 0.98);
      assert (100 * ok) as real == 100.0 * o;
      assert (98 * (ok + failed)) as real == 98.0 * d;
    }
  }

  /** `o / d < c` exactly when `o < c * d`, for a positive `d`. */
  lemma QuotientBelow(o: real, d: real, c: real)
    requires d > 0.0
    ensures o / d < c <==> o < c * d
  {
    var q := o / d;
    assert q * d == o;
    ScaleLess(q, c, d);
  }

  lemma ScaleLess(a: real, b: real, d: real)
    requires d > 0.0
    ensures a < b <==> a * d < b * d
  {
    if a < b {
      assert (b - a) * d > 0.0;
    } else {
      assert (a - b) * d >= 0.0;
    }
  }

  /** The success alert fires exactly when fewer than 98 in 100 requests
      succeeded, including a run where none completed; the latency alert
      exactly when the 95th percentile exceeds one second. */
  lemma AlertsSound(ok: nat, failed: nat, p95: Option<real>)
    ensures var a := Alerts(ok, failed, p95);
      && ((exists x :: x in a && x.SuccessRateBelowTarget?) <==> (ok + failed == 0 || 100 * ok < 98 * (ok + failed)))
      && ((exists x :: x in a && x.P95LatencyHigh?) <==> (p95.Some? && p95.value > 1000.0))
      && |a| <= 2
  {
    RateBelowTarget(ok, failed);
    var a := Alerts(ok, failed, p95);
    if SuccessRate(ok, failed) < 0.98 {
      assert a[0].SuccessRateBelowTarget?;
    }
    if p95.Some? && p95.value > 1000.0 {
      assert a[|a| - 1].P95LatencyHigh?;
    }
  }

  /** `_main`'s exit code. */
  function ExitCode(dryRun: bool, noFailOnAlert: bool, alerts: seq<Alert>): int {
    if dryRun then 0
    else if noFailOnAlert then 0
    else if alerts != [] then 1 else 0
  }

  /** The script fails exactly when a real run raised an alert and
      `--no-fail-on-alert` was not given; a run in which no request
      completed always fails. */
  lemma ExitCodeSound(dryRun: bool, noFailOnAlert: bool, ok: nat, failed: nat, p95: Option<real>)
    ensures var code := ExitCode(dryRun, noFailOnAlert, Alerts(ok, failed, p95));
      && (code == 0 || code == 1)
      && (code == 1 <==> !dryRun && !noFailOnAlert && Alerts(ok, failed, p95) != [])
      && (!dryRun && !noFailOnAlert && ok + failed == 0 ==> code == 1)
  {
  }

  // ---------------------------------------------------------------------------
  // Trend report
  // ---------------------------------------------------------------------------

  /** A field of a history row: absent, JSON null, or a value as Python
      prints it. */
  datatype Field = Missing | Null | Value(text: string)

  /** A history row; `alerts` is the length of its alert list. */
  datatype HistoryRow = HistoryRow(
    capturedAt: Field, mode: Field, requests: Field, concurrency: Field,
    throughput: Field, successRate: Field, p95: Field, alerts: nat)

  /** `fmt_value(row.get(key, "n/a"))`. */
  function Shown(f: Field): string {
    if f.Value? then f.text else "n/a"
  }

  /** `row.get("captured_at", "n/a")` printed as is: a null shows as "None". */
  function ShownCapturedAt(f: Field): string {
    match f
    case Missing => "n/a"
    case Null => "None"
    case Value(t) => t
  }

  /** `fmt_delta`; `withDelta` stands for the text with the rounded
      difference, which is float formatting. */
  function FmtDelta(current: Field, previous: Option<Field>, withDelta: (string, string) -> string): string {
    if !current.Value? then "n/a"
    else if previous.None? || !previous.value.Value? then current.text
    else withDelta(current.text, previous.value.text)
  }

  /** The rows the report covers: the last `history_window` when it is
      positive, all of them otherwise. */
  function Recent(history: seq<HistoryRow>, window: int): seq<HistoryRow> {
    if window > 0 then Text.Last(history, window) else history
  }

  function RowLine(row: HistoryRow): string {
    "| " + ShownCapturedAt(row.capturedAt) + " | " + Shown(row.mode) + " | " + Shown(row.requests) + " | "
    + Shown(row.concurrency) + " | " + Shown(row.throughput) + " | " + Shown(row.successRate) + " | "
    + Shown(row.p95) + " | " + Text.NatToString(row.alerts) + " |"
  }

  /** `f` over `s` from its last element to its first. */
  function ReversedMap<A, B>(s: seq<A>, f: A -> B): seq<B> {
    if s == [] then [] else [f(s[|s| - 1])] + ReversedMap(s[..|s| - 1], f)
  }

  lemma {:induction false} ReversedMapAt<A, B>(s: seq<A>, f: A -> B)
    ensures |ReversedMap(s, f)| == |s|
    ensures forall k :: 0 <= k < |s| ==> ReversedMap(s, f)[k] == f(s[|s| - 1 - k])
  {
    if s != [] {
      var init := s[..|s| - 1];
      ReversedMapAt(init, f);
      forall k | 0 <= k < |s| ensures ReversedMap(s, f)[k] == f(s[|s| - 1 - k]) {
        if k > 0 {
          assert ReversedMap(s, f)[k] == ReversedMap(init, f)[k - 1];
          assert s[|s| - 1 - k] == init[|init| - 1 - (k - 1)];
        }
      }
    }
  }

  /** The table rows of `recent`, appended in the order the loop visits
      them: over `reversed(recent)`. */
  function ReversedRows(recent: seq<HistoryRow>): seq<string> {
    ReversedMap(recent, RowLine)
  }

  /** The lines before the table rows. */
  function Heading(history: seq<HistoryRow>, recent: seq<HistoryRow>, withDelta: (string, string) -> string): seq<string>
    requires recent != []
  {
    var latest := recent[|recent| - 1];
    var prev := if |recent| >= 2 then Some(recent[|recent| - 2]) else None;
    Summary(|history|, |recent|, latest) + Snapshot(latest, prev, withDelta) + TableHead
  }

  /** The title and the counts. */
  function Summary(captured: nat, windowSize: nat, latest: HistoryRow): seq<string> {
    [ "# Loadtest Trend",
      "",
      "- Captured Runs: " + Text.NatToString(captured),
      "- Window Size: " + Text.NatToString(windowSize),
      "- Latest Captured At: " + ShownCapturedAt(latest.capturedAt),
      "" ]
  }

  /** The latest run's figures, each with its change from the run before. */
  function Snapshot(latest: HistoryRow, prev: Option<HistoryRow>, withDelta: (string, string) -> string): seq<string> {
    [ "## Latest Snapshot",
      "",
      "- Throughput (rps): " + FmtDelta(latest.throughput, if prev.Some? then Some(prev.value.throughput) else None, withDelta),
      "- Success Rate: " + FmtDelta(latest.successRate, if prev.Some? then Some(prev.value.successRate) else None, withDelta),
      "- P95 Latency (ms): " + FmtDelta(latest.p95, if prev.Some? then Some(prev.value.p95) else None, withDelta),
      "- Alerts: " + Text.NatToString(latest.alerts),
      "" ]
  }

  const TableHead: seq<string> := [
    "## Recent Runs",
    "",
    "| captured_at | mode | requests | concurrency | throughput_rps | success_rate | p95_ms | alerts |",
    "|---|---:|---:|---:|---:|---:|---:|---:|" ]

  const NoHistory: string := "# Loadtest Trend\n\nNo history data available.\n"

  /** The text `write_trend_markdown` writes. */
  function TrendText(history: seq<HistoryRow>, window: int, withDelta: (string, string) -> string): string {
    var recent := Recent(history, window);
    if recent == [] then NoHistory
    else Text.Join("\n", Heading(history, recent, withDelta) + ReversedRows(recent)) + "\n"
  }

  /** The window is the last `history_window` rows when that is positive
      (all of them when there are fewer), and every row otherwise; with
      no row in it the report says there is no data. */
  lemma TrendWindow(history: seq<HistoryRow>, window: int, withDelta: (string, string) -> string)
    ensures var recent := Recent(history, window);
      && (window > 0 ==> recent == history[|history| - (if window < |history| then window else |history|)..])
      && (window <= 0 ==> recent == history)
      && (history == [] ==> TrendText(history, window, withDelta) == "# Loadtest Trend\n\nNo history data available.\n")
  {
  }

  /** The report's lines: seventeen lines of heading, counting every
      captured run and the rows in the window, then one table row per run
      in the window, newest first. */
  lemma TrendLayout(history: seq<HistoryRow>, window: int, withDelta: (string, string) -> string)
    requires Recent(history, window) != []
    ensures var recent := Recent(history, window);
      var lines := Heading(history, recent, withDelta) + ReversedRows(recent);
      && TrendText(history, window, withDelta) == Text.Join("\n", lines) + "\n"
      && |lines| == 17 + |recent|
      && lines[2] == "- Captured Runs: " + Text.NatToString(|history|)
      && lines[3] == "- Window Size: " + Text.NatToString(|recent|)
      && (forall k :: 17 <= k < |lines| ==> lines[k] == RowLine(recent[|recent| + 16 - k]))
  {
    var recent := Recent(history, window);
    ReversedMapAt(recent, RowLine);
    HeadingCounts(history, recent, withDelta);
  }

  lemma HeadingCounts(history: seq<HistoryRow>, recent: seq<HistoryRow>, withDelta: (string, string) -> string)
    requires recent != []
    ensures |Heading(history, recent, withDelta)| == 17
    ensures Heading(history, recent, withDelta)[2] == "- Captured Runs: " + Text.NatToString(|history|)
    ensures Heading(history, recent, withDelta)[3] == "- Window Size: " + Text.NatToString(|recent|)
  {
    var latest := recent[|recent| - 1];
    var prev := if |recent| >= 2 then Some(recent[|recent| - 2]) else None;
    var head := Summary(|history|, |recent|, latest);
    var snap := Snapshot(latest, prev, withDelta);
    assert |head| == 6 && |snap| == 7 && |TableHead| == 4;
    assert Heading(history, recent, withDelta) == head + (snap + TableHead);
  }

  /** The loop over `reversed(recent)`. */
  method AppendRows(lines: seq<string>, recent: seq<HistoryRow>) returns (out: seq<string>)
    ensures out == lines + ReversedRows(recent)
  {
    out := lines;
    var i := |recent|;
    assert recent[..i] == recent;
    while i > 0
      invariant 0 <= i <= |recent|
      invariant out + ReversedRows(recent[..i]) == lines + ReversedRows(recent)
    {
      assert recent[..i][..i - 1] == recent[..i - 1];
      out := out + [RowLine(recent[i - 1])];
      i := i - 1;
    }
  }

  /** `write_trend_markdown`, returning the text it writes. */
  method WriteTrendMarkdown(history: seq<HistoryRow>, window: int, withDelta: (string, string) -> string)
    returns (text: string)
    ensures text == TrendText(history, window, withDelta)
  {
    var recent := if window > 0 then Text.Last(history, window) else history;
    if recent == [] {
      return NoHistory;
    }
    var lines := Heading(history, recent, withDelta);
    lines := AppendRows(lines, recent);
    text := Text.Join("\n", lines) + "\n";
  }
}
