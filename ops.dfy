/** The operations view: alerts derived by threshold rules from the runtime
    metrics, the queue counters and the runner registry, and the ordering and
    counting done when the snapshot is assembled. */
module Ops {
  import opened Wrappers
  import opened Envelopes
  import opened RuntimeMetrics
  import Text
  import Sorting
  import Consensus

  /** The alert thresholds of the application settings. */
  datatype OpsConfig = OpsConfig(
    runnerTicksMinForAlert: int,
    runnerSuccessRateThreshold: real,
    translatorBacklogThreshold: int,
    generatingWorldsThreshold: int)

  const DefaultOpsConfig: OpsConfig := OpsConfig(10, 0.9, 50, 5)

  /** The queue counters read from the database. */
  datatype QueueData = QueueData(
    pendingConversations: int,
    pendingWikiPages: int,
    pendingStrata: int,
    generatingWorlds: int)

  datatype Alert = Alert(code: string, severity: string, message: string, context: map<string, FieldValue>)

  // ---------------------------------------------------------------------------
  // The rules
  // ---------------------------------------------------------------------------

  function LoopAlert(l: LoopMetric): Option<Alert> {
    if l.status == "error" then
      Some(Alert("loop_error", "critical", "Background loop `" + l.name + "` is in error state",
        map["loop" := FStr(l.name), "restart_count" := FInt(l.restartCount), "last_error" := OptStr(l.lastError)]))
    else if l.status == "exited" then
      Some(Alert("loop_exited", "warning", "Background loop `" + l.name + "` exited and is restarting",
        map["loop" := FStr(l.name), "restart_count" := FInt(l.restartCount)]))
    else None
  }

  function LoopAlerts(loops: seq<LoopMetric>): seq<Alert> {
    if loops == [] then []
    else
      var a := LoopAlert(loops[0]);
      (if a.Some? then [a.value] else []) + LoopAlerts(loops[1..])
  }

  predicate Degraded(r: RunnerMetric, cfg: OpsConfig) {
    r.ticksTotal >= cfg.runnerTicksMinForAlert && r.successRate < cfg.runnerSuccessRateThreshold
  }

  function RunnerAlert(r: RunnerMetric): Alert {
    Alert("runner_degraded", "warning", "Runner " + Text.Take(r.worldId, 8) + " has low tick success rate",
      map["world_id" := FStr(r.worldId), "success_rate" := FReal(r.successRate),
          "tick_failures" := FInt(r.tickFailures), "ticks_total" := FInt(r.ticksTotal)])
  }

  function RunnerAlerts(runners: seq<RunnerMetric>, cfg: OpsConfig): seq<Alert> {
    if runners == [] then []
    else (if Degraded(runners[0], cfg) then [RunnerAlert(runners[0])] else []) + RunnerAlerts(runners[1..], cfg)
  }

  function PendingTotal(q: QueueData): int {
    q.pendingConversations + q.pendingWikiPages + q.pendingStrata
  }

  function BacklogAlerts(q: QueueData, cfg: OpsConfig): seq<Alert> {
    if PendingTotal(q) >= cfg.translatorBacklogThreshold then
      [Alert("translator_backlog", "warning", "Translation queue backlog is high",
        map["pending_total" := FInt(PendingTotal(q)),
            "translator_pending_conversations" := FInt(q.pendingConversations),
            "translator_pending_wiki_pages" := FInt(q.pendingWikiPages),
            "translator_pending_strata" := FInt(q.pendingStrata),
            "generating_worlds" := FInt(q.generatingWorlds)])]
    else []
  }

  function GenesisAlerts(q: QueueData, cfg: OpsConfig): seq<Alert> {
    if q.generatingWorlds >= cfg.generatingWorldsThreshold then
      [Alert("genesis_backlog", "warning", "Too many worlds are stuck in `generating` state",
        map["generating_worlds" := FInt(q.generatingWorlds)])]
    else []
  }

  /** `world_status_counts.get("running", 0)` */
  function RunningWorlds(statusCounts: map<string, int>): int {
    if "running" in statusCounts then statusCounts["running"] else 0
  }

  function MismatchAlerts(statusCounts: map<string, int>, activeRunners: int): seq<Alert> {
    var running := RunningWorlds(statusCounts);
    if running > 0 && activeRunners == 0 then
      [Alert("runner_mismatch", "warning", "Running worlds exist but no active in-memory runners were found",
        map["running_worlds" := FInt(running), "active_runners" := FInt(activeRunners)])]
    else []
  }

  /** `_build_alerts`: the five rules, in this order. */
  function BuildAlerts(statusCounts: map<string, int>, loops: seq<LoopMetric>, runners: seq<RunnerMetric>,
                       queue: QueueData, activeRunners: int, cfg: OpsConfig): seq<Alert> {
    LoopAlerts(loops) + RunnerAlerts(runners, cfg) + BacklogAlerts(queue, cfg)
    + GenesisAlerts(queue, cfg) + MismatchAlerts(statusCounts, activeRunners)
  }

  // ---------------------------------------------------------------------------
  // What the rules promise
  // ---------------------------------------------------------------------------

  function CountCode(alerts: seq<Alert>, code: string): nat {
    if alerts == [] then 0
    else (if alerts[0].code == code then 1 else 0) + CountCode(alerts[1..], code)
  }

  function CountStatus(loops: seq<LoopMetric>, status: string): nat {
    if loops == [] then 0
    else (if loops[0].status == status then 1 else 0) + CountStatus(loops[1..], status)
  }

  function CountDegraded(runners: seq<RunnerMetric>, cfg: OpsConfig): nat {
    if runners == [] then 0
    else (if Degraded(runners[0], cfg) then 1 else 0) + CountDegraded(runners[1..], cfg)
  }

  predicate HasCode(alerts: seq<Alert>, code: string) {
    exists k :: 0 <= k < |alerts| && alerts[k].code == code
  }

  lemma {:induction false} CountCodeAppend(a: seq<Alert>, b: seq<Alert>, code: string)
    ensures CountCode(a + b, code) == CountCode(a, code) + CountCode(b, code)
  {
    if a == [] {
      assert a + b == b;
    } else {
      assert (a + b)[1..] == a[1..] + b;
      CountCodeAppend(a[1..], b, code);
    }
  }

  lemma {:induction false} HasCodeIffCount(alerts: seq<Alert>, code: string)
    ensures HasCode(alerts, code) <==> CountCode(alerts, code) > 0
  {
    if alerts != [] {
      HasCodeIffCount(alerts[1..], code);
      if HasCode(alerts[1..], code) {
        var k :| 0 <= k < |alerts[1..]| && alerts[1..][k].code == code;
        assert alerts[k + 1].code == code;
      }
      if HasCode(alerts, code) && alerts[0].code != code {
        var k :| 0 <= k < |alerts| && alerts[k].code == code;
        assert alerts[1..][k - 1].code == code;
      }
    }
  }

  /** Each loop in "error" yields one critical `loop_error`, each "exited" loop
      one warning `loop_exited`, and no other status yields anything. */
  lemma {:induction false} LoopAlertsCount(loops: seq<LoopMetric>)
    ensures CountCode(LoopAlerts(loops), "loop_error") == CountStatus(loops, "error")
    ensures CountCode(LoopAlerts(loops), "loop_exited") == CountStatus(loops, "exited")
    ensures |LoopAlerts(loops)| == CountStatus(loops, "error") + CountStatus(loops, "exited")
    ensures forall k :: 0 <= k < |LoopAlerts(loops)| ==>
      (LoopAlerts(loops)[k].code == "loop_error" && LoopAlerts(loops)[k].severity == "critical")
      || (LoopAlerts(loops)[k].code == "loop_exited" && LoopAlerts(loops)[k].severity == "warning")
  {
    if loops != [] {
      LoopAlertsCount(loops[1..]);
      var a := LoopAlert(loops[0]);
      var head := if a.Some? then [a.value] else [];
      CountCodeAppend(head, LoopAlerts(loops[1..]), "loop_error");
      CountCodeAppend(head, LoopAlerts(loops[1..]), "loop_exited");
    }
  }

  /** One `runner_degraded` per runner with at least the minimum number of
      ticks and a success rate under the threshold, and nothing else. */
  lemma {:induction false} RunnerAlertsCount(runners: seq<RunnerMetric>, cfg: OpsConfig)
    ensures CountCode(RunnerAlerts(runners, cfg), "runner_degraded") == CountDegraded(runners, cfg)
    ensures |RunnerAlerts(runners, cfg)| == CountDegraded(runners, cfg)
    ensures forall k :: 0 <= k < |RunnerAlerts(runners, cfg)| ==> RunnerAlerts(runners, cfg)[k].code == "runner_degraded"
  {
    if runners != [] {
      RunnerAlertsCount(runners[1..], cfg);
      var head := if Degraded(runners[0], cfg) then [RunnerAlert(runners[0])] else [];
      CountCodeAppend(head, RunnerAlerts(runners[1..], cfg), "runner_degraded");
    }
  }

  lemma RunnerOtherCode(runners: seq<RunnerMetric>, cfg: OpsConfig, code: string)
    requires code != "runner_degraded"
    ensures CountCode(RunnerAlerts(runners, cfg), code) == 0
  {
    RunnerAlertsCount(runners, cfg);
    NoCode(RunnerAlerts(runners, cfg), code);
  }

  lemma {:induction false} NoCode(alerts: seq<Alert>, code: string)
    requires forall k :: 0 <= k < |alerts| ==> alerts[k].code != code
    ensures CountCode(alerts, code) == 0
  {
    if alerts != [] {
      NoCode(alerts[1..], code);
    }
  }

  /** The count of a code over the whole list is the sum over the five rules. */
  lemma PartsCount(statusCounts: map<string, int>, loops: seq<LoopMetric>, runners: seq<RunnerMetric>,
                   queue: QueueData, activeRunners: int, cfg: OpsConfig, code: string)
    ensures CountCode(BuildAlerts(statusCounts, loops, runners, queue, activeRunners, cfg), code)
      == CountCode(LoopAlerts(loops), code) + CountCode(RunnerAlerts(runners, cfg), code)
      + CountCode(BacklogAlerts(queue, cfg), code) + CountCode(GenesisAlerts(queue, cfg), code)
      + CountCode(MismatchAlerts(statusCounts, activeRunners), code)
  {
    var la := LoopAlerts(loops);
    var ra := RunnerAlerts(runners, cfg);
    var ba := BacklogAlerts(queue, cfg);
    var ga := GenesisAlerts(queue, cfg);
    var ma := MismatchAlerts(statusCounts, activeRunners);
    CountCodeAppend(la, ra, code);
    CountCodeAppend(la + ra, ba, code);
    CountCodeAppend(la + ra + ba, ga, code);
    CountCodeAppend(la + ra + ba + ga, ma, code);
  }

  /** Neither loop nor runner rules ever raise a queue or mismatch code. */
  lemma ObjectRulesCodes(loops: seq<LoopMetric>, runners: seq<RunnerMetric>, cfg: OpsConfig, code: string)
    requires code != "loop_error" && code != "loop_exited" && code != "runner_degraded"
    ensures CountCode(LoopAlerts(loops), code) == 0
    ensures CountCode(RunnerAlerts(runners, cfg), code) == 0
  {
    LoopAlertsCount(loops);
    RunnerAlertsCount(runners, cfg);
    NoCode(LoopAlerts(loops), code);
    NoCode(RunnerAlerts(runners, cfg), code);
  }

  lemma BacklogCount(queue: QueueData, cfg: OpsConfig, code: string)
    ensures CountCode(BacklogAlerts(queue, cfg), code)
      == if code == "translator_backlog" && PendingTotal(queue) >= cfg.translatorBacklogThreshold then 1 else 0
  {
    if PendingTotal(queue) >= cfg.translatorBacklogThreshold {
      assert BacklogAlerts(queue, cfg)[1..] == [];
    }
  }

  lemma GenesisCount(queue: QueueData, cfg: OpsConfig, code: string)
    ensures CountCode(GenesisAlerts(queue, cfg), code)
      == if code == "genesis_backlog" && queue.generatingWorlds >= cfg.generatingWorldsThreshold then 1 else 0
  {
    if queue.generatingWorlds >= cfg.generatingWorldsThreshold {
      assert GenesisAlerts(queue, cfg)[1..] == [];
    }
  }

  lemma MismatchCount(statusCounts: map<string, int>, activeRunners: int, code: string)
    ensures CountCode(MismatchAlerts(statusCounts, activeRunners), code)
      == if code == "runner_mismatch" && RunningWorlds(statusCounts) > 0 && activeRunners == 0 then 1 else 0
  {
    if RunningWorlds(statusCounts) > 0 && activeRunners == 0 {
      assert MismatchAlerts(statusCounts, activeRunners)[1..] == [];
    }
  }

  /** The count of a code raised only by the three queue and registry rules. */
  lemma QueueCodeCount(statusCounts: map<string, int>, loops: seq<LoopMetric>, runners: seq<RunnerMetric>,
                       queue: QueueData, activeRunners: int, cfg: OpsConfig, code: string)
    requires code != "loop_error" && code != "loop_exited" && code != "runner_degraded"
    ensures CountCode(BuildAlerts(statusCounts, loops, runners, queue, activeRunners, cfg), code)
      == CountCode(BacklogAlerts(queue, cfg), code) + CountCode(GenesisAlerts(queue, cfg), code)
      + CountCode(MismatchAlerts(statusCounts, activeRunners), code)
  {
    PartsCount(statusCounts, loops, runners, queue, activeRunners, cfg, code);
    ObjectRulesCodes(loops, runners, cfg, code);
  }

  /** `translator_backlog` is raised exactly when the three pending counters
      add up to at least the backlog threshold. */
  lemma BacklogRule(statusCounts: map<string, int>, loops: seq<LoopMetric>, runners: seq<RunnerMetric>,
                    queue: QueueData, activeRunners: int, cfg: OpsConfig)
    ensures HasCode(BuildAlerts(statusCounts, loops, runners, queue, activeRunners, cfg), "translator_backlog")
      <==> PendingTotal(queue) >= cfg.translatorBacklogThreshold
  {
    var code := "translator_backlog";
    QueueCodeCount(statusCounts, loops, runners, queue, activeRunners, cfg, code);
    BacklogCount(queue, cfg, code);
    GenesisCount(queue, cfg, code);
    MismatchCount(statusCounts, activeRunners, code);
    HasCodeIffCount(BuildAlerts(statusCounts, loops, runners, queue, activeRunners, cfg), code);
  }

  /** `genesis_backlog` is raised exactly when at least the threshold number
      of worlds are generating. */
  lemma GenesisRule(statusCounts: map<string, int>, loops: seq<LoopMetric>, runners: seq<RunnerMetric>,
                    queue: QueueData, activeRunners: int, cfg: OpsConfig)
    ensures HasCode(BuildAlerts(statusCounts, loops, runners, queue, activeRunners, cfg), "genesis_backlog")
      <==> queue.generatingWorlds >= cfg.generatingWorldsThreshold
  {
    var code := "genesis_backlog";
    QueueCodeCount(statusCounts, loops, runners, queue, activeRunners, cfg, code);
    BacklogCount(queue, cfg, code);
    GenesisCount(queue, cfg, code);
    MismatchCount(statusCounts, activeRunners, code);
    HasCodeIffCount(BuildAlerts(statusCounts, loops, runners, queue, activeRunners, cfg), code);
  }

  /** `runner_mismatch` is raised exactly when some world is "running" and no
      registered runner is active. */
  lemma MismatchRule(statusCounts: map<string, int>, loops: seq<LoopMetric>, runners: seq<RunnerMetric>,
                     queue: QueueData, activeRunners: int, cfg: OpsConfig)
    ensures HasCode(BuildAlerts(statusCounts, loops, runners, queue, activeRunners, cfg), "runner_mismatch")
      <==> RunningWorlds(statusCounts) > 0 && activeRunners == 0
  {
    var code := "runner_mismatch";
    QueueCodeCount(statusCounts, loops, runners, queue, activeRunners, cfg, code);
    BacklogCount(queue, cfg, code);
    GenesisCount(queue, cfg, code);
    MismatchCount(statusCounts, activeRunners, code);
    HasCodeIffCount(BuildAlerts(statusCounts, loops, runners, queue, activeRunners, cfg), code);
  }

  lemma LoopErrorRule(statusCounts: map<string, int>, loops: seq<LoopMetric>, runners: seq<RunnerMetric>,
                       queue: QueueData, activeRunners: int, cfg: OpsConfig)
    ensures CountCode(BuildAlerts(statusCounts, loops, runners, queue, activeRunners, cfg), "loop_error")
      == CountStatus(loops, "error")
  {
    LoopAlertsCount(loops);
    PartsCount(statusCounts, loops, runners, queue, activeRunners, cfg, "loop_error");
    RunnerOtherCode(runners, cfg, "loop_error");
    BacklogCount(queue, cfg, "loop_error");
    GenesisCount(queue, cfg, "loop_error");
    MismatchCount(statusCounts, activeRunners, "loop_error");
  }

  lemma DegradedRule(statusCounts: map<string, int>, loops: seq<LoopMetric>, runners: seq<RunnerMetric>,
                     queue: QueueData, activeRunners: int, cfg: OpsConfig)
    ensures CountCode(BuildAlerts(statusCounts, loops, runners, queue, activeRunners, cfg), "runner_degraded")
      == CountDegraded(runners, cfg)
  {
    RunnerAlertsCount(runners, cfg);
    PartsCount(statusCounts, loops, runners, queue, activeRunners, cfg, "runner_degraded");
    LoopAlertsCount(loops);
    NoCode(LoopAlerts(loops), "runner_degraded");
    BacklogCount(queue, cfg, "runner_degraded");
    GenesisCount(queue, cfg, "runner_degraded");
    MismatchCount(statusCounts, activeRunners, "runner_degraded");
  }

  /** The whole list holds one `loop_error` per errored loop and one
      `runner_degraded` per degraded runner. */
  lemma ObjectRules(statusCounts: map<string, int>, loops: seq<LoopMetric>, runners: seq<RunnerMetric>,
                    queue: QueueData, activeRunners: int, cfg: OpsConfig)
    ensures CountCode(BuildAlerts(statusCounts, loops, runners, queue, activeRunners, cfg), "loop_error")
      == CountStatus(loops, "error")
    ensures CountCode(BuildAlerts(statusCounts, loops, runners, queue, activeRunners, cfg), "runner_degraded")
      == CountDegraded(runners, cfg)
  {
    LoopErrorRule(statusCounts, loops, runners, queue, activeRunners, cfg);
    DegradedRule(statusCounts, loops, runners, queue, activeRunners, cfg);
  }

  /** The rank of each code: the order in which the rules run. */
  function Rank(code: string): int {
    if code == "loop_error" || code == "loop_exited" then 0
    else if code == "runner_degraded" then 1
    else if code == "translator_backlog" then 2
    else if code == "genesis_backlog" then 3
    else 4
  }

  predicate RankedIn(alerts: seq<Alert>, lo: int, hi: int) {
    forall k :: 0 <= k < |alerts| ==> lo <= Rank(alerts[k].code) <= hi
  }

  predicate RankSorted(alerts: seq<Alert>) {
    forall i, j :: 0 <= i < j < |alerts| ==> Rank(alerts[i].code) <= Rank(alerts[j].code)
  }

  lemma RankSortedConcat(a: seq<Alert>, b: seq<Alert>, lo: int, mid: int, hi: int)
    requires RankSorted(a) && RankSorted(b)
    requires lo <= mid <= hi
    requires RankedIn(a, lo, mid) && RankedIn(b, mid, hi)
    ensures RankSorted(a + b) && RankedIn(a + b, lo, hi)
  {
    var c := a + b;
    forall i, j | 0 <= i < j < |c| ensures Rank(c[i].code) <= Rank(c[j].code) {
      if j < |a| {
        assert c[i] == a[i] && c[j] == a[j];
      } else if i >= |a| {
        assert c[i] == b[i - |a|] && c[j] == b[j - |a|];
      } else {
        assert c[i] == a[i] && c[j] == b[j - |a|];
      }
    }
    forall k | 0 <= k < |c| ensures lo <= Rank(c[k].code) <= hi {
      if k < |a| {
        assert c[k] == a[k];
      } else {
        assert c[k] == b[k - |a|];
      }
    }
  }

  lemma LoopAlertsRanked(loops: seq<LoopMetric>)
    ensures RankSorted(LoopAlerts(loops)) && RankedIn(LoopAlerts(loops), 0, 0)
  {
    LoopAlertsCount(loops);
  }

  lemma RunnerAlertsRanked(runners: seq<RunnerMetric>, cfg: OpsConfig)
    ensures RankSorted(RunnerAlerts(runners, cfg)) && RankedIn(RunnerAlerts(runners, cfg), 1, 1)
  {
    RunnerAlertsCount(runners, cfg);
  }

  lemma BacklogAlertsRanked(queue: QueueData, cfg: OpsConfig)
    ensures RankSorted(BacklogAlerts(queue, cfg)) && RankedIn(BacklogAlerts(queue, cfg), 2, 2)
  {
    assert Rank("translator_backlog") == 2;
  }

  lemma GenesisAlertsRanked(queue: QueueData, cfg: OpsConfig)
    ensures RankSorted(GenesisAlerts(queue, cfg)) && RankedIn(GenesisAlerts(queue, cfg), 3, 3)
  {
    assert Rank("genesis_backlog") == 3;
  }

  lemma MismatchAlertsRanked(statusCounts: map<string, int>, activeRunners: int)
    ensures RankSorted(MismatchAlerts(statusCounts, activeRunners)) && RankedIn(MismatchAlerts(statusCounts, activeRunners), 4, 4)
  {
    assert Rank("runner_mismatch") == 4;
  }

  /** Alerts come out loops first, then runners, backlog, genesis, mismatch. */
  lemma AlertsInRuleOrder(statusCounts: map<string, int>, loops: seq<LoopMetric>, runners: seq<RunnerMetric>,
                          queue: QueueData, activeRunners: int, cfg: OpsConfig)
    ensures RankSorted(BuildAlerts(statusCounts, loops, runners, queue, activeRunners, cfg))
  {
    var la := LoopAlerts(loops);
    var ra := RunnerAlerts(runners, cfg);
    var ba := BacklogAlerts(queue, cfg);
    var ga := GenesisAlerts(queue, cfg);
    var ma := MismatchAlerts(statusCounts, activeRunners);
    LoopAlertsRanked(loops);
    RunnerAlertsRanked(runners, cfg);
    BacklogAlertsRanked(queue, cfg);
    GenesisAlertsRanked(queue, cfg);
    MismatchAlertsRanked(statusCounts, activeRunners);
    RankSortedConcat(la, ra, 0, 1, 1);
    RankSortedConcat(la + ra, ba, 0, 2, 2);
    RankSortedConcat(la + ra + ba, ga, 0, 3, 3);
    RankSortedConcat(la + ra + ba + ga, ma, 0, 4, 4);
  }

  /** The healthy fixture: one running loop, one runner with 12 ticks and
      full success, one active runner, small queues: no alert at all. */
  lemma HealthySnapshotHasNoAlerts(world: WorldId, now: Time)
    ensures BuildAlerts(
      map["running" := 2, "paused" := 1],
      [LoopMetric("convergence", "running", 1, Some(now), None, None)],
      [RunnerMetric(world, "running", 12, 0, 1.0, Some(120), Some(110.0), Some(12), Some(now))],
      QueueData(3, 2, 1, 1), 1, DefaultOpsConfig) == []
  {
    var l := LoopMetric("convergence", "running", 1, Some(now), None, None);
    var r := RunnerMetric(world, "running", 12, 0, 1.0, Some(120), Some(110.0), Some(12), Some(now));
    assert LoopAlerts([l]) == LoopAlerts([]);
    assert RunnerAlerts([r], DefaultOpsConfig) == RunnerAlerts([], DefaultOpsConfig);
  }

  /** The degraded fixture: an errored loop, a runner at 0.66 after 15 ticks,
      65 pending translations, 6 generating worlds and 3 running worlds with
      no active runner: all five codes are raised. */
  lemma DegradedSnapshotRaisesAllCodes(world: WorldId, now: Time)
    ensures var alerts := BuildAlerts(
      map["running" := 3],
      [LoopMetric("taxonomy_builder", "error", 4, Some(now), Some(now), Some("timeout"))],
      [RunnerMetric(world, "degraded", 15, 5, 0.66, Some(800), Some(600.0), Some(100), Some(now))],
      QueueData(30, 20, 15, 6), 0, DefaultOpsConfig);
      |alerts| == 5 && alerts[0].code == "loop_error" && alerts[1].code == "runner_degraded"
      && alerts[2].code == "translator_backlog" && alerts[3].code == "genesis_backlog"
      && alerts[4].code == "runner_mismatch"
  {
    var l := LoopMetric("taxonomy_builder", "error", 4, Some(now), Some(now), Some("timeout"));
    var r := RunnerMetric(world, "degraded", 15, 5, 0.66, Some(800), Some(600.0), Some(100), Some(now));
    assert LoopAlerts([l]) == [LoopAlert(l).value];
    assert RunnerAlerts([r], DefaultOpsConfig) == [RunnerAlert(r)];
  }

  /** A loop reported through `note_loop_error` raises a critical alert naming it. */
  lemma ErroredLoopRaisesCritical(m: LoopMetric, error: string, now: Time)
    ensures var e := Errored(m, error, now);
      LoopAlerts([e]) == [LoopAlert(e).value]
      && LoopAlert(e).value.code == "loop_error" && LoopAlert(e).value.severity == "critical"
      && LoopAlert(e).value.context["loop"] == FStr(m.name)
  {
    var e := Errored(m, error, now);
    assert LoopAlerts([e]) == [LoopAlert(e).value] + LoopAlerts([]);
  }

  // ---------------------------------------------------------------------------
  // Snapshot assembly
  // ---------------------------------------------------------------------------

  function ByName(a: LoopMetric, b: LoopMetric): bool {
    Text.LexLe(a.name, b.name)
  }

  /** `uuid.hex`: the canonical text of the id without its dashes. */
  function Hex(w: WorldId): string {
    Sorting.Filter(w, (c: char) => c != '-')
  }

  function ByHex(a: RunnerMetric, b: RunnerMetric): bool {
    Text.LexLe(Hex(a.worldId), Hex(b.worldId))
  }

  lemma ByNamePreorder()
    ensures Sorting.TotalPreorder(ByName)
  {
    forall a: LoopMetric, b: LoopMetric ensures ByName(a, b) || ByName(b, a) {
      Text.LexLeTotal(a.name, b.name);
    }
    forall a: LoopMetric, b: LoopMetric, c: LoopMetric | ByName(a, b) && ByName(b, c) ensures ByName(a, c) {
      Text.LexLeTransitive(a.name, b.name, c.name);
    }
  }

  lemma ByHexPreorder()
    ensures Sorting.TotalPreorder(ByHex)
  {
    forall a: RunnerMetric, b: RunnerMetric ensures ByHex(a, b) || ByHex(b, a) {
      Text.LexLeTotal(Hex(a.worldId), Hex(b.worldId));
    }
    forall a: RunnerMetric, b: RunnerMetric, c: RunnerMetric | ByHex(a, b) && ByHex(b, c) ensures ByHex(a, c) {
      Text.LexLeTransitive(Hex(a.worldId), Hex(b.worldId), Hex(c.worldId));
    }
  }

  /** `loops.sort(key=name)` over the loop snapshot. */
  function SortLoops(loops: seq<LoopMetric>): seq<LoopMetric> {
    Sorting.Sort(loops, ByName)
  }

  /** `runners.sort(key=world_id.hex)` over the runner snapshot. */
  function SortRunners(runners: seq<RunnerMetric>): seq<RunnerMetric> {
    Sorting.Sort(runners, ByHex)
  }

  /** The snapshot lists every record once, ordered by loop name and by world id. */
  lemma SnapshotOrdering(loops: seq<LoopMetric>, runners: seq<RunnerMetric>)
    ensures multiset(SortLoops(loops)) == multiset(loops)
    ensures forall i, j :: 0 <= i < j < |SortLoops(loops)| ==>
      Text.LexLe(SortLoops(loops)[i].name, SortLoops(loops)[j].name)
    ensures multiset(SortRunners(runners)) == multiset(runners)
    ensures forall i, j :: 0 <= i < j < |SortRunners(runners)| ==>
      Text.LexLe(Hex(SortRunners(runners)[i].worldId), Hex(SortRunners(runners)[j].worldId))
  {
    ByNamePreorder();
    Sorting.SortSorted(loops, ByName);
    ByHexPreorder();
    Sorting.SortSorted(runners, ByHex);
  }

  /** `active_runners`: the registry entries whose runner is running. */
  function ActiveRunners(running: map<WorldId, bool>): (n: nat)
    ensures n <= |running|
  {
    var active := set w | w in running && running[w];
    assert active <= running.Keys;
    Consensus.SubsetCard(active, running.Keys);
    |active|
  }

  /** No active runner exactly when no registered runner is running, so with
      running worlds the mismatch alert fires exactly then. */
  lemma ActiveRunnersZero(running: map<WorldId, bool>)
    ensures ActiveRunners(running) == 0 <==> forall w :: w in running ==> !running[w]
  {
    var active := set w | w in running && running[w];
    if ActiveRunners(running) == 0 {
      assert active == {};
      forall w | w in running ensures !running[w] {
        assert running[w] ==> w in active;
      }
    } else {
      var w :| w in active;
    }
  }
}
