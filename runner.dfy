/** The simulation runner of one world: a loop that runs one tick every few
    seconds, counts ticks and failed ticks, measures how late each tick
    starts, reports both to the runtime metrics, and keeps the rolling buffer
    of conversation summaries that feeds the wiki at each epoch change. */
module Runner {
  import opened Wrappers
  import opened Envelopes
  import Text
  import TimeDilation
  import Conversation

  /** The pause between two ticks, in milliseconds (five seconds). */
  const TickIntervalMs: int := 5000

  /** How late the tick starting at `now` is against the schedule set by the
      previous start, in whole milliseconds; 0 for the first tick and for a
      tick that is on time or early. */
  function TickDelay(lastStart: Option<int>, now: int): (d: nat)
    ensures lastStart.None? ==> d == 0
    ensures lastStart.Some? ==> d >= now - (lastStart.value + TickIntervalMs)
    ensures lastStart.Some? && d > 0 ==> d == now - (lastStart.value + TickIntervalMs)
  {
    match lastStart
    case None => 0
    case Some(last) =>
      var late := now - (last + TickIntervalMs);
      if late > 0 then late else 0
  }

  /** The success rate reported after `total` ticks of which `failures` failed. */
  function SuccessRate(total: nat, failures: nat): real {
    if total == 0 then 0.0 else (total - failures) as real / total as real
  }

  /** The rate is a fraction: 1 exactly when no tick failed, 0 exactly when
      every tick failed. */
  lemma SuccessRateBounds(total: nat, failures: nat)
    requires 0 < total && failures <= total
    ensures 0.0 <= SuccessRate(total, failures) <= 1.0
    ensures SuccessRate(total, failures) == 1.0 <==> failures == 0
    ensures SuccessRate(total, failures) == 0.0 <==> failures == total
  {
    var r := SuccessRate(total, failures);
    var t, f := total as real, (total - failures) as real;
    assert r == f / t;
    assert r * t == f;
    if r == 0.0 {
      assert f == 0.0;
    }
    if r == 1.0 {
      assert f == t;
    }
  }

  // ---------------------------------------------------------------------------
  // Summaries and topics
  // ---------------------------------------------------------------------------

  /** The fixed part of a summary before the topic: "[E{epoch}T{tick}] ". */
  function SummaryHead(epoch: int, tick: int): string {
    "[E" + Text.IntToString(epoch) + "T" + Text.IntToString(tick) + "] "
  }

  /** "[E{epoch}T{tick}] {topic}: {n} messages". */
  function Summary(epoch: int, tick: int, topic: string, messageCount: nat): string {
    SummaryHead(epoch, tick) + (topic + SummaryTail(messageCount))
  }

  /** The part after the topic: ": {n} messages". */
  function SummaryTail(messageCount: nat): string {
    ": " + Text.NatToString(messageCount) + " messages"
  }

  /** The topic read back from a summary: the text after the first "] " up to
      the first ':'; `None` when the summary holds no "] ". */
  function TopicOf(s: string): (r: Option<string>)
    ensures r.None? <==> !Text.Contains(s, "] ")
  {
    match Text.Find(s, "] ")
    case None => None
    case Some(k) => Some(Text.BeforeChar(s[k + 2..], ':'))
  }

  lemma HeadHasNoBracket(epoch: int, tick: int)
    ensures forall i :: 0 <= i < |SummaryHead(epoch, tick)| - 2 ==> SummaryHead(epoch, tick)[i] != ']'
    ensures SummaryHead(epoch, tick)[|SummaryHead(epoch, tick)| - 2..] == "] "
  {
    var e := Text.IntToString(epoch);
    var t := Text.IntToString(tick);
    var h := SummaryHead(epoch, tick);
    assert h == "[E" + e + "T" + t + "] ";
    forall i | 0 <= i < |h| - 2 ensures h[i] != ']' {
      if i < 2 {
      } else if i < 2 + |e| {
        assert h[i] == e[i - 2];
        DigitOrMinus(epoch, i - 2);
      } else if i == 2 + |e| {
      } else {
        assert h[i] == t[i - 3 - |e|];
        DigitOrMinus(tick, i - 3 - |e|);
      }
    }
  }

  lemma DigitOrMinus(n: int, i: int)
    requires 0 <= i < |Text.IntToString(n)|
    ensures Text.IntToString(n)[i] != ']'
  {
    var s := Text.IntToString(n);
    if n < 0 {
      if i > 0 {
        assert s[i] == Text.NatToString(-n)[i - 1];
      }
    }
  }

  /** The first "] " of a text that starts with a head ending in "] " and
      holding no other ']' is the one that ends the head. */
  lemma FirstBracket(h: string, rest: string)
    requires |h| >= 2 && h[|h| - 2..] == "] "
    requires forall i :: 0 <= i < |h| - 2 ==> h[i] != ']'
    ensures Text.Find(h + rest, "] ") == Some(|h| - 2)
  {
    var s := h + rest;
    var k := |h| - 2;
    assert s[k..k + 2] == h[k..];
    assert Text.OccursAt(s, "] ", k);
    forall j | 0 <= j < k ensures !Text.OccursAt(s, "] ", j) {
      assert s[j] == h[j];
    }
  }

  lemma BeforeColon(topic: string, tail: string)
    requires forall i :: 0 <= i < |topic| ==> topic[i] != ':'
    requires tail != [] && tail[0] == ':'
    ensures Text.BeforeChar(topic + tail, ':') == topic
  {
    var s := topic + tail;
    var r := Text.BeforeChar(s, ':');
    assert forall i :: 0 <= i < |topic| ==> s[i] == topic[i];
    assert s[|topic|] == ':';
  }

  /** Reading the topic back from a summary gives the topic itself whenever
      the topic holds no ':'. */
  lemma TopicRoundTrip(epoch: int, tick: int, topic: string, messageCount: nat)
    requires forall i :: 0 <= i < |topic| ==> topic[i] != ':'
    ensures TopicOf(Summary(epoch, tick, topic, messageCount)) == Some(topic)
  {
    var h := SummaryHead(epoch, tick);
    var tail := SummaryTail(messageCount);
    var s := Summary(epoch, tick, topic, messageCount);
    HeadHasNoBracket(epoch, tick);
    FirstBracket(h, topic + tail);
    assert s[|h|..] == topic + tail;
    BeforeColon(topic, tail);
  }

  lemma FirstTopicsHaveNoColon(k: nat)
    requires 0 <= k < 4
    ensures forall i :: 0 <= i < |Conversation.BuiltinTopics[k]| ==> Conversation.BuiltinTopics[k][i] != ':'
  {
    var t := Conversation.BuiltinTopics[k];
    if k == 0 {
      assert t == "resource distribution";
    } else if k == 1 {
      assert t == "territorial boundaries";
    } else if k == 2 {
      assert t == "trade agreements";
    } else {
      assert t == "recent mysterious events";
    }
  }

  lemma MiddleTopicsHaveNoColon(k: nat)
    requires 4 <= k < 8
    ensures forall i :: 0 <= i < |Conversation.BuiltinTopics[k]| ==> Conversation.BuiltinTopics[k][i] != ':'
  {
    var t := Conversation.BuiltinTopics[k];
    if k == 4 {
      assert t == "leadership disputes";
    } else if k == 5 {
      assert t == "ancient prophecies";
    } else if k == 6 {
      assert t == "technological discoveries";
    } else {
      assert t == "cultural traditions";
    }
  }

  lemma LastTopicsHaveNoColon(k: nat)
    requires 8 <= k < 12
    ensures forall i :: 0 <= i < |Conversation.BuiltinTopics[k]| ==> Conversation.BuiltinTopics[k][i] != ':'
  {
    var t := Conversation.BuiltinTopics[k];
    if k == 8 {
      assert t == "military strategy";
    } else if k == 9 {
      assert t == "diplomatic relations";
    } else if k == 10 {
      assert t == "spiritual beliefs";
    } else {
      assert t == "economic reforms";
    }
  }

  /** Every topic a conversation can have is read back unchanged. */
  lemma BuiltinTopicsRecovered(epoch: int, tick: int, k: nat, messageCount: nat)
    requires k < |Conversation.BuiltinTopics|
    ensures TopicOf(Summary(epoch, tick, Conversation.BuiltinTopics[k], messageCount))
      == Some(Conversation.BuiltinTopics[k])
  {
    var t := Conversation.BuiltinTopics[k];
    if k < 4 {
      FirstTopicsHaveNoColon(k);
    } else if k < 8 {
      MiddleTopicsHaveNoColon(k);
    } else {
      LastTopicsHaveNoColon(k);
    }
    TopicRoundTrip(epoch, tick, t, messageCount);
  }

  /** The topics read from the last ten summaries. */
  function RecentTopics(summaries: seq<string>): (r: set<string>)
    ensures forall t :: t in r <==> exists s :: s in Text.Last(summaries, 10) && TopicOf(s) == Some(t)
  {
    var recent := Text.Last(summaries, 10);
    set s | s in recent && TopicOf(s).Some? :: TopicOf(s).value
  }

  /** `list(topics)[:3]`: at most three distinct topics, in the set's
      iteration order, which is not specified and so is modelled as an
      arbitrary choice. */
  method WikiTopics(summaries: seq<string>) returns (chosen: seq<string>)
    ensures |chosen| == if |RecentTopics(summaries)| < 3 then |RecentTopics(summaries)| else 3
    ensures forall t :: t in chosen ==> t in RecentTopics(summaries)
    ensures forall i, j :: 0 <= i < j < |chosen| ==> chosen[i] != chosen[j]
  {
    chosen := TakeDistinct(RecentTopics(summaries), 3);
  }

  /** Up to `n` distinct elements of `all`, in an unspecified order. */
  method TakeDistinct<T>(all: set<T>, n: nat) returns (chosen: seq<T>)
    ensures |chosen| == if |all| < n then |all| else n
    ensures forall t :: t in chosen ==> t in all
    ensures forall i, j :: 0 <= i < j < |chosen| ==> chosen[i] != chosen[j]
  {
    var pool := all;
    var goal := if |pool| < n then |pool| else n;
    chosen := [];
    while |chosen| < goal
      invariant |chosen| <= goal
      invariant |pool| + |chosen| == |all|
      invariant pool <= all
      invariant forall t :: t in chosen ==> t in all && t !in pool
      invariant forall i, j :: 0 <= i < j < |chosen| ==> chosen[i] != chosen[j]
      decreases goal - |chosen|
    {
      var t :| t in pool;
      chosen := chosen + [t];
      pool := pool - {t};
    }
  }

  // ---------------------------------------------------------------------------
  // The tick loop
  // ---------------------------------------------------------------------------

  /** What the conversation step of a tick produced. */
  datatype TurnOutcome = TurnOutcome(topic: string, messageCount: nat)

  /** How `_tick` ended: it completed, or it raised before the summary was
      recorded, or it raised after that (and before the buffer was cleared). */
  datatype TickResult = Completed(turn: TurnOutcome) | FailedBeforeSummary | FailedAfterSummary(turn: TurnOutcome)

  /** One pass of the loop: the clock reading at its start, the world row's
      clock (`None` when the row is gone), the tick's duration and how the
      tick ended. */
  datatype Iteration = Iteration(now: int, world: Option<TimeDilation.Clock>, durationMs: nat, result: TickResult)

  /** How the loop ends when the world never goes missing: `stop` cleared the
      flag, the asyncio task was cancelled while sleeping, or an exception escaped. */
  datatype LoopExit = Stopped | Cancelled | Crashed

  /** The calls the runner makes on the runtime metrics. */
  datatype RunnerNote =
    | StatusNote(status: string)
    | TickNote(tickOk: bool, ticksTotal: nat, tickFailures: nat, successRate: real, durationMs: nat, tickDelayMs: nat)

  datatype RunnerState = RunnerState(
    running: bool,
    summaries: seq<string>,
    lastStart: Option<int>,
    ticksTotal: nat,
    tickFailures: nat)

  /** The summary buffer after the conversation step. */
  function WithSummary(summaries: seq<string>, c: TimeDilation.Clock, turn: TurnOutcome): seq<string> {
    if turn.messageCount > 0 then summaries + [Summary(c.epoch, c.tick, turn.topic, turn.messageCount)]
    else summaries
  }

  /** The summary buffer after a tick. */
  function SummariesAfter(summaries: seq<string>, c: TimeDilation.Clock, result: TickResult, ticksPerEpoch: int): seq<string> {
    match result
    case Completed(turn) =>
      if TimeDilation.Advance(c, ticksPerEpoch).1 then [] else WithSummary(summaries, c, turn)
    case FailedBeforeSummary => summaries
    case FailedAfterSummary(turn) => WithSummary(summaries, c, turn)
  }

  /** One iteration on a present world. */
  function Iterate(s: RunnerState, it: Iteration, ticksPerEpoch: int): (RunnerState, RunnerNote)
    requires it.world.Some?
  {
    var delay := TickDelay(s.lastStart, it.now);
    var ok := it.result.Completed?;
    var total := s.ticksTotal + 1;
    var failures := if ok then s.tickFailures else s.tickFailures + 1;
    (RunnerState(s.running, SummariesAfter(s.summaries, it.world.value, it.result, ticksPerEpoch), Some(it.now), total, failures),
     TickNote(ok, total, failures, SuccessRate(total, failures), it.durationMs, delay))
  }

  /** The iterations of `script`, in order, until a world is missing; the
      flag says whether one was. */
  function RunTicks(s: RunnerState, script: seq<Iteration>, ticksPerEpoch: int): (r: (RunnerState, seq<RunnerNote>, bool))
    decreases |script|
  {
    if script == [] then (s, [], false)
    else
      var (s1, notes, missing) := RunTicks(s, script[..|script| - 1], ticksPerEpoch);
      var it := script[|script| - 1];
      if missing then (s1, notes, true)
      else if it.world.None? then (s1.(lastStart := Some(it.now)), notes + [StatusNote("missing_world")], true)
      else
        var (s2, note) := Iterate(s1, it, ticksPerEpoch);
        (s2, notes + [note], false)
  }

  lemma RunTicksSnoc(s: RunnerState, script: seq<Iteration>, i: nat, ticksPerEpoch: int)
    requires i < |script|
    ensures var r := RunTicks(s, script[..i], ticksPerEpoch);
      var it := script[i];
      RunTicks(s, script[..i + 1], ticksPerEpoch)
      == if r.2 then r
         else if it.world.None? then (r.0.(lastStart := Some(it.now)), r.1 + [StatusNote("missing_world")], true)
         else (Iterate(r.0, it, ticksPerEpoch).0, r.1 + [Iterate(r.0, it, ticksPerEpoch).1], false)
  {
    assert script[..i + 1][..i] == script[..i];
  }

  /** `_run_loop`: "running", the iterations while the flag is set, the exit
      status, and always "stopped" with the flag cleared. */
  function RunLoopSpec(s: RunnerState, script: seq<Iteration>, exit: LoopExit, ticksPerEpoch: int): (RunnerState, seq<RunnerNote>) {
    var (s1, notes, missing) := if s.running then RunTicks(s, script, ticksPerEpoch) else (s, [], false);
    var exitNotes :=
      if missing || !s.running then []
      else match exit
        case Stopped => []
        case Cancelled => [StatusNote("cancelled")]
        case Crashed => [StatusNote("error")];
    (s1.(running := false), [StatusNote("running")] + notes + exitNotes + [StatusNote("stopped")])
  }

  predicate HasMissing(script: seq<Iteration>) {
    exists k :: 0 <= k < |script| && script[k].world.None?
  }

  function CountFailed(script: seq<Iteration>): nat {
    if script == [] then 0
    else CountFailed(script[..|script| - 1]) + (if script[|script| - 1].result.Completed? then 0 else 1)
  }

  /** A tick note is consistent: failures never exceed ticks and the rate is
      the fraction of good ticks. */
  predicate SoundNote(n: RunnerNote) {
    n.TickNote? ==>
      && 0 < n.ticksTotal && n.tickFailures <= n.ticksTotal
      && n.successRate == SuccessRate(n.ticksTotal, n.tickFailures)
      && 0.0 <= n.successRate <= 1.0
  }

  /** Without a missing world every iteration runs one tick: the tick count
      grows by the number of iterations, the failure count by the number of
      failed ticks, failed ticks do not end the loop, and every report is
      consistent. */
  lemma {:induction false} RunTicksCounts(s: RunnerState, script: seq<Iteration>, ticksPerEpoch: int)
    requires s.tickFailures <= s.ticksTotal
    requires !HasMissing(script)
    ensures var (s1, notes, missing) := RunTicks(s, script, ticksPerEpoch);
      && !missing
      && s1.ticksTotal == s.ticksTotal + |script|
      && s1.tickFailures == s.tickFailures + CountFailed(script)
      && s1.tickFailures <= s1.ticksTotal
      && |notes| == |script|
      && (forall k :: 0 <= k < |notes| ==> notes[k].TickNote? && SoundNote(notes[k]))
  {
    if script != [] {
      var init := script[..|script| - 1];
      assert !HasMissing(init) by {
        forall k | 0 <= k < |init| ensures init[k].world.Some? {
          assert init[k] == script[k];
        }
      }
      assert script[|script| - 1].world.Some?;
      RunTicksCounts(s, init, ticksPerEpoch);
      var (s1, notes, missing) := RunTicks(s, init, ticksPerEpoch);
      var (s2, note) := Iterate(s1, script[|script| - 1], ticksPerEpoch);
      SuccessRateBounds(s2.ticksTotal, s2.tickFailures);
    }
  }

  /** Once a world is missing the loop has ended: later iterations never run. */
  lemma {:induction false} NothingAfterMissing(s: RunnerState, script: seq<Iteration>, extra: seq<Iteration>, ticksPerEpoch: int)
    requires RunTicks(s, script, ticksPerEpoch).2
    ensures RunTicks(s, script + extra, ticksPerEpoch) == RunTicks(s, script, ticksPerEpoch)
  {
    if extra == [] {
      assert script + extra == script;
    } else {
      var init := extra[..|extra| - 1];
      NothingAfterMissing(s, script, init, ticksPerEpoch);
      var all := script + extra;
      assert all[..|all| - 1] == script + init;
      var r := RunTicks(s, script + init, ticksPerEpoch);
      assert r.2;
    }
  }

  /** A missing world at position `k`, after `k` good rows: exactly `k` ticks
      are reported, then "missing_world", and nothing else runs. */
  lemma MissingWorldEndsLoop(s: RunnerState, script: seq<Iteration>, k: nat, ticksPerEpoch: int)
    requires s.tickFailures <= s.ticksTotal
    requires k < |script| && script[k].world.None? && !HasMissing(script[..k])
    ensures var (s1, notes, missing) := RunTicks(s, script, ticksPerEpoch);
      && missing
      && s1.ticksTotal == s.ticksTotal + k
      && |notes| == k + 1 && notes[k] == StatusNote("missing_world")
      && (forall j :: 0 <= j < k ==> notes[j].TickNote?)
  {
    var pre := script[..k];
    var upto := script[..k + 1];
    RunTicksCounts(s, pre, ticksPerEpoch);
    var r := RunTicks(s, pre, ticksPerEpoch);
    assert upto == pre + [script[k]];
    MissingAppended(s, pre, script[k], ticksPerEpoch);
    NothingAfterMissing(s, upto, script[k + 1..], ticksPerEpoch);
    SplitAfter(script, k);
    var notes := r.1 + [StatusNote("missing_world")];
    assert forall j :: 0 <= j < k ==> notes[j] == r.1[j];
  }

  lemma SplitAfter<T>(s: seq<T>, k: nat)
    requires k < |s|
    ensures s[..k + 1] + s[k + 1..] == s
  {
  }

  lemma MissingAppended(s: RunnerState, pre: seq<Iteration>, it: Iteration, ticksPerEpoch: int)
    requires !RunTicks(s, pre, ticksPerEpoch).2 && it.world.None?
    ensures var r := RunTicks(s, pre, ticksPerEpoch);
      RunTicks(s, pre + [it], ticksPerEpoch) == (r.0.(lastStart := Some(it.now)), r.1 + [StatusNote("missing_world")], true)
  {
    var all := pre + [it];
    assert all[..|all| - 1] == pre && all[|all| - 1] == it;
  }

  /** Whatever happens, the loop reports "running" first and "stopped" last,
      and leaves the flag cleared. */
  lemma LoopAlwaysStops(s: RunnerState, script: seq<Iteration>, exit: LoopExit, ticksPerEpoch: int)
    ensures var (s1, notes) := RunLoopSpec(s, script, exit, ticksPerEpoch);
      !s1.running && |notes| >= 2 && notes[0] == StatusNote("running")
      && notes[|notes| - 1] == StatusNote("stopped")
  {
  }

  /** An epoch change clears the summary buffer; a tick inside an epoch keeps
      it and adds one summary exactly when the turn had messages. */
  lemma SummaryBuffer(summaries: seq<string>, c: TimeDilation.Clock, turn: TurnOutcome, ticksPerEpoch: int)
    ensures c.tick + 1 >= ticksPerEpoch ==> SummariesAfter(summaries, c, Completed(turn), ticksPerEpoch) == []
    ensures c.tick + 1 < ticksPerEpoch && turn.messageCount > 0 ==>
      SummariesAfter(summaries, c, Completed(turn), ticksPerEpoch)
        == summaries + [Summary(c.epoch, c.tick, turn.topic, turn.messageCount)]
    ensures c.tick + 1 < ticksPerEpoch && turn.messageCount == 0 ==>
      SummariesAfter(summaries, c, Completed(turn), ticksPerEpoch) == summaries
    ensures SummariesAfter(summaries, c, FailedBeforeSummary, ticksPerEpoch) == summaries
  {
  }

  class SimulationRunner {
    const worldId: WorldId
    var running: bool
    var summaries: seq<string>
    var lastTickStartedAt: Option<int>
    var ticksTotal: nat
    var tickFailures: nat

    function State(): RunnerState
      reads this
    {
      RunnerState(running, summaries, lastTickStartedAt, ticksTotal, tickFailures)
    }

    constructor(worldId: WorldId)
      ensures this.worldId == worldId
      ensures State() == RunnerState(false, [], None, 0, 0)
    {
      this.worldId := worldId;
      running := false;
      summaries := [];
      lastTickStartedAt := None;
      ticksTotal := 0;
      tickFailures := 0;
    }

    /** `start`: sets the flag and reports "starting"; the asyncio task it spawns is
        `RunLoop`. */
    method Start() returns (notes: seq<RunnerNote>)
      modifies this
      ensures State() == old(State()).(running := true)
      ensures notes == [StatusNote("starting")]
    {
      running := true;
      notes := [StatusNote("starting")];
    }

    /** `stop`: clears the flag and reports "stopping". */
    method Stop() returns (notes: seq<RunnerNote>)
      modifies this
      ensures State() == old(State()).(running := false)
      ensures notes == [StatusNote("stopping")]
    {
      running := false;
      notes := [StatusNote("stopping")];
    }

    /** One pass of `_run_loop` with a world: the delay since the last
        start, the counters, the summary buffer and the metric report. */
    method Tick(it: Iteration, c: TimeDilation.Clock, ticksPerEpoch: int) returns (note: RunnerNote)
      requires it.world == Some(c)
      modifies this
      ensures (State(), note) == Iterate(old(State()), it, ticksPerEpoch)
    {
      var delay := TickDelay(lastTickStartedAt, it.now);
      lastTickStartedAt := Some(it.now);
      var ok := it.result.Completed?;
      if !ok {
        tickFailures := tickFailures + 1;
      }
      summaries := SummariesAfter(summaries, c, it.result, ticksPerEpoch);
      ticksTotal := ticksTotal + 1;
      note := TickNote(ok, ticksTotal, tickFailures, SuccessRate(ticksTotal, tickFailures), it.durationMs, delay);
    }

    /** `_run_loop` over the passes `script`, which ends as `exit` says
        unless a world goes missing first. */
    method RunLoop(script: seq<Iteration>, exit: LoopExit, ticksPerEpoch: int) returns (notes: seq<RunnerNote>)
      modifies this
      ensures (State(), notes) == RunLoopSpec(old(State()), script, exit, ticksPerEpoch)
    {
      ghost var s0 := State();
      var wasRunning := running;
      var missing := false;
      var ticks: seq<RunnerNote> := [];
      if wasRunning {
        var i := 0;
        while i < |script| && !missing
          invariant 0 <= i <= |script|
          invariant (State(), ticks, missing) == RunTicks(s0, script[..i], ticksPerEpoch)
          invariant missing ==> RunTicks(s0, script, ticksPerEpoch) == RunTicks(s0, script[..i], ticksPerEpoch)
        {
          var it := script[i];
          RunTicksSnoc(s0, script, i, ticksPerEpoch);
          match it.world {
            case None =>
              lastTickStartedAt := Some(it.now);
              ticks := ticks + [StatusNote("missing_world")];
              missing := true;
              NothingAfterMissing(s0, script[..i + 1], script[i + 1..], ticksPerEpoch);
              assert script[..i + 1] + script[i + 1..] == script;
            case Some(c) =>
              var note := Tick(it, c, ticksPerEpoch);
              ticks := ticks + [note];
          }
          i := i + 1;
        }
        assert !missing ==> script[..i] == script;
      }
      var exitNotes: seq<RunnerNote> := [];
      if wasRunning && !missing {
        match exit {
          case Stopped =>
          case Cancelled => exitNotes := [StatusNote("cancelled")];
          case Crashed => exitNotes := [StatusNote("error")];
        }
      }
      running := false;
      notes := [StatusNote("running")] + ticks + exitNotes + [StatusNote("stopped")];
    }
  }
}
