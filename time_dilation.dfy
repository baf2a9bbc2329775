/** The epoch clock: every tick advances a world's tick counter, and when it
    reaches the number of ticks per epoch the counter wraps to 0, the epoch
    moves on by one and an `epoch.transition` envelope is broadcast. */
module TimeDilation {
  import opened Wrappers
  import opened Envelopes
  import opened Rows

  /** `settings.ticks_per_epoch` in the application configuration. */
  const DefaultTicksPerEpoch: int := 10

  /** `ticks_per_epoch or settings.ticks_per_epoch`: `None` and `0` are falsy
      and fall back to the setting; any other value, negative ones included,
      is kept. */
  function ResolveTicksPerEpoch(arg: Option<int>): int {
    if arg.None? || arg.value == 0 then DefaultTicksPerEpoch else arg.value
  }

  lemma ResolveFallsBack(arg: Option<int>)
    ensures ResolveTicksPerEpoch(arg) == DefaultTicksPerEpoch <==>
      (arg.None? || arg.value == 0 || arg.value == DefaultTicksPerEpoch)
    ensures arg.Some? && arg.value != 0 ==> ResolveTicksPerEpoch(arg) == arg.value
  {
  }

  /** The part of a world row the clock reads and writes. */
  datatype Clock = Clock(tick: int, epoch: int)

  /** The new clock after one `advance_tick`, and whether an epoch ended. */
  function Advance(c: Clock, ticksPerEpoch: int): (r: (Clock, bool))
    ensures r.1 <==> c.tick + 1 >= ticksPerEpoch
    ensures r.1 ==> r.0 == Clock(0, c.epoch + 1)
    ensures !r.1 ==> r.0 == Clock(c.tick + 1, c.epoch)
  {
    var t := c.tick + 1;
    if t >= ticksPerEpoch then (Clock(0, c.epoch + 1), true) else (Clock(t, c.epoch), false)
  }

  /** The range every in-epoch tick lives in. */
  predicate InEpoch(c: Clock, ticksPerEpoch: int) {
    0 <= c.tick < ticksPerEpoch
  }

  /** `0 <= tick < ticks_per_epoch` is kept by every advance. */
  lemma AdvanceKeepsRange(c: Clock, ticksPerEpoch: int)
    requires InEpoch(c, ticksPerEpoch)
    ensures InEpoch(Advance(c, ticksPerEpoch).0, ticksPerEpoch)
    ensures Advance(c, ticksPerEpoch).0.epoch - c.epoch in {0, 1}
  {
  }

  /** The clocks and return values of `n` consecutive advances. */
  function Run(c: Clock, ticksPerEpoch: int, n: nat): (r: (Clock, seq<bool>))
    ensures |r.1| == n
    decreases n
  {
    if n == 0 then (c, [])
    else
      var (c1, b) := Advance(c, ticksPerEpoch);
      var (cn, bs) := Run(c1, ticksPerEpoch, n - 1);
      (cn, [b] + bs)
  }

  /** Within an epoch, `n` advances only count ticks up and report no transition. */
  lemma {:induction false} RunWithinEpoch(c: Clock, ticksPerEpoch: int, n: nat)
    requires 0 <= c.tick && c.tick + n < ticksPerEpoch
    ensures Run(c, ticksPerEpoch, n).0 == Clock(c.tick + n, c.epoch)
    ensures forall i :: 0 <= i < n ==> !Run(c, ticksPerEpoch, n).1[i]
    decreases n
  {
    if n > 0 {
      RunWithinEpoch(Clock(c.tick + 1, c.epoch), ticksPerEpoch, n - 1);
    }
  }

  /** From a fresh epoch the first `ticksPerEpoch - 1` advances return false
      and the next one returns true and leaves the tick at 0 in the next epoch:
      with the default of 10, nine calls return false and the tenth true. */
  lemma {:induction false} FullEpoch(epoch: int, ticksPerEpoch: int)
    requires ticksPerEpoch >= 1
    ensures var r := Run(Clock(0, epoch), ticksPerEpoch, ticksPerEpoch);
      r.0 == Clock(0, epoch + 1)
      && (forall i :: 0 <= i < ticksPerEpoch - 1 ==> !r.1[i])
      && r.1[ticksPerEpoch - 1]
  {
    RunSplit(Clock(0, epoch), ticksPerEpoch, ticksPerEpoch - 1);
    RunWithinEpoch(Clock(0, epoch), ticksPerEpoch, ticksPerEpoch - 1);
  }

  lemma {:induction false} RunSplit(c: Clock, ticksPerEpoch: int, n: nat)
    ensures var r := Run(c, ticksPerEpoch, n);
      var a := Advance(r.0, ticksPerEpoch);
      Run(c, ticksPerEpoch, n + 1) == (a.0, r.1 + [a.1])
    decreases n
  {
    if n == 0 {
      var a := Advance(c, ticksPerEpoch);
      assert Run(a.0, ticksPerEpoch, 0) == (a.0, []);
      assert Run(c, ticksPerEpoch, 1) == (a.0, [a.1] + []);
      assert [a.1] + [] == [] + [a.1];
    } else {
      var (c1, b) := Advance(c, ticksPerEpoch);
      RunSplit(c1, ticksPerEpoch, n - 1);
      var (cm, bm) := Run(c1, ticksPerEpoch, n - 1);
      var (cl, bl) := Advance(cm, ticksPerEpoch);
      assert Run(c, ticksPerEpoch, n) == (cm, [b] + bm);
      assert Run(c, ticksPerEpoch, n + 1) == (cl, [b] + (bm + [bl]));
      assert [b] + (bm + [bl]) == ([b] + bm) + [bl];
    }
  }

  lemma DefaultEpochIsTenTicks(epoch: int)
    ensures var r := Run(Clock(0, epoch), DefaultTicksPerEpoch, 10);
      r.0 == Clock(0, epoch + 1) && r.1 == [false, false, false, false, false, false, false, false, false, true]
  {
    FullEpoch(epoch, DefaultTicksPerEpoch);
  }

  /** The broadcast that announces a new epoch to the world's observers. */
  function TransitionEnvelope(newEpoch: int, totalAgents: nat): Envelope {
    Envelope(newEpoch, EpochTransition(newEpoch, totalAgents))
  }

  class TimeDilation {
    const ticksPerEpoch: int

    constructor(arg: Option<int>)
      ensures ticksPerEpoch == ResolveTicksPerEpoch(arg)
    {
      ticksPerEpoch := ResolveTicksPerEpoch(arg);
    }

    /** One tick of `world`. `totalAgents` is the number of agent rows of the
        world, read for the transition payload. Returns whether the epoch
        changed and the envelopes broadcast. */
    method AdvanceTick(world: WorldRow, totalAgents: nat) returns (transitioned: bool, emitted: seq<Envelope>)
      modifies world
      ensures (Clock(world.currentTick, world.currentEpoch), transitioned)
        == Advance(Clock(old(world.currentTick), old(world.currentEpoch)), ticksPerEpoch)
      ensures transitioned ==> emitted == [TransitionEnvelope(world.currentEpoch, totalAgents)]
      ensures !transitioned ==> emitted == []
      ensures world.status == old(world.status)
    {
      world.currentTick := world.currentTick + 1;
      if world.currentTick >= ticksPerEpoch {
        world.currentTick := 0;
        world.currentEpoch := world.currentEpoch + 1;
        emitted := [TransitionEnvelope(world.currentEpoch, totalAgents)];
        return true, emitted;
      }
      return false, [];
    }
  }
}
