/** The `useTimeSpeed` hook: a simulated clock that advances at `speed` times
    real time along one linear segment anchored at (`lastReal`, `lastSim`).
    `Date.now()` is the parameter `now`; each firing of the 500 ms interval is
    one call of `Tick(now)`. Speed and simulated time are reals. */
module TimeSpeed {

  /** The three refs: `lastRealTime`, `lastSimulatedTime` and `speedRef`. */
  datatype Segment = Segment(lastReal: int, lastSim: real, speed: real)

  /** The simulated time the tick computes at real instant `now`:
      `lastSim + (now - lastReal) * speed`. */
  function SimAt(seg: Segment, now: int): (r: real)
    ensures now == seg.lastReal ==> r == seg.lastSim
    ensures seg.speed == 0.0 ==> r == seg.lastSim
    ensures seg.speed == 1.0 ==> r - now as real == seg.lastSim - seg.lastReal as real
  {
    seg.lastSim + (now - seg.lastReal) as real * seg.speed
  }

  /** `setSpeed(newSpeed)` at instant `now`: both refs are set to the real
      current time, so the simulated clock restarts from real time. */
  function SetSpeedStep(seg: Segment, newSpeed: real, now: int): (r: Segment)
    ensures r.speed == newSpeed
    ensures SimAt(r, now) == now as real
  {
    Segment(now, now as real, newSpeed)
  }

  /** At the segment's own anchor the simulated time is `lastSim`. */
  lemma SimAtAnchor(seg: Segment)
    ensures SimAt(seg, seg.lastReal) == seg.lastSim
  {
  }

  /** Over real time from `t1` to `t2` at one speed the simulated clock moves
      by exactly `speed * (t2 - t1)`. */
  lemma AdvanceIsLinear(seg: Segment, t1: int, t2: int)
    ensures SimAt(seg, t2) - SimAt(seg, t1) == seg.speed * (t2 - t1) as real
  {
  }

  /** Speed 0 freezes the simulated clock at `lastSim`. */
  lemma ZeroSpeedFreezes(seg: Segment, t: int)
    requires seg.speed == 0.0
    ensures SimAt(seg, t) == seg.lastSim
  {
  }

  /** A negative speed is accepted and runs the simulated clock backwards; a
      positive one runs it forwards. */
  lemma SpeedSignGivesDirection(seg: Segment, t1: int, t2: int)
    requires t1 < t2
    ensures seg.speed < 0.0 ==> SimAt(seg, t2) < SimAt(seg, t1)
    ensures seg.speed > 0.0 ==> SimAt(seg, t2) > SimAt(seg, t1)
  {
    AdvanceIsLinear(seg, t1, t2);
  }

  /** After `setSpeed(1)` the simulated clock equals real time at every later
      instant (and every earlier one on the same segment). */
  lemma UnitSpeedIsRealTime(seg: Segment, now: int, t: int)
    ensures SimAt(SetSpeedStep(seg, 1.0, now), t) == t as real
  {
  }

  /** After `setSpeed(s)` at `now` the simulated clock runs at `s` from real
      time `now`, whatever offset the previous segment had. */
  lemma SetSpeedForgetsOffset(seg: Segment, s: real, now: int, t: int)
    ensures SimAt(SetSpeedStep(seg, s, now), t) == now as real + s * (t - now) as real
  {
  }

  /** The seam of a speed change is continuous only when the clock was
      already showing real time: any other offset is a jump. */
  lemma SetSpeedJumps(seg: Segment, s: real, now: int)
    ensures SimAt(SetSpeedStep(seg, s, now), now) == SimAt(seg, now) <==> SimAt(seg, now) == now as real
  {
  }

  /** The hook instance: the three refs plus the published `time`. */
  class SpeedClock {
    var speed: real
    var lastReal: int
    var lastSim: real
    /** The `simulatedTime` state the hook returns as `time`. */
    var time: real

    function Current(): Segment
      reads this
    {
      Segment(lastReal, lastSim, speed)
    }

    /** Mounting at instant `now`; `initialSpeed` defaults to 1. */
    constructor (now: int, initialSpeed: real := 1.0)
      ensures Current() == Segment(now, now as real, initialSpeed)
      ensures time == now as real
    {
      speed := initialSpeed;
      lastReal := now;
      lastSim := now as real;
      time := now as real;
    }

    method SetSpeed(newSpeed: real, now: int)
      modifies this`speed, this`lastReal, this`lastSim
      ensures Current() == SetSpeedStep(old(Current()), newSpeed, now)
      ensures SimAt(Current(), now) == now as real
    {
      lastSim := now as real;
      lastReal := now;
      speed := newSpeed;
    }

    /** One firing of the interval: publishes the simulated time and leaves
        the segment alone. */
    method Tick(now: int)
      modifies this`time
      ensures time == SimAt(Current(), now)
    {
      var delta := now - lastReal;
      time := lastSim + delta as real * speed;
    }
  }

  /** Mounting with no options gives speed 1, so the clock follows real time
      until the first `setSpeed`. */
  method DefaultIsRealTime(now: int, t: int) returns (shown: real)
    ensures shown == t as real
  {
    var clock := new SpeedClock(now);
    clock.Tick(t);
    shown := clock.time;
  }
}
