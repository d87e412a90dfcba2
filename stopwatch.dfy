/** The `useStopwatch` hook: elapsed time derived from an anchor instant
    (`elapsedMs = now - anchor`), a lap list and a minutes/seconds/ms
    breakdown. `Date.now()` is the parameter `now`; each firing of the 100 ms
    interval is one call of `Tick(now)`. */
module Stopwatch {
  import opened Wrappers

  /** A snapshot of the hook: `elapsedMs`, `isRunning`, whether an interval is
      pending, `startTimeRef.current` (the anchor) and `laps`. */
  datatype State = State(
    elapsedMs: int,
    isRunning: bool,
    pending: bool,
    anchor: Option<int>,
    laps: seq<int>)

  /** The state the hook mounts with (and the one `reset` returns to). */
  function Initial(): State {
    State(0, false, false, None, [])
  }

  /** Kept between calls: running exactly while an interval is pending, and an
      anchor is set whenever an interval is pending. */
  predicate Valid(s: State) {
    s.isRunning == s.pending && (s.pending ==> s.anchor.Some?)
  }

  /** `start(now)`: a no-op while an interval is pending; otherwise anchors the
      clock at `now - elapsedMs` and installs the interval. */
  function StartStep(s: State, now: int): (r: State)
    ensures Valid(s) ==> Valid(r)
    ensures r.pending && r.elapsedMs == s.elapsedMs && r.laps == s.laps
  {
    if s.pending then s
    else s.(isRunning := true, anchor := Some(now - s.elapsedMs), pending := true)
  }

  /** One firing of the interval at instant `now`:
      `elapsedMs = now - (startTimeRef.current ?? 0)`. */
  function TickStep(s: State, now: int): (r: State)
    requires s.pending
    ensures Valid(s) ==> Valid(r)
    ensures r.pending && r.isRunning == s.isRunning && r.anchor == s.anchor && r.laps == s.laps
    ensures r.elapsedMs + s.anchor.GetOr(0) == now
  {
    s.(elapsedMs := now - s.anchor.GetOr(0))
  }

  /** `pause`: clears the interval and stops; the time since the last firing
      is not added. */
  function PauseStep(s: State): (r: State)
    ensures Valid(s) ==> Valid(r)
    ensures !r.pending && !r.isRunning
    ensures r.elapsedMs == s.elapsedMs && r.laps == s.laps
  {
    s.(isRunning := false, pending := false)
  }

  /** `reset`: pauses, zeroes the time, empties the laps and drops the anchor. */
  function ResetStep(s: State): (r: State)
    ensures Valid(r) && !r.pending && r.elapsedMs == 0 && r.laps == [] && r.anchor == None
  {
    PauseStep(s).(elapsedMs := 0, laps := [], anchor := None)
  }

  /** `addLap`: records the current elapsed time after the earlier laps. */
  function AddLapStep(s: State): (r: State)
    ensures Valid(s) ==> Valid(r)
    ensures |r.laps| == |s.laps| + 1 && r.laps[..|s.laps|] == s.laps
    ensures r.laps[|s.laps|] == s.elapsedMs
    ensures r.(laps := s.laps) == s
  {
    s.(laps := s.laps + [s.elapsedMs])
  }

  /** The interval firing at each of `times` in turn. */
  function TickAll(s: State, times: seq<int>): (r: State)
    requires s.pending
    decreases |times|
  {
    if times == [] then s else TickAll(TickStep(s, times[0]), times[1..])
  }

  /** Drift-free accounting: however many firings happen, the elapsed time is
      the last firing's instant minus the anchor; nothing else changes. */
  lemma {:induction false} TicksDependOnlyOnLast(s: State, times: seq<int>)
    requires s.pending && times != []
    ensures TickAll(s, times) == s.(elapsedMs := times[|times| - 1] - s.anchor.GetOr(0))
    decreases |times|
  {
    if |times| > 1 {
      TicksDependOnlyOnLast(TickStep(s, times[0]), times[1..]);
    }
  }

  /** While the invariant holds the `?? 0` fallback never applies: a firing
      measures from the anchor that `start` set. */
  lemma TickUsesAnchor(s: State, now: int)
    requires Valid(s) && s.pending
    ensures s.anchor.Some? && TickStep(s, now).elapsedMs == now - s.anchor.value
  {
  }

  /** `reset` after any history gives back exactly the mount-time state. */
  lemma ResetIsInitial(s: State)
    ensures ResetStep(s) == Initial()
  {
  }

  /** `start` while an interval is pending changes nothing. */
  lemma StartWhilePending(s: State, now: int)
    requires s.pending
    ensures StartStep(s, now) == s
  {
  }

  /** Resuming keeps the accumulated time: a firing at the instant of `start`
      leaves `elapsedMs` where it was, and a firing `d` ms later adds `d`. */
  lemma ResumePreservesElapsed(s: State, now: int, d: int)
    requires !s.pending
    ensures TickStep(StartStep(s, now), now).elapsedMs == s.elapsedMs
    ensures TickStep(StartStep(s, now), now + d).elapsedMs == s.elapsedMs + d
  {
  }

  /** Pause/resume accounting over two running stretches: the elapsed time is
      the sum of the stretch from each `start` to the last firing before the
      `pause` that ends it; the `pause` instant itself plays no part. */
  lemma {:induction false} TwoStretches(s: State, t0: int, ticks1: seq<int>, t2: int, ticks2: seq<int>)
    requires !s.pending && ticks1 != [] && ticks2 != []
    ensures var first := PauseStep(TickAll(StartStep(s, t0), ticks1));
      TickAll(StartStep(first, t2), ticks2).elapsedMs
        == s.elapsedMs + (ticks1[|ticks1| - 1] - t0) + (ticks2[|ticks2| - 1] - t2)
  {
    TicksDependOnlyOnLast(StartStep(s, t0), ticks1);
    var first := PauseStep(TickAll(StartStep(s, t0), ticks1));
    TicksDependOnlyOnLast(StartStep(first, t2), ticks2);
  }

  /** Started at T0, firing and paused at T0+5000, restarted at T0+8000 and
      firing at T0+8300: the stopwatch shows 5300 ms. */
  lemma PauseResumeExample(t0: int)
    ensures var paused := PauseStep(TickStep(StartStep(Initial(), t0), t0 + 5000));
      TickStep(StartStep(paused, t0 + 8000), t0 + 8300).elapsedMs == 5300
  {
  }

  /** The rendered `{ minutes, seconds, milliseconds }`. */
  datatype Time = Time(minutes: int, seconds: int, milliseconds: int)

  /** `Math.floor(e / 60000)`, `Math.floor((e % 60000) / 1000)` and
      `e % 1000`, with JavaScript's truncating `%`. */
  function Breakdown(elapsedMs: int): (t: Time)
    ensures elapsedMs >= 0 ==>
      t.minutes * 60000 + t.seconds * 1000 + t.milliseconds == elapsedMs
      && t.minutes >= 0 && 0 <= t.seconds < 60 && 0 <= t.milliseconds < 1000
  {
    Time(elapsedMs / 60000, TruncRem(elapsedMs, 60000) / 1000, TruncRem(elapsedMs, 1000))
  }

  /** The hook instance. */
  class StopwatchTimer {
    var elapsedMs: int
    var isRunning: bool
    /** `intervalRef.current !== null` */
    var pending: bool
    /** `startTimeRef.current` */
    var anchor: Option<int>
    var laps: seq<int>

    function Snapshot(): State
      reads this
    {
      State(elapsedMs, isRunning, pending, anchor, laps)
    }

    constructor ()
      ensures Snapshot() == Initial()
      ensures Valid(Snapshot())
    {
      elapsedMs := 0;
      isRunning := false;
      pending := false;
      anchor := None;
      laps := [];
    }

    method Start(now: int)
      modifies this
      ensures Snapshot() == StartStep(old(Snapshot()), now)
      ensures !old(pending) ==> anchor == Some(now - elapsedMs) && pending && isRunning
    {
      if pending {
        return;
      }
      isRunning := true;
      anchor := Some(now - elapsedMs);
      pending := true;
    }

    /** One firing of the interval at instant `now`. */
    method Tick(now: int)
      requires pending
      modifies this`elapsedMs
      ensures Snapshot() == TickStep(old(Snapshot()), now)
    {
      elapsedMs := now - anchor.GetOr(0);
    }

    method Pause()
      modifies this`pending, this`isRunning
      ensures Snapshot() == PauseStep(old(Snapshot()))
    {
      if pending {
        pending := false;
      }
      isRunning := false;
    }

    method Reset()
      modifies this
      ensures Snapshot() == ResetStep(old(Snapshot()))
      ensures Snapshot() == Initial()
    {
      Pause();
      elapsedMs := 0;
      laps := [];
      anchor := None;
    }

    method AddLap()
      modifies this`laps
      ensures Snapshot() == AddLapStep(old(Snapshot()))
      ensures laps == old(laps) + [elapsedMs]
    {
      laps := laps + [elapsedMs];
    }

    /** The rendered time. */
    function Display(): (t: Time)
      reads this
      ensures elapsedMs >= 0 ==> t.minutes * 60000 + t.seconds * 1000 + t.milliseconds == elapsedMs
    {
      Breakdown(elapsedMs)
    }
  }
}
