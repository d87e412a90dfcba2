# react-time-tools, modelled in Dafny

A model of the time logic inside the React timer hooks of react-time-tools,
with React and the browser timers taken away. Hook state (`useState`,
`useRef`) becomes fields of a class, a pending `setInterval` handle becomes a
boolean `pending`, every firing of an interval becomes an explicit `Tick`
call, and `Date.now()` becomes an integer parameter `now` (epoch
milliseconds).

- `countdown.dfy`, module `Countdown` (`useCountdown`): a seconds counter that
  each firing decrements; the firing that finds one second or less left sets
  it to 0, clears the interval, stops and calls `onEnd`. Class
  `CountdownTimer`, value `State`, step functions `StartStep`, `TickStep`,
  `PauseStep`, `ResetStep`, and `Run` for `k` firings in a row.
- `stopwatch.dfy`, module `Stopwatch` (`useStopwatch`): elapsed time is
  `now - anchor`, with the anchor set to `now - elapsedMs` by `start`; an
  append-only lap list; the minutes/seconds/milliseconds breakdown. Class
  `StopwatchTimer`, value `State`, step functions, and `TickAll` for a run of
  firings.
- `timespeed.dfy`, module `TimeSpeed` (`useTimeSpeed`): one linear segment
  `sim = lastSim + (now - lastReal) * speed`; `setSpeed` restarts the segment
  at real time. Class `SpeedClock`, value `Segment`, function `SimAt`.
- `timeago.dfy`, module `TimeAgo` (`getTimeAgo`): whole seconds since a
  timestamp, bucketed into seconds, minutes, hours or days; the message text
  is a `(count, unit)` pair.
- `timecomparison.dfy`, module `TimeComparison` (`parseTime` and the range
  test in `useTimeComparison`): "H:M" text becomes today's local midnight (a
  parameter) plus H hours and M minutes; the window test is inclusive at both
  ends; a `NaN` result of `parseTime` is `None`.
- `wrappers.dfy`, module `Wrappers`: `Option` (a `null` ref, an omitted
  argument, a `NaN` parse result) and JavaScript's truncating `%` (`TruncRem`).

Each stateful hook is a class whose methods are proved against pure step
functions on a value snapshot (`ensures Snapshot() == TickStep(old(Snapshot()))`),
and the properties are proved as lemmas about those step functions: for
example that a countdown started with `n` seconds left calls `onEnd` on
firing `max(n, 1)`, never before and never again, and that the stopwatch's
elapsed time depends only on the anchor and the last firing.

The model follows the code in four places where a reader might expect
otherwise:
- The countdown counts firings; it does not derive the remaining time from an
  anchor instant.
- The stopwatch's `pause` takes no reading of the clock: the time since the
  last firing is not added, and the elapsed time stays at the last firing's
  value.
- `setSpeed` sets the simulated time to the real current time, so the
  simulated clock jumps back to real time at every speed change instead of
  continuing from where it was (`TimeSpeed.SetSpeedJumps`).
- A negative or zero countdown start value is accepted, not rejected; the
  first firing ends it.

## Model

| member | source | states |
|---|---|---|
| `Wrappers.TruncRem` | src/hooks/useCountdown.ts:50 | JavaScript `%`: for a non-negative dividend it is the usual remainder in [0, d); for a negative one it lies in (-d, 0] |
| `Wrappers.Option.GetOr` | src/hooks/useCountdown.ts:44 | JavaScript `x ?? d`: the value when present, `d` when absent (also the anchor fallback at src/hooks/useStopwatch.ts:15) |
| `Countdown.StartStep` | src/hooks/useCountdown.ts:16-19 | after `start` an interval is pending and the counter is unchanged; the running-iff-pending invariant is kept |
| `Countdown.TickStep` | src/hooks/useCountdown.ts:20-29 | a firing leaves the counter non-negative, keeps the invariant, and calls `onEnd` exactly when it clears the interval |
| `Countdown.PauseStep` | src/hooks/useCountdown.ts:33-39 | after `pause` no interval is pending and the countdown is not running |
| `Countdown.ResetStep` | src/hooks/useCountdown.ts:41-47 | after `reset` no interval is pending and the countdown is not running |
| `Countdown.Breakdown` | src/hooks/useCountdown.ts:49-50 | for a non-negative counter `minutes*60 + seconds` is the counter with `0 <= seconds < 60`; for a negative one `seconds` lies in (-60, 0] and `minutes` is negative |
| `Countdown.NegativeBreakdown` | src/hooks/useCountdown.ts:49-50 | a counter of -1 shows as -1 min -1 s, which does not add back up to -1 |
| `Countdown.StartWhilePending` | src/hooks/useCountdown.ts:17 | `start` while an interval is pending changes nothing |
| `Countdown.TickDecrements` | src/hooks/useCountdown.ts:28 | with more than one second left a firing takes off exactly one second, stays running and does not call `onEnd` |
| `Countdown.TickEnds` | src/hooks/useCountdown.ts:21-26 | with at most one second left a firing sets 0, clears the interval, stops and calls `onEnd` |
| `Countdown.PauseIdempotent` | src/hooks/useCountdown.ts:33-39 | `pause` keeps the counter and pausing twice is pausing once |
| `Countdown.ResetRestoresInitial` | src/hooks/useCountdown.ts:41-47 | `reset(t)` sets `t`; a later `reset()` restores `initialSeconds`, not `t`, giving the mount-time state |
| `Countdown.RunBeforeEnd` | src/hooks/useCountdown.ts:20-29 | from `n` seconds left, `k < n` firings leave `n - k` seconds, still running, with no `onEnd` |
| `Countdown.RunStopped` | src/hooks/useCountdown.ts:22-23 | once the interval is cleared no further firing changes anything or calls `onEnd` |
| `Countdown.RunToEnd` | src/hooks/useCountdown.ts:19-29 | from `n` seconds left, `onEnd` has been called 0 times before firing `max(n, 1)` and exactly once from it on, with the counter at 0 and no interval |
| `Countdown.StartedRunEndsOnce` | src/hooks/useCountdown.ts:16-30 | a run begun by `start` from any stopped state ends on firing `max(secondsLeft, 1)` with exactly one `onEnd` |
| `Countdown.CountdownTimer.constructor` | src/hooks/useCountdown.ts:12-14 | mounts with `secondsLeft = initialSeconds`, stopped, no interval, so the invariant holds from the start |
| `Countdown.CountdownTimer.Start` | src/hooks/useCountdown.ts:16-31 | the new state is `StartStep` of the old; a no-op while an interval is pending |
| `Countdown.CountdownTimer.Tick` | src/hooks/useCountdown.ts:19-29 | the new state and the `onEnd` call are `TickStep` of the old state: either one second less and still running, or 0, stopped and `onEnd` |
| `Countdown.CountdownTimer.Pause` | src/hooks/useCountdown.ts:33-39 | clears the interval, stops, keeps `secondsLeft` |
| `Countdown.CountdownTimer.Reset` | src/hooks/useCountdown.ts:41-47 | pauses and sets `newTime ?? initialSeconds` |
| `Countdown.CountdownTimer.Display` | src/hooks/useCountdown.ts:49-50 | the rendered minutes and seconds add back up to a non-negative counter |
| `Stopwatch.StartStep` | src/hooks/useStopwatch.ts:10-17 | after `start` an interval is pending and `elapsedMs` and laps are unchanged; the invariant (running iff pending, pending implies an anchor) is kept |
| `Stopwatch.TickStep` | src/hooks/useStopwatch.ts:14-16 | a firing at `now` makes `elapsedMs + anchor == now` and keeps the running flag, the interval, the anchor and the laps |
| `Stopwatch.TickUsesAnchor` | src/hooks/useStopwatch.ts:13-15 | under the invariant a pending interval always has an anchor, so the `?? 0` fallback never applies and a firing measures `now - anchor` |
| `Stopwatch.PauseStep` | src/hooks/useStopwatch.ts:19-25 | `pause` clears the interval and stops, keeping `elapsedMs` and the laps |
| `Stopwatch.ResetStep` | src/hooks/useStopwatch.ts:27-32 | `reset` leaves zero elapsed time, no laps, no anchor, not running, no interval |
| `Stopwatch.AddLapStep` | src/hooks/useStopwatch.ts:34-36 | `addLap` appends the current `elapsedMs`, keeps the earlier laps in order and changes nothing else |
| `Stopwatch.TicksDependOnlyOnLast` | src/hooks/useStopwatch.ts:15 | after any non-empty run of firings the elapsed time is the last firing's instant minus the anchor, however many firings there were |
| `Stopwatch.ResetIsInitial` | src/hooks/useStopwatch.ts:4-8 | `reset` after any history gives exactly the mount-time state |
| `Stopwatch.StartWhilePending` | src/hooks/useStopwatch.ts:11 | `start` while an interval is pending changes nothing |
| `Stopwatch.ResumePreservesElapsed` | src/hooks/useStopwatch.ts:13-15 | a firing at the instant of `start` keeps `elapsedMs`; one `d` ms later adds `d` |
| `Stopwatch.TwoStretches` | src/hooks/useStopwatch.ts:13-25 | over start/firings/pause/start/firings the elapsed time is the old value plus, for each stretch, its last firing minus its start |
| `Stopwatch.PauseResumeExample` | src/hooks/useStopwatch.ts:10-25 | start at T0, fire and pause at T0+5000, start at T0+8000, fire at T0+8300 shows 5300 ms |
| `Stopwatch.Breakdown` | src/hooks/useStopwatch.ts:44-46 | for non-negative `elapsedMs`, `minutes*60000 + seconds*1000 + milliseconds` is `elapsedMs`, with `seconds < 60` and `milliseconds < 1000` |
| `Stopwatch.StopwatchTimer.constructor` | src/hooks/useStopwatch.ts:4-8 | mounts at zero, stopped, no laps, no interval, no anchor, so the invariant holds from the start |
| `Stopwatch.StopwatchTimer.Start` | src/hooks/useStopwatch.ts:10-17 | the new state is `StartStep` of the old: anchor `now - elapsedMs` unless an interval is pending |
| `Stopwatch.StopwatchTimer.Tick` | src/hooks/useStopwatch.ts:14-16 | the new state is `TickStep` of the old |
| `Stopwatch.StopwatchTimer.Pause` | src/hooks/useStopwatch.ts:19-25 | the new state is `PauseStep` of the old |
| `Stopwatch.StopwatchTimer.Reset` | src/hooks/useStopwatch.ts:27-32 | the new state is the mount-time state |
| `Stopwatch.StopwatchTimer.AddLap` | src/hooks/useStopwatch.ts:34-36 | `laps` becomes the old laps followed by `elapsedMs` |
| `Stopwatch.StopwatchTimer.Display` | src/hooks/useStopwatch.ts:44-49 | the rendered time adds back up to a non-negative `elapsedMs` |
| `TimeSpeed.SimAt` | src/hooks/useTimeSpeed.ts:22-23 | the simulated time is `lastSim` at the anchor and at speed 0, and keeps the anchor's offset from real time at speed 1 |
| `TimeSpeed.SetSpeedStep` | src/hooks/useTimeSpeed.ts:13-17 | after `setSpeed(s)` at `now` the speed is `s` and the simulated time at `now` is `now` |
| `TimeSpeed.SimAtAnchor` | src/hooks/useTimeSpeed.ts:21-23 | at the segment's real anchor the simulated time is `lastSim` |
| `TimeSpeed.AdvanceIsLinear` | src/hooks/useTimeSpeed.ts:22-23 | at one speed the simulated time moves by exactly `speed * (t2 - t1)` |
| `TimeSpeed.ZeroSpeedFreezes` | src/hooks/useTimeSpeed.ts:23 | speed 0 holds the simulated time at `lastSim` |
| `TimeSpeed.SpeedSignGivesDirection` | src/hooks/useTimeSpeed.ts:23 | a negative speed makes simulated time decrease, a positive one increase |
| `TimeSpeed.UnitSpeedIsRealTime` | src/hooks/useTimeSpeed.ts:13-23 | after `setSpeed(1)` the simulated time equals real time at every instant |
| `TimeSpeed.SetSpeedForgetsOffset` | src/hooks/useTimeSpeed.ts:13-17 | after `setSpeed(s)` at `now` the simulated time is `now + s * (t - now)`, whatever the earlier segment was |
| `TimeSpeed.SetSpeedJumps` | src/hooks/useTimeSpeed.ts:13-17 | the simulated time is continuous across `setSpeed` if and only if it already equalled real time |
| `TimeSpeed.SpeedClock.constructor` | src/hooks/useTimeSpeed.ts:7-11 | mounts with speed `initialSpeed` (default 1) and both anchors at the mount instant |
| `TimeSpeed.SpeedClock.SetSpeed` | src/hooks/useTimeSpeed.ts:13-17 | the new segment is `SetSpeedStep` of the old one |
| `TimeSpeed.SpeedClock.Tick` | src/hooks/useTimeSpeed.ts:20-25 | publishes `SimAt` of the segment at `now` and changes no ref |
| `TimeSpeed.DefaultIsRealTime` | src/hooks/useTimeSpeed.ts:7-24 | a clock mounted without options shows real time at every firing |
| `TimeAgo.DiffSeconds` | src/hooks/useTimeAgo.ts:6 | whole seconds rounded down: `diff*1000 <= now - past < (diff+1)*1000` |
| `TimeAgo.Bucket` | src/hooks/useTimeAgo.ts:8-11 | unit by range of `diff` (seconds below 60, minutes below 3600, hours below 86400, else days, each an iff); seconds count is `diff`; other counts are at least 1 and the whole number of units in `diff`; minutes at most 59, hours at most 23 |
| `TimeAgo.GetTimeAgo` | src/hooks/useTimeAgo.ts:3-12 | the count of the reported unit brackets the real difference in milliseconds: `count*unit*1000 <= now - past < (count+1)*unit*1000` (exact seconds for the seconds unit) |
| `TimeAgo.FutureIsNegativeSeconds` | src/hooks/useTimeAgo.ts:6-8 | a future timestamp gives a negative count of seconds |
| `TimeAgo.Monotone` | src/hooks/useTimeAgo.ts:8-11 | a larger difference never yields a finer unit, nor a smaller count in the same unit |
| `TimeComparison.TimeClip` | src/hooks/useTimeComparison.ts:14-16 | a time value is kept exactly when its magnitude is at most 8.64e15, else `NaN` |
| `TimeComparison.Split` | src/hooks/useTimeComparison.ts:11 | `split(":")` always gives at least one piece |
| `TimeComparison.SplitJoin` | src/hooks/useTimeComparison.ts:11 | the pieces of `split(":")` are colon-free and join back to the input |
| `TimeComparison.SplitPair` | src/hooks/useTimeComparison.ts:11 | "h:m" with colon-free `h`, `m` splits into exactly `[h, m]` |
| `TimeComparison.DecimalValue` | src/hooks/useTimeComparison.ts:11 | the last digit of a digit string is its value's last decimal digit |
| `TimeComparison.ParseClock` | src/hooks/useTimeComparison.ts:11-14 | a time comes only from at least two pieces whose first two are numbers |
| `TimeComparison.ParseTime` | src/hooks/useTimeComparison.ts:9-17 | an instant is its own time value when within range, else `NaN` |
| `TimeComparison.ParseClockText` | src/hooks/useTimeComparison.ts:10-14 | "H:M" is `midnight + H*3600000 + M*60000` (seconds and milliseconds zero), clipped |
| `TimeComparison.InRange` | src/hooks/useTimeComparison.ts:30 | true iff both bounds are numbers and `start <= now <= end` |
| `TimeComparison.Check` | src/hooks/useTimeComparison.ts:26-31 | true iff both parsed bounds are numbers and `now` lies between them, inclusive |
| `TimeComparison.InvertedWindowIsEmpty` | src/hooks/useTimeComparison.ts:30 | a start after the end gives false for every `now` |
| `TimeComparison.PointWindow` | src/hooks/useTimeComparison.ts:30 | equal bounds give true only at that instant |
| `TimeComparison.TimezoneIgnored` | src/hooks/useTimeComparison.ts:19-22 | the `timezone` option never changes the result |
| `TimeComparison.OvernightWindowNeverInRange` | src/hooks/useTimeComparison.ts:10-30 | "22:00"-"06:00" is never in range |

## Left out

- React itself: re-rendering, the asynchrony of `setState`, stale closure captures (the model's `start` and `addLap` read the current `elapsedMs`, not the value of the last render), and StrictMode calling the countdown's state updater (and so `onEnd`) twice.
- Browser timers: interval pacing (1000 ms, 100 ms, 500 ms, 10 s) is not modelled; each firing is an explicit `Tick`, and a cleared interval never fires (`Tick` requires `pending`).
- Unmount cleanup (`useEffect` returning `clearInterval`): it only cancels the interval, which the model represents by `pending` alone.
- `useCurrentTime`: its only logic is locale formatting through `toLocaleTimeString`, a foreign call.
- `useTimeScheduler` and `useTimeoutEffect`: they only delegate to `setTimeout`/`clearTimeout` and hold no data logic.
- Floating point: counters and times are integers; the speed is a `real`, and the truncation of the simulated time by `new Date(newSim)` is not modelled.
- `setSpeed` reads `Date.now()` twice; the model takes one instant for both.
- `useTimeSpeed` also reads the clock twice at mount (`new Date()` for the simulated time, then `Date.now()` for the real anchor); the constructor takes one instant for both, which is why `TimeSpeed.DefaultIsRealTime` is exact rather than off by the gap between the two reads.
- Invalid `Date` inputs are not modelled: timestamps are integers. In the code an Invalid Date given to `getTimeAgo` makes `diff` `NaN`, which fails every test and yields "NaN days ago"; an Invalid Date given to `parseTime` yields `NaN`, so `check` is false. Neither `past: int` in `TimeAgo` nor `Instant(ms: int)` in `TimeComparison` can express it.
- `getTimeAgo` builds a message string; the model returns the `(count, unit)` pair instead.
- `parseTime` creates a fresh `Date` for each bound; the model uses one local midnight for both. Daylight-saving and time-zone effects of `setHours` are not modelled.
- `TimeComparison.ParseClock`: models JavaScript's `Number` only on plain digit strings (the empty string is 0); text with signs, spaces, decimals, exponents or hex, which `Number` may accept, yields `None` (`NaN`) in the model.
- The stopwatch's `pause` tests `intervalRef.current` for truthiness rather than against `null`; interval handles are positive, so the model uses the same `pending` flag for both.
