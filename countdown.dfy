/** The `useCountdown` hook: a seconds counter decremented once per interval
    firing, which stops itself and calls `onEnd` when it reaches zero.
    Hook state becomes fields, a pending `setInterval` handle becomes the flag
    `pending`, and each firing of the interval is one call of `Tick`. */
module Countdown {
  import opened Wrappers

  /** A snapshot of the hook's state: `secondsLeft`, `isRunning` and whether
      `intervalRef.current` holds a live interval. */
  datatype State = State(secondsLeft: int, isRunning: bool, pending: bool)

  /** The state the hook mounts with. */
  function Initial(initialSeconds: int): State {
    State(initialSeconds, false, false)
  }

  /** What the hook keeps true between calls: it is running exactly while an
      interval is pending. */
  predicate Valid(s: State) {
    s.isRunning == s.pending
  }

  /** `start`: a no-op while an interval is pending; otherwise marks the
      countdown running and installs one interval. */
  function StartStep(s: State): (r: State)
    ensures Valid(s) ==> Valid(r)
    ensures r.pending && r.secondsLeft == s.secondsLeft
  {
    if s.pending then s else s.(isRunning := true, pending := true)
  }

  /** One firing of the interval: the new state and whether `onEnd` was called. */
  function TickStep(s: State): (r: (State, bool))
    requires s.pending
    ensures Valid(s) ==> Valid(r.0)
    ensures r.0.secondsLeft >= 0
    ensures r.1 <==> !r.0.pending
  {
    if s.secondsLeft <= 1 then
      (State(0, false, false), true)
    else
      (s.(secondsLeft := s.secondsLeft - 1), false)
  }

  /** `pause`: clears the interval, if any, and marks the countdown stopped. */
  function PauseStep(s: State): (r: State)
    ensures Valid(r) && !r.pending
  {
    s.(isRunning := false, pending := false)
  }

  /** `reset(newTime?)`: pauses, then sets the counter to `newTime`, or to the
      hook's `initialSeconds` when no argument is given. */
  function ResetStep(s: State, initialSeconds: int, newTime: Option<int>): (r: State)
    ensures Valid(r) && !r.pending
  {
    PauseStep(s).(secondsLeft := newTime.GetOr(initialSeconds))
  }

  /** `k` further firings of the interval from `s`; firings stop once the
      interval has been cleared. Returns the final state and how many times
      `onEnd` was called. */
  function Run(s: State, k: nat): (State, nat)
    decreases k
  {
    if k == 0 || !s.pending then (s, 0)
    else
      var (s1, ended) := TickStep(s);
      var (s2, n) := Run(s1, k - 1);
      (s2, n + if ended then 1 else 0)
  }

  /** The `minutes`/`seconds` pair the hook renders. */
  datatype Clock = Clock(minutes: int, seconds: int)

  /** `Math.floor(secondsLeft / 60)` and JavaScript's `secondsLeft % 60`. */
  function Breakdown(secondsLeft: int): (c: Clock)
    ensures secondsLeft >= 0 ==>
      c.minutes * 60 + c.seconds == secondsLeft && 0 <= c.seconds < 60 && c.minutes >= 0
    ensures secondsLeft < 0 ==> -60 < c.seconds <= 0 && c.minutes < 0
  {
    Clock(secondsLeft / 60, TruncRem(secondsLeft, 60))
  }

  /** For a negative counter the rendered pair does not add back up: the floor
      and the truncating remainder round in opposite directions. */
  lemma NegativeBreakdown()
    ensures Breakdown(-1) == Clock(-1, -1)
    ensures Breakdown(-1).minutes * 60 + Breakdown(-1).seconds != -1
  {
  }

  /** `start` while an interval is pending changes nothing. */
  lemma StartWhilePending(s: State)
    requires s.pending
    ensures StartStep(s) == s
  {
  }

  /** A firing with more than one second left takes exactly one second off and
      keeps the countdown running; `onEnd` is not called. */
  lemma TickDecrements(s: State)
    requires s.pending && s.secondsLeft > 1
    ensures TickStep(s) == (s.(secondsLeft := s.secondsLeft - 1), false)
    ensures TickStep(s).0.pending && TickStep(s).0.secondsLeft == s.secondsLeft - 1
  {
  }

  /** A firing with at most one second left zeroes the counter, clears the
      interval, stops the countdown and calls `onEnd`. */
  lemma TickEnds(s: State)
    requires s.pending && s.secondsLeft <= 1
    ensures TickStep(s) == (State(0, false, false), true)
  {
  }

  /** `pause` leaves the counter alone and is idempotent. */
  lemma PauseIdempotent(s: State)
    ensures PauseStep(s).secondsLeft == s.secondsLeft
    ensures PauseStep(PauseStep(s)) == PauseStep(s)
  {
  }

  /** `reset()` without an argument restores `initialSeconds`, whatever value
      an earlier `reset(t)` installed. */
  lemma ResetRestoresInitial(s: State, initialSeconds: int, t: int)
    ensures ResetStep(ResetStep(s, initialSeconds, Some(t)), initialSeconds, None)
      == Initial(initialSeconds)
    ensures ResetStep(s, initialSeconds, Some(t)).secondsLeft == t
  {
  }

  /** While more than one second is left, `k` firings take `k` seconds off and
      call `onEnd` never. */
  lemma {:induction false} RunBeforeEnd(n: int, k: nat)
    requires k < n
    ensures Run(State(n, true, true), k) == (State(n - k, true, true), 0)
  {
    if k > 0 {
      TickDecrements(State(n, true, true));
      RunBeforeEnd(n - 1, k - 1);
    }
  }

  /** Once the interval is cleared, further firings change nothing. */
  lemma RunStopped(s: State, k: nat)
    requires !s.pending
    ensures Run(s, k) == (s, 0)
  {
  }

  /** From a running countdown with `n` seconds left, the end comes on firing
      number `max(n, 1)`: before it `onEnd` has not been called, from it on it
      has been called exactly once, and the counter stays at zero with no
      interval pending. */
  lemma {:induction false} RunToEnd(n: int, k: nat)
    ensures var last := if n < 1 then 1 else n;
      Run(State(n, true, true), k)
        == if k < last then (State(n - k, true, true), 0) else (State(0, false, false), 1)
  {
    var last := if n < 1 then 1 else n;
    if k == 0 {
    } else if n <= 1 {
      TickEnds(State(n, true, true));
      RunStopped(State(0, false, false), k - 1);
    } else {
      TickDecrements(State(n, true, true));
      RunToEnd(n - 1, k - 1);
    }
  }

  /** The whole run that `start` begins from any stopped countdown: `onEnd`
      fires on the `max(secondsLeft, 1)`-th firing, never before it and never
      again after it. */
  lemma {:induction false} StartedRunEndsOnce(s: State, k: nat)
    requires !s.pending
    ensures var last := if s.secondsLeft < 1 then 1 else s.secondsLeft;
      Run(StartStep(s), k).1 == (if k < last then 0 else 1)
      && (k >= last ==> Run(StartStep(s), k).0 == State(0, false, false))
  {
    RunToEnd(s.secondsLeft, k);
  }

  /** The hook instance. */
  class CountdownTimer {
    const initialSeconds: int
    var secondsLeft: int
    var isRunning: bool
    /** `intervalRef.current !== null` */
    var pending: bool

    function Snapshot(): State
      reads this
    {
      State(secondsLeft, isRunning, pending)
    }

    constructor (initialSeconds: int)
      ensures this.initialSeconds == initialSeconds
      ensures Snapshot() == Initial(initialSeconds)
      ensures Valid(Snapshot())
    {
      this.initialSeconds := initialSeconds;
      secondsLeft := initialSeconds;
      isRunning := false;
      pending := false;
    }

    method Start()
      modifies this
      ensures Snapshot() == StartStep(old(Snapshot()))
      ensures old(pending) ==> Snapshot() == old(Snapshot())
    {
      if pending {
        return;
      }
      isRunning := true;
      pending := true;
    }

    /** One firing of the interval; `ended` says whether `onEnd` was called. */
    method Tick() returns (ended: bool)
      requires pending
      modifies this
      ensures (Snapshot(), ended) == TickStep(old(Snapshot()))
      ensures secondsLeft >= 0
      ensures ended ==> !pending && !isRunning && secondsLeft == 0
      ensures !ended ==> pending && secondsLeft == old(secondsLeft) - 1
    {
      if secondsLeft <= 1 {
        pending := false;
        isRunning := false;
        ended := true;
        secondsLeft := 0;
      } else {
        ended := false;
        secondsLeft := secondsLeft - 1;
      }
    }

    method Pause()
      modifies this
      ensures Snapshot() == PauseStep(old(Snapshot()))
      ensures !pending && !isRunning && secondsLeft == old(secondsLeft)
    {
      if pending {
        pending := false;
      }
      isRunning := false;
    }

    method Reset(newTime: Option<int>)
      modifies this
      ensures Snapshot() == ResetStep(old(Snapshot()), initialSeconds, newTime)
      ensures !pending && !isRunning && secondsLeft == newTime.GetOr(initialSeconds)
    {
      Pause();
      secondsLeft := newTime.GetOr(initialSeconds);
    }

    /** The rendered `{ minutes, seconds }`. */
    function Display(): (c: Clock)
      reads this
      ensures secondsLeft >= 0 ==> c.minutes * 60 + c.seconds == secondsLeft && 0 <= c.seconds < 60
    {
      Breakdown(secondsLeft)
    }
  }
}
