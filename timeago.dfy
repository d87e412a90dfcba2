/** `getTimeAgo` from the `useTimeAgo` hook: the time since a timestamp,
    bucketed into seconds, minutes, hours or days. Both instants are epoch
    milliseconds; the message text is replaced by a (count, unit) pair. */
module TimeAgo {

  datatype Unit = Sec | Min | Hrs | Days

  datatype Ago = Ago(count: int, unit: Unit)

  /** Seconds per unit. */
  function UnitSeconds(u: Unit): (n: nat)
    ensures n >= 1
  {
    match u
    case Sec => 1
    case Min => 60
    case Hrs => 3600
    case Days => 86400
  }

  /** Units ordered from finest to coarsest. */
  function Rank(u: Unit): nat {
    match u
    case Sec => 0
    case Min => 1
    case Hrs => 2
    case Days => 3
  }

  /** `Math.floor((now - past) / 1000)`: whole seconds, rounded down even
      when `past` lies in the future. */
  function DiffSeconds(now: int, past: int): (diff: int)
    ensures diff * 1000 <= now - past < (diff + 1) * 1000
  {
    (now - past) / 1000
  }

  /** The bucketing of a difference in whole seconds. */
  function Bucket(diff: int): (r: Ago)
    ensures r.unit == Sec ==> r.count == diff
    ensures r.unit != Sec ==>
      r.count >= 1
      && r.count * UnitSeconds(r.unit) <= diff < (r.count + 1) * UnitSeconds(r.unit)
    ensures r.unit == Min ==> r.count <= 59
    ensures r.unit == Hrs ==> r.count <= 23
    ensures r.unit == Sec <==> diff < 60
    ensures r.unit == Min <==> 60 <= diff < 3600
    ensures r.unit == Hrs <==> 3600 <= diff < 86400
    ensures r.unit == Days <==> 86400 <= diff
  {
    if diff < 60 then Ago(diff, Sec)
    else if diff < 3600 then Ago(diff / 60, Min)
    else if diff < 86400 then Ago(diff / 3600, Hrs)
    else Ago(diff / 86400, Days)
  }

  /** `getTimeAgo(timestamp)` read at instant `now`. */
  function GetTimeAgo(now: int, past: int): (r: Ago)
    ensures r.unit == Sec ==> r.count * 1000 <= now - past < (r.count + 1) * 1000
    ensures r.unit != Sec ==>
      r.count >= 1 && r.count * UnitSeconds(r.unit) * 1000 <= now - past
      && now - past < (r.count + 1) * UnitSeconds(r.unit) * 1000
  {
    Bucket(DiffSeconds(now, past))
  }

  /** A future timestamp is reported as a negative number of seconds. */
  lemma FutureIsNegativeSeconds(now: int, past: int)
    requires past > now
    ensures GetTimeAgo(now, past).unit == Sec && GetTimeAgo(now, past).count < 0
  {
  }

  /** A longer span never gets a finer unit, and within one unit never a
      smaller count. */
  lemma Monotone(now1: int, past1: int, now2: int, past2: int)
    requires now1 - past1 <= now2 - past2
    ensures Rank(GetTimeAgo(now1, past1).unit) <= Rank(GetTimeAgo(now2, past2).unit)
    ensures GetTimeAgo(now1, past1).unit == GetTimeAgo(now2, past2).unit ==>
      GetTimeAgo(now1, past1).count <= GetTimeAgo(now2, past2).count
  {
  }
}
