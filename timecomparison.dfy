/** `parseTime` and the range test of the `useTimeComparison` hook. A time is
    either clock text "H:M" (taken on today's date) or an instant in epoch
    milliseconds (a `Date` or a number). Today's local midnight and the current
    instant are parameters; a JavaScript `NaN` time value is `None`. */
module TimeComparison {
  import opened Wrappers

  datatype TimeValue = Text(text: string) | Instant(ms: int)

  /** The hook's options; `timezone` is accepted and never read. */
  datatype Options = Options(start: TimeValue, end: TimeValue, timezone: Option<string>)

  /** The largest magnitude a JavaScript time value may have. */
  const MaxTimeValue: int := 8_640_000_000_000_000

  const MsPerHour: int := 3_600_000
  const MsPerMinute: int := 60_000

  /** ECMAScript TimeClip: out-of-range instants become `NaN`. */
  function TimeClip(t: int): (r: Option<int>)
    ensures r.Some? <==> -MaxTimeValue <= t <= MaxTimeValue
    ensures r.Some? ==> r.value == t
  {
    if -MaxTimeValue <= t <= MaxTimeValue then Some(t) else None
  }

  /** The parts joined back with ':' between them. */
  function Join(parts: seq<string>): string
    requires parts != []
  {
    if |parts| == 1 then parts[0] else parts[0] + [':'] + Join(parts[1..])
  }

  /** `s.split(":")`: the maximal colon-free pieces, empty ones included. */
  function Split(s: string): (parts: seq<string>)
    ensures parts != []
  {
    if s == [] then [[]]
    else
      var rest := Split(s[1..]);
      if s[0] == ':' then [[]] + rest
      else [[s[0]] + rest[0]] + rest[1..]
  }

  /** Splitting loses nothing: the pieces are colon-free and join back to `s`. */
  lemma {:induction false} SplitJoin(s: string)
    ensures forall i :: 0 <= i < |Split(s)| ==> ':' !in Split(s)[i]
    ensures Join(Split(s)) == s
  {
    if s != [] {
      SplitJoin(s[1..]);
      var rest := Split(s[1..]);
      if s[0] == ':' {
        assert Split(s)[1..] == rest;
      } else {
        var parts := Split(s);
        assert parts[1..] == rest[1..];
        if |rest| > 1 {
          assert rest[1..] != [] && Join(rest) == rest[0] + [':'] + Join(rest[1..]);
        }
        assert s == [s[0]] + s[1..];
      }
    }
  }

  /** A colon-free prefix joins the first piece of what follows it. */
  lemma {:induction false} SplitColonFree(a: string, t: string)
    requires ':' !in a
    ensures Split(a + t) == [a + Split(t)[0]] + Split(t)[1..]
  {
    if a != [] {
      assert (a + t)[1..] == a[1..] + t;
      SplitColonFree(a[1..], t);
      assert [a[0]] + (a[1..] + Split(t)[0]) == a + Split(t)[0];
    } else {
      assert a + t == t;
      var p := Split(t);
      assert a + p[0] == p[0];
      assert p == [p[0]] + p[1..];
    }
  }

  /** Splitting "h:m" for colon-free `h` and `m` gives back the two pieces. */
  lemma SplitPair(h: string, m: string)
    requires ':' !in h && ':' !in m
    ensures Split(h + ":" + m) == [h, m]
  {
    assert Split([]) == [[]];
    SplitColonFree(m, []);
    assert m + [] == m;
    assert Split(m) == [m];
    var cm := ":" + m;
    assert cm[0] == ':' && cm[1..] == m;
    assert Split(cm) == [[]] + Split(m);
    SplitColonFree(h, cm);
    assert Split(h + cm) == [h + []] + [m];
    assert h + [] == h;
    assert h + ":" + m == h + cm;
  }

  predicate IsDigits(s: string) {
    forall i :: 0 <= i < |s| ==> '0' <= s[i] <= '9'
  }

  lemma DigitsColonFree(s: string)
    requires IsDigits(s)
    ensures ':' !in s
  {
  }

  /** The decimal value of a digit string; the empty string is 0, as
      `Number("")` is. */
  function DecimalValue(s: string): (n: nat)
    requires IsDigits(s)
    ensures s != [] ==> n % 10 == (s[|s| - 1] - '0') as int
  {
    if s == [] then 0
    else DecimalValue(s[..|s| - 1]) * 10 + (s[|s| - 1] - '0') as int
  }

  /** `parseTime(value)`: clock text is split at ':' and the first two pieces
      become hours and minutes of today (seconds and milliseconds zero); an
      instant is its own time value. */
  function ParseTime(value: TimeValue, midnight: int): (r: Option<int>)
    ensures value.Instant? ==>
      r == if -MaxTimeValue <= value.ms <= MaxTimeValue then Some(value.ms) else None
  {
    match value
    case Instant(ms) => TimeClip(ms)
    case Text(s) => ParseClock(Split(s), midnight)
  }

  /** `const [h, m] = parts.map(Number)` followed by `setHours(h, m, 0, 0)`
      on today's date. `Number` is modelled on plain digit strings; a missing
      minute piece or any other text gives `NaN`. */
  function ParseClock(parts: seq<string>, midnight: int): (r: Option<int>)
    ensures r.Some? ==> |parts| >= 2 && IsDigits(parts[0]) && IsDigits(parts[1])
  {
    if |parts| < 2 || !IsDigits(parts[0]) || !IsDigits(parts[1]) then None
    else TimeClip(midnight + DecimalValue(parts[0]) * MsPerHour + DecimalValue(parts[1]) * MsPerMinute)
  }

  /** "H:M" with digit strings H and M is today's midnight plus H hours and M
      minutes. */
  lemma ParseClockText(h: string, m: string, midnight: int)
    requires IsDigits(h) && IsDigits(m)
    ensures ParseTime(Text(h + ":" + m), midnight)
      == TimeClip(midnight + DecimalValue(h) * MsPerHour + DecimalValue(m) * MsPerMinute)
  {
    DigitsColonFree(h);
    DigitsColonFree(m);
    SplitPair(h, m);
  }

  /** `now >= startMs && now <= endMs`; any comparison with `NaN` is false. */
  function InRange(now: int, startMs: Option<int>, endMs: Option<int>): (b: bool)
    ensures b <==> startMs.Some? && endMs.Some? && startMs.value <= now <= endMs.value
  {
    match (startMs, endMs)
    case (Some(s), Some(e)) => now >= s && now <= e
    case _ => false
  }

  /** The hook's `check`, at instant `now` on the day starting at `midnight`. */
  function Check(options: Options, now: int, midnight: int): (b: bool)
    ensures b <==>
      var startMs, endMs := ParseTime(options.start, midnight), ParseTime(options.end, midnight);
      startMs.Some? && endMs.Some? && startMs.value <= now <= endMs.value
  {
    InRange(now, ParseTime(options.start, midnight), ParseTime(options.end, midnight))
  }

  /** A window whose start lies after its end contains no instant. */
  lemma InvertedWindowIsEmpty(options: Options, now: int, midnight: int)
    requires ParseTime(options.start, midnight).Some? && ParseTime(options.end, midnight).Some?
    requires ParseTime(options.start, midnight).value > ParseTime(options.end, midnight).value
    ensures !Check(options, now, midnight)
  {
  }

  /** A window whose ends coincide contains exactly that instant. */
  lemma PointWindow(options: Options, now: int, midnight: int)
    requires ParseTime(options.start, midnight).Some?
    requires ParseTime(options.start, midnight) == ParseTime(options.end, midnight)
    ensures Check(options, now, midnight) <==> now == ParseTime(options.start, midnight).value
  {
  }

  /** The `timezone` option never changes the answer. */
  lemma TimezoneIgnored(options: Options, tz: Option<string>, now: int, midnight: int)
    ensures Check(options.(timezone := tz), now, midnight) == Check(options, now, midnight)
  {
  }

  /** An overnight window "22:00"-"06:00" is never in range: both ends are
      taken on the same day, so the start comes after the end. */
  lemma OvernightWindowNeverInRange(tz: Option<string>, now: int, midnight: int)
    ensures !Check(Options(Text("22:00"), Text("06:00"), tz), now, midnight)
  {
    assert IsDigits("22") && IsDigits("00") && IsDigits("06");
    assert DecimalValue("22") == 22 by {
      assert "22"[..1] == "2";
      assert "2"[..0] == "";
    }
    assert DecimalValue("00") == 0 by {
      assert "00"[..1] == "0";
      assert "0"[..0] == "";
    }
    assert DecimalValue("06") == 6 by {
      assert "06"[..1] == "0";
      assert "0"[..0] == "";
    }
    assert "22:00" == "22" + ":" + "00";
    assert "06:00" == "06" + ":" + "00";
    ParseClockText("22", "00", midnight);
    ParseClockText("06", "00", midnight);
  }
}
