/** Vocabulary shared by every module: optional values and small facts about sequences. */
module Basics {

  datatype Option<+T> = None | Some(value: T)

  /** No value occurs at two different positions. */
  ghost predicate Distinct<T>(s: seq<T>) {
    forall i, j :: 0 <= i < j < |s| ==> s[i] != s[j]
  }

  /** Slicing a list without its last element. */
  lemma InitSlices<T>(s: seq<T>, at: nat)
    requires at < |s|
    ensures s[..|s| - 1][..at] == s[..at]
    ensures s[..|s| - 1][at..] + [s[|s| - 1]] == s[at..]
  {
    assert s == s[..|s| - 1] + [s[|s| - 1]];
  }

  lemma SubsetSizes<T>(a: set<T>, b: set<T>)
    requires a <= b
    ensures |a| <= |b| && (|a| == |b| ==> a == b)
  {
    assert b == a + (b - a);
    assert |b| == |a| + |b - a|;
  }

  function Max(a: int, b: int): int {
    if a < b then b else a
  }

  function Min(a: int, b: int): int {
    if a < b then a else b
  }
}

/** How a store write ends: stored, not stored, or stored although the caller saw an error. */
module Database {
  datatype Write = Stored | Lost | Unacknowledged
}

/** Which rows an application sees. */
module Apps {
  import opened Basics

  /** The app filter: none, one app, or the default app with the rows that name no app. */
  predicate MatchesApp(appId: Option<string>, resolved: string, defaultApp: string) {
    if resolved == "" then true
    else if resolved == defaultApp then appId == Some(resolved) || appId == None || appId == Some("")
    else appId == Some(resolved)
  }
}

/**
  Instants and UTC days.  An instant is the number of nanoseconds since Go's zero time,
  0001-01-01T00:00:00Z, so the zero time.Time is 0 and midnights are the multiples of DAY.
*/
module UtcClock {
  import opened Basics

  type Instant = int

  const MINUTE: int := 60_000_000_000
  const DAY: int := 86_400_000_000_000
  const TWO_TO_THE_63: int := 0x8000_0000_0000_0000
  const TWO_TO_THE_64: int := 0x1_0000_0000_0000_0000

  function DayOf(t: Instant): int {
    t / DAY
  }

  function StartOfUtcDay(t: Instant): Instant {
    t - t % DAY
  }

  function StartOfNextUtcDay(t: Instant): Instant {
    StartOfUtcDay(t) + DAY
  }

  /** The zero time is stored as a missing value. */
  function TimePtr(t: Instant): Option<Instant> {
    if t == 0 then None else Some(t)
  }

  /** A time.Duration is a signed 64-bit count of nanoseconds: products wrap around. */
  function Wrap64(x: int): int {
    var m := x % TWO_TO_THE_64;
    if m < TWO_TO_THE_63 then m else m - TWO_TO_THE_64
  }

  function IntervalDuration(minutes: int): int {
    Wrap64(minutes * MINUTE)
  }

  /** The units, in nanoseconds. */
  lemma DayHas24Hours()
    ensures MINUTE == 60 * 1_000_000_000 && DAY == 24 * 60 * 60 * 1_000_000_000
  {
  }

  /** The half-open window the daily query uses: 24 hours from the last midnight, and no other window. */
  lemma DailyQueryWindow(now: Instant, start: Instant)
    ensures StartOfUtcDay(now) == start && StartOfNextUtcDay(now) == start + 86_400_000_000_000
            <==> start % 86_400_000_000_000 == 0 && start <= now < start + 86_400_000_000_000
  {
  }

  /** The half-open window the daily query uses is exactly one UTC day. */
  lemma DayWindow(now: Instant, t: Instant)
    ensures StartOfUtcDay(now) == DayOf(now) * DAY
    ensures StartOfNextUtcDay(now) == (DayOf(now) + 1) * DAY
    ensures StartOfUtcDay(now) <= now < StartOfNextUtcDay(now)
    ensures StartOfUtcDay(now) <= t < StartOfNextUtcDay(now) <==> DayOf(t) == DayOf(now)
  {
  }

  lemma InDay(t: Instant, day: int)
    ensures day * DAY <= t < (day + 1) * DAY <==> DayOf(t) == day
  {
  }

  /**
    The interval a plan was given is the interval it waits exactly when the product fits in 64
    bits, that is up to 153,722,867 minutes (about 292 years) either way; otherwise it is the product
    modulo 2^64, brought into the range of a signed 64-bit number.
  */
  lemma IntervalDurationExact(minutes: int) returns (wraps: int)
    ensures IntervalDuration(minutes) == minutes * 60_000_000_000 <==> -153_722_867 <= minutes <= 153_722_867
    ensures -0x8000_0000_0000_0000 <= IntervalDuration(minutes) < 0x8000_0000_0000_0000
    ensures IntervalDuration(minutes) == minutes * 60_000_000_000 - wraps * 0x1_0000_0000_0000_0000
  {
    var x := minutes * MINUTE;
    wraps := x / TWO_TO_THE_64 + if x % TWO_TO_THE_64 < TWO_TO_THE_63 then 0 else 1;
  }
}
