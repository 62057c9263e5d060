/** The two clocks: world time runs `k` times as fast as real time from a common epoch.

    An instant is a number of microseconds in the anchor zone, counted from a local midnight;
    dividing a duration rounds to the nearest microsecond, ties to even. */
module WorldClock {
  import opened Rounding

  const HOUR := 3600000000
  const DAY := 24 * HOUR
  const WEEK := 7 * DAY

  function RealToWorld(t: int, epoch: int, k: int): int { epoch + k * (t - epoch) }

  function WorldToReal(w: int, epoch: int, k: int): int
    requires k >= 1
  {
    epoch + HalfEven(w - epoch, k)
  }

  function WorldWeekIndex(now: int, epoch: int, k: int): int {
    (RealToWorld(now, epoch, k) - epoch) / WEEK
  }

  /** The day's `h`:00, moved on a day if it is not still to come. */
  function NextHour(now: int, h: nat): int {
    var target := now - now % DAY + h * HOUR;
    if target <= now then target + DAY else target
  }

  /** Real microseconds to wait; the clock is read once for the target and once more, later,
      for the difference. */
  function UntilWorldHour(h: nat, readFirst: int, readAgain: int, epoch: int, k: int): int
    requires k >= 1
  {
    WorldToReal(NextHour(RealToWorld(readFirst, epoch, k), h), epoch, k) - readAgain
  }

  /** Real to world and back is exact. */
  lemma RealRoundTrip(t: int, epoch: int, k: int)
    requires k >= 1
    ensures WorldToReal(RealToWorld(t, epoch, k), epoch, k) == t
  {
    HalfEvenExact(t - epoch, k);
  }

  /** World to real and back is off by at most half of `k` microseconds, and is exact on the
      world instants that some real instant maps to, and on no others. */
  lemma WorldRoundTrip(w: int, epoch: int, k: int)
    requires k >= 1
    ensures var there := RealToWorld(WorldToReal(w, epoch, k), epoch, k);
            && -k <= 2 * (there - w) <= k
            && (there == w <==> (w - epoch) % k == 0)
  {
    HalfEvenIsNearest(w - epoch, k);
    var n, q := HalfEven(w - epoch, k), (w - epoch) / k;
    assert w - epoch == k * q + (w - epoch) % k;
    hide HalfEven;
    Multiple(n, k);
    HalfEvenExact(q, k);
  }

  lemma Multiple(n: int, k: int)
    requires k >= 1
    ensures (k * n) % k == 0
  {
    var q, r := (k * n) / k, (k * n) % k;
    assert k * n == k * q + r;
    Scales(k, q, n);
    Scales(k, n, q);
    Scales(k, q + 1, n);
  }

  /** Neither clock ever runs backwards, and different real instants differ in world time. */
  lemma ClocksRunForward(a: int, b: int, epoch: int, k: int)
    requires k >= 1 && a <= b
    ensures RealToWorld(b, epoch, k) - RealToWorld(a, epoch, k) >= b - a
    ensures WorldToReal(a, epoch, k) <= WorldToReal(b, epoch, k)
  {
    assert k * (b - epoch) - k * (a - epoch) == k * (b - a);
    HalfEvenMonotone(a - epoch, b - epoch, k);
  }

  /** The week index never goes back, and moves by one every 7 world days. */
  lemma WeeksOnlyAdvance(a: int, b: int, epoch: int, k: int)
    requires k >= 1 && a <= b
    ensures WorldWeekIndex(a, epoch, k) <= WorldWeekIndex(b, epoch, k)
    ensures var week := WorldWeekIndex(a, epoch, k);
            epoch + week * 604_800_000_000 <= RealToWorld(a, epoch, k) < epoch + (week + 1) * 604_800_000_000
  {
    ClocksRunForward(a, b, epoch, k);
    hide RealToWorld;
    WeekOf(RealToWorld(a, epoch, k) - epoch, RealToWorld(b, epoch, k) - epoch);
  }

  lemma WeekOf(x: int, y: int)
    ensures x <= y ==> x / WEEK <= y / WEEK
    ensures x / WEEK * WEEK <= x < (x / WEEK + 1) * WEEK
  {
  }

  /** The next `h`:00 is strictly in the future, at most a day away, and the first such instant. */
  lemma NextHourIsNext(now: int, h: nat, other: int)
    requires h < 24
    ensures now < NextHour(now, h) <= now + 86_400_000_000
    ensures NextHour(now, h) % 86_400_000_000 == h * 3_600_000_000
    ensures now < other && other % 86_400_000_000 == h * 3_600_000_000 ==> NextHour(now, h) <= other
  {
    var target := NextHour(now, h);
    var days := now / DAY;
    assert now == days * DAY + now % DAY;
    if target == days * DAY + h * HOUR {
      assert target % DAY == h * HOUR;
    } else {
      assert target == (days + 1) * DAY + h * HOUR;
    }
    assert other == (other / DAY) * DAY + other % DAY;
  }

  /** Waiting that long from the second reading lands within half of `k` world microseconds of
      the next `h`:00 after the first; read without delay, the wait is never negative and is at
      most a world day of real time, up to half a microsecond. */
  lemma WaitLandsOnTheHour(h: nat, readFirst: int, readAgain: int, epoch: int, k: int)
    requires k >= 1 && h < 24 && readFirst <= readAgain
    ensures var wait := UntilWorldHour(h, readFirst, readAgain, epoch, k);
            var target := NextHour(RealToWorld(readFirst, epoch, k), h);
            && -k <= 2 * (RealToWorld(readAgain + wait, epoch, k) - target) <= k
            && 2 * k * (readAgain + wait - readFirst) <= 2 * 86_400_000_000 + k
            && readAgain + wait >= readFirst
  {
    hide NextHour, HalfEven;
    var now := RealToWorld(readFirst, epoch, k);
    var target := NextHour(now, h);
    NextHourIsNext(now, h, now);
    WorldRoundTrip(target, epoch, k);
    var landing := WorldToReal(target, epoch, k);
    ClocksRunForward(now, target, epoch, k);
    RealRoundTrip(readFirst, epoch, k);
    WorldGap(readFirst, landing, epoch, k);
  }

  lemma WorldGap(a: int, b: int, epoch: int, k: int)
    ensures 2 * k * (b - a) == 2 * (RealToWorld(b, epoch, k) - RealToWorld(a, epoch, k))
  {
    assert k * (b - epoch) - k * (a - epoch) == k * (b - a);
  }

  /** The nightly job's next morning, by the same rule on real time. */
  function NextBeijingMorningReal(now: int, h: nat): int { NextHour(now, h) }

  /** Two consecutive mornings are exactly a day apart, so the job keeps a 24-hour cadence. */
  lemma MorningsAreADayApart(now: int, h: nat)
    requires h < 24
    ensures NextBeijingMorningReal(NextBeijingMorningReal(now, h), h) == NextBeijingMorningReal(now, h) + 86_400_000_000
  {
    var morning := NextHour(now, h);
    NextHourIsNext(now, h, now);
    assert morning - morning % DAY + h * HOUR == morning;
  }
}
