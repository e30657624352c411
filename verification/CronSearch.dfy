/**
 * Cron evaluation in UTC and the search for the latest due slot. Times are epoch milliseconds.
 */
module CronSearch {
  import opened Arithmetic
  import opened Common

  const MINUTE := 60_000
  const HOUR := 60 * MINUTE
  const DAY := 24 * HOUR
  const CRON_SEARCH_LIMIT := 366 * DAY

  /** `civil` is the calendar: the month and the day of the month of a day counted from the epoch. */
  datatype Cron = Cron(
    minutes: set<int>,
    hours: set<int>,
    daysOfMonth: set<int>,
    months: set<int>,
    daysOfWeek: set<int>,
    daysOfMonthRestricted: bool,
    daysOfWeekRestricted: bool,
    civil: int -> (int, int))

  /** The epoch was a Thursday. */
  function DayOfWeek(day: int): int { (day + 4) % 7 }

  predicate DayMatches(c: Cron, day: int) {
    c.civil(day).0 in c.months
    && var dom := c.civil(day).1 in c.daysOfMonth;
       var dow := DayOfWeek(day) in c.daysOfWeek;
       if c.daysOfMonthRestricted && c.daysOfWeekRestricted then dom || dow else dom && dow
  }

  predicate Fires(c: Cron, t: int) {
    t % MINUTE == 0 && DayMatches(c, t / DAY) && t / HOUR % 24 in c.hours && t / MINUTE % 60 in c.minutes
  }

  /** Weekdays follow one another from Sunday, day 0 of the week, and the epoch was a Thursday. */
  lemma Weekdays(day: int)
    ensures DayOfWeek(0) == 4
    ensures DayOfWeek(day + 1) == if DayOfWeek(day) == 6 then 0 else DayOfWeek(day) + 1
    ensures 0 <= DayOfWeek(day) <= 6
  {
  }

  /**
   * When a cron fires, by calendar fields: at whole minutes of a listed month, hour and minute whose day of month or
   * day of week is listed if both are restricted, and both are listed otherwise.
   */
  lemma FiresAt(c: Cron, day: int, hour: int, minute: int, ms: int)
    requires 0 <= hour < 24 && 0 <= minute < 60 && 0 <= ms < 60_000
    ensures Fires(c, day * 86_400_000 + hour * 3_600_000 + minute * 60_000 + ms) <==>
      && ms == 0 && minute in c.minutes && hour in c.hours && c.civil(day).0 in c.months
      && (c.civil(day).1 in c.daysOfMonth || DayOfWeek(day) in c.daysOfWeek)
      && ((c.daysOfMonthRestricted && c.daysOfWeekRestricted)
          || (c.civil(day).1 in c.daysOfMonth && DayOfWeek(day) in c.daysOfWeek))
  {
    var m := (day * 24 + hour) * 60 + minute;
    var t := m * 60_000 + ms;
    assert t == day * 86_400_000 + hour * 3_600_000 + minute * 60_000 + ms;
    DivIs(t, day, 86_400_000);
    DivIs(t, day * 24 + hour, 3_600_000);
    DivIs(t, m, 60_000);
    assert t == t / 60_000 * 60_000 + t % 60_000;
  }

  /** No occurrence strictly after `lo` and not after `hi`. */
  ghost predicate Silent(c: Cron, lo: int, hi: int) { forall t :: lo < t <= hi ==> !Fires(c, t) }

  /** `next` is the first occurrence strictly after `t`. */
  ghost predicate IsNext(c: Cron, t: int, next: int) { t < next && Fires(c, next) && Silent(c, t, next - 1) }

  function FirstMinute(after: int): int { after / MINUTE * MINUTE + MINUTE }

  /** The search gives up after this time. */
  function Horizon(after: int): int { FirstMinute(after) + CRON_SEARCH_LIMIT }

  /** The first occurrence strictly after `after`, or none within the search window. */
  method NextCronOccurrence(c: Cron, after: int) returns (next: Option<int>)
    ensures next.Some? ==> IsNext(c, after, next.value) && next.value <= Horizon(after)
    ensures next.None? ==> Silent(c, after, Horizon(after))
    ensures next.None? ==> forall t :: after < t <= after + 31_622_400_000 ==> !Fires(c, t)
    ensures next.Some? ==> next.value <= after + 60_000 + 31_622_400_000
  {
    SameMinute(c, after);
    var time := FirstMinute(after);
    var limit := time + CRON_SEARCH_LIMIT;
    while time <= limit
      invariant time % MINUTE == 0 && after < time
      invariant Silent(c, after, time - 1)
      decreases limit - time
    {
      ghost var was := time;
      if !DayMatches(c, time / DAY) {
        time := (time / DAY + 1) * DAY;
      } else if time / HOUR % 24 !in c.hours {
        time := (time / HOUR + 1) * HOUR;
      } else if time / MINUTE % 60 in c.minutes {
        assert Fires(c, time);
        return Some(time);
      } else {
        time := time + MINUTE;
      }
      Skip(c, after, was, time);
    }
    return None;
  }

  /** Skipping to the next day, hour or minute skips no occurrence. */
  lemma Skip(c: Cron, after: int, time: int, next: int)
    requires time % MINUTE == 0 && Silent(c, after, time - 1)
    requires next ==
      if !DayMatches(c, time / DAY) then (time / DAY + 1) * DAY
      else if time / HOUR % 24 !in c.hours then (time / HOUR + 1) * HOUR
      else time + MINUTE
    requires !Fires(c, time)
    ensures time < next && next % MINUTE == 0 && Silent(c, after, next - 1)
  {
    if !DayMatches(c, time / DAY) {
      SkipDay(c, after, time);
    } else if time / HOUR % 24 !in c.hours {
      SkipHour(c, after, time);
    } else {
      SkipMinute(c, after, time);
    }
  }

  lemma WholeMinutes(k: int)
    ensures k * MINUTE % MINUTE == 0
  {
  }

  /** Strictly inside a minute nothing fires. */
  lemma InsideMinute(c: Cron, q: int, t: int)
    requires q * MINUTE < t < q * MINUTE + MINUTE
    ensures !Fires(c, t)
  {
    DivIs(t, q, MINUTE);
    DivBounds(t, MINUTE);
    assert t % MINUTE == t - t / MINUTE * MINUTE;
  }

  /** Evaluating at a whole minute or anywhere inside that minute gives the same occurrence. */
  lemma SameMinute(c: Cron, t: int)
    ensures t / MINUTE * MINUTE <= t < FirstMinute(t)
    ensures Silent(c, t / MINUTE * MINUTE, FirstMinute(t) - 1)
  {
    DivBounds(t, MINUTE);
    forall u | t / MINUTE * MINUTE < u < FirstMinute(t) ensures !Fires(c, u) {
      InsideMinute(c, t / MINUTE, u);
    }
  }

  lemma SkipDay(c: Cron, after: int, time: int)
    requires !DayMatches(c, time / DAY) && Silent(c, after, time - 1)
    ensures var next := (time / DAY + 1) * DAY; time < next && next % MINUTE == 0 && Silent(c, after, next - 1)
  {
    var day := time / DAY;
    DivBounds(time, DAY);
    WholeMinutes((day + 1) * 1440);
    forall t | time <= t < (day + 1) * DAY ensures !Fires(c, t) {
      DivIs(t, day, DAY);
    }
  }

  lemma SkipHour(c: Cron, after: int, time: int)
    requires time / HOUR % 24 !in c.hours && Silent(c, after, time - 1)
    ensures var next := (time / HOUR + 1) * HOUR; time < next && next % MINUTE == 0 && Silent(c, after, next - 1)
  {
    var hour := time / HOUR;
    DivBounds(time, HOUR);
    WholeMinutes((hour + 1) * 60);
    forall t | time <= t < (hour + 1) * HOUR ensures !Fires(c, t) {
      DivIs(t, hour, HOUR);
    }
  }

  lemma SkipMinute(c: Cron, after: int, time: int)
    requires time % MINUTE == 0 && time / MINUTE % 60 !in c.minutes && Silent(c, after, time - 1)
    ensures Silent(c, after, time + MINUTE - 1)
  {
    forall t | time < t < time + MINUTE ensures !Fires(c, t) {
      InsideMinute(c, time / MINUTE, t);
    }
  }

  /** At most one time can be the next occurrence. */
  lemma NextIsUnique(c: Cron, t: int, a: int, b: int)
    requires IsNext(c, t, a) && IsNext(c, t, b)
    ensures a == b
  {
    assert a <= b - 1 ==> !Fires(c, a);
  }

  // ---------- the latest due slot ----------

  /** The latest of `claimed` and the occurrences after it that are due at `now`. */
  ghost predicate IsLatest(c: Cron, claimed: int, now: int, slot: int) {
    claimed <= slot <= now && (slot == claimed || Fires(c, slot)) && Silent(c, slot, now)
  }

  /** Whether the search window after `t` holds no occurrence, so that evaluating it throws. */
  ghost predicate Barren(c: Cron, t: int) { Silent(c, t, Horizon(t)) }

  /** How many times an interval of `n` minutes can be halved before one minute is left. */
  function Halvings(n: int): nat
    decreases if n > 0 then n else 0
  {
    if n <= 1 then 0 else 1 + Halvings((n + 1) / 2)
  }

  function Pow2(k: nat): nat { if k == 0 then 1 else 2 * Pow2(k - 1) }

  /** Halving is logarithmic: one halving fewer would still span less than the interval. */
  lemma {:induction false} HalvingsAreLogarithmic(n: int)
    requires n >= 2
    ensures Pow2(Halvings(n) - 1) < n <= Pow2(Halvings(n))
    decreases n
  {
    if n > 2 {
      HalvingsAreLogarithmic((n + 1) / 2);
      assert Halvings(n) == 1 + Halvings((n + 1) / 2);
      HalfCeil(n, Pow2(Halvings(n) - 2), Pow2(Halvings(n) - 1));
    }
  }

  lemma HalfCeil(n: int, low: nat, high: nat)
    requires low < (n + 1) / 2 <= high
    ensures 2 * low < n <= 2 * high
  {
  }

  /**
   * The latest slot not after `now`, found by binary search over minutes. It fails only by meeting a
   * minute whose search window is empty, and evaluates the cron at most twice more often than the elapsed
   * minutes can be halved.
   */
  method LatestDueSlot(c: Cron, claimedSlot: int, now: int) returns (slot: Option<int>, evaluations: nat)
    requires claimedSlot <= now
    ensures slot.Some? ==> IsLatest(c, claimedSlot, now, slot.value)
    ensures slot.None? ==> exists t :: claimedSlot - MINUTE < t <= now && Barren(c, t)
    ensures evaluations <= 2 + Halvings(now / MINUTE - claimedSlot / MINUTE)
  {
    var following := NextCronOccurrence(c, claimedSlot);
    evaluations := 1;
    if following.None? {
      assert Barren(c, claimedSlot);
      return None, evaluations;
    }
    if following.value > now {
      return Some(claimedSlot), evaluations;
    }
    var low := claimedSlot / MINUTE;
    var high := now / MINUTE;
    ghost var due := following.value;  // the occurrence after minute `low`
    DueLater(c, claimedSlot, now, due);
    while high - low > 1
      invariant claimedSlot / MINUTE <= low < high <= now / MINUTE
      invariant IsNext(c, low * MINUTE, due) && claimedSlot < due <= now
      invariant Silent(c, high * MINUTE, now)
      invariant evaluations + Halvings(high - low) <= 1 + Halvings(now / MINUTE - claimedSlot / MINUTE)
      decreases high - low
    {
      var middle := (low + high) / 2;
      following := NextCronOccurrence(c, middle * MINUTE);
      evaluations := evaluations + 1;
      if following.None? {
        assert Barren(c, middle * MINUTE) && claimedSlot - MINUTE < middle * MINUTE <= now by {
          MulLe(claimedSlot / MINUTE + 1, middle, MINUTE);
          MulLe(middle, now / MINUTE, MINUTE);
          DivBounds(claimedSlot, MINUTE);
          DivBounds(now, MINUTE);
        }
        return None, evaluations;
      }
      Halved(low, middle, high);
      if following.value <= now {
        low, due := middle, following.value;
      } else {
        high := middle;
      }
    }
    following := NextCronOccurrence(c, low * MINUTE);
    evaluations := evaluations + 1;
    OnlyDue(c, low, now, due, following);
    return following, evaluations;
  }

  lemma HalvingsMonotone(m: int, n: int)
    requires m <= n
    ensures Halvings(m) <= Halvings(n)
    decreases if n > 0 then n else 0
  {
    if m > 1 { HalvingsMonotone((m + 1) / 2, (n + 1) / 2); }
  }

  /** Either half of an interval of at least two minutes needs one halving fewer. */
  lemma Halved(low: int, middle: int, high: int)
    requires high - low > 1 && middle == (low + high) / 2
    ensures low < middle < high
    ensures 1 + Halvings(high - middle) <= Halvings(high - low)
    ensures 1 + Halvings(middle - low) <= Halvings(high - low)
  {
    HalvingsMonotone(high - middle, (high - low + 1) / 2);
    HalvingsMonotone(middle - low, (high - low + 1) / 2);
  }

  /** An occurrence due after the claimed slot lies in a later minute. */
  lemma DueLater(c: Cron, claimedSlot: int, now: int, due: int)
    requires IsNext(c, claimedSlot, due) && due <= now
    ensures claimedSlot / MINUTE < now / MINUTE
    ensures IsNext(c, claimedSlot / MINUTE * MINUTE, due)
    ensures Silent(c, now / MINUTE * MINUTE, now)
  {
    SameMinute(c, claimedSlot);
    SameMinute(c, now);
    assert due % MINUTE == 0;
    forall t | claimedSlot / MINUTE * MINUTE < t < due ensures !Fires(c, t) {
      if t <= claimedSlot { assert t < FirstMinute(claimedSlot); }
    }
  }

  /** With nothing due after minute `low + 1`, that minute is the occurrence after minute `low`. */
  lemma OnlyDue(c: Cron, low: int, now: int, due: int, following: Option<int>)
    requires IsNext(c, low * MINUTE, due) && due <= now && Silent(c, (low + 1) * MINUTE, now)
    requires following.Some? ==> IsNext(c, low * MINUTE, following.value)
    requires following.None? ==> Silent(c, low * MINUTE, Horizon(low * MINUTE))
    ensures Silent(c, due, now) && following == Some(due)
  {
    assert Fires(c, due) && !(due > (low + 1) * MINUTE);
    WholeMinute(low, due);
    assert due <= Horizon(low * MINUTE) by { DivIs(low * MINUTE, low, MINUTE); }
    if following.Some? { NextIsUnique(c, low * MINUTE, due, following.value); }
  }

  lemma WholeMinute(low: int, due: int)
    requires low * MINUTE < due && due % MINUTE == 0
    ensures due >= (low + 1) * MINUTE
  {
  }

  /** If the claimed slot is an occurrence, the result is the greatest occurrence not after `now`. */
  lemma LatestIsGreatest(c: Cron, claimed: int, now: int, slot: int)
    requires IsLatest(c, claimed, now, slot) && Fires(c, claimed)
    ensures Fires(c, slot) && slot <= now && forall t :: t <= now && Fires(c, t) ==> t <= slot
  {
  }

  /** The occurrence after `now` is also the one right after the latest due slot. */
  lemma NextAfterLatest(c: Cron, claimed: int, now: int, slot: int, next: int)
    requires IsLatest(c, claimed, now, slot) && IsNext(c, now, next)
    ensures IsNext(c, slot, next)
  {
  }
}
