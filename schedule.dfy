/**
 * The next-run computation of the daily broadcast. Local time is a `DateTime`
 * tick count (100 ns units counted from midnight of day 0); a calendar day is a
 * whole number of ticks, so "today at 21:00:00" is the start of the current day
 * plus 21 hours.
 */
module Schedule {

  const TicksPerSecond: nat := 10_000_000
  const TicksPerDay: nat := 864_000_000_000  // 24 hours

  /** The broadcast hour used by the scheduler (21:00:00 local time). */
  const FireHour: nat := 21
  const FireTickOfDay: nat := 756_000_000_000  // 21 hours

  /** The tick constants are the hours they stand for. */
  lemma ConstantsInHours()
    ensures TicksPerDay == 24 * 3600 * TicksPerSecond
    ensures FireTickOfDay == FireHour * 3600 * TicksPerSecond < TicksPerDay
  {
  }

  /** `now.Date`: midnight of the day containing `now`. */
  function StartOfDay(now: nat): (r: nat)
    ensures r <= now < r + TicksPerDay && r % TicksPerDay == 0
  {
    now / TicksPerDay * TicksPerDay
  }

  /** `new DateTime(now.Year, now.Month, now.Day, 21, 0, 0)`. */
  function TodayAtFireTime(now: nat): (r: nat)
    ensures r % TicksPerDay == FireTickOfDay && r / TicksPerDay == now / TicksPerDay
  {
    StartOfDay(now) + FireTickOfDay
  }

  /** Today's fire time, or tomorrow's when `now` is strictly past it. */
  function NextRunTime(now: nat): (r: nat)
    ensures now <= r < now + TicksPerDay
  {
    var today := TodayAtFireTime(now);
    if now > today then today + TicksPerDay else today
  }

  /** `nextRunTime - now`, the time the scheduler sleeps. */
  function Delay(now: nat): (r: int)
    ensures 0 <= r
  {
    NextRunTime(now) - now
  }

  lemma TimeOfDay(now: nat)
    ensures StartOfDay(now) <= now < StartOfDay(now) + TicksPerDay
    ensures now - StartOfDay(now) == now % TicksPerDay
    ensures StartOfDay(now) % TicksPerDay == 0
  {
  }

  /** The scheduler never sleeps a negative time nor a full day or more. */
  lemma DelayWithinOneDay(now: nat)
    ensures 0 <= Delay(now) < TicksPerDay
  {
    TimeOfDay(now);
  }

  /** The broadcast fires today exactly when `now` is at or before 21:00:00;
      past it, it fires 24 hours after today's fire time. */
  lemma FiresTodayIffNotPast(now: nat)
    ensures NextRunTime(now) == TodayAtFireTime(now) <==> now % TicksPerDay <= FireTickOfDay
    ensures now % TicksPerDay > FireTickOfDay ==> NextRunTime(now) == TodayAtFireTime(now) + TicksPerDay
  {
    TimeOfDay(now);
  }

  /** The next run time is a fire instant not before `now`. */
  lemma NextRunTimeIsFireInstant(now: nat)
    ensures now <= NextRunTime(now) && NextRunTime(now) % TicksPerDay == FireTickOfDay
  {
    TimeOfDay(now);
  }

  /** No fire instant between `now` and the next run time is skipped. */
  lemma NextRunTimeIsEarliest(now: nat, t: nat)
    requires now <= t && t % TicksPerDay == FireTickOfDay
    ensures NextRunTime(now) <= t
  {
    var d, e := now / TicksPerDay, t / TicksPerDay;
    assert d <= e;
    if e == d {
      assert t == TodayAtFireTime(now);
    } else {
      assert TodayAtFireTime(now) + TicksPerDay <= TodayAtFireTime(t) == t;
    }
  }
}
