/** Trading-calendar helpers (src/lib/marketUtils.ts): whether the Indian
    market is open, the next weekday on which it opens and "time ago"
    bucketing. The clock is a parameter: the day of the week (0 = Sunday,
    6 = Saturday), the hour and minute and the date string, all already in
    India Standard Time. */
module MarketHours {

  /** What `isMarketOpen` reads from the clock. */
  datatype Clock = Clock(dayOfWeek: int, hours: int, minutes: int, date: string)

  const MarketOpenMinute: int := 9 * 60 + 15
  const MarketCloseMinute: int := 15 * 60 + 30

  /** The fixed holiday list, as YYYY-MM-DD strings. */
  const Holidays: seq<string> := [
    "2025-01-26", "2025-03-14", "2025-03-31", "2025-04-10", "2025-04-14",
    "2025-04-18", "2025-05-01", "2025-08-15", "2025-08-27", "2025-10-02",
    "2025-10-21", "2025-11-01", "2025-11-05"
  ]

  predicate IsWeekend(dayOfWeek: int)
  {
    dayOfWeek == 0 || dayOfWeek == 6
  }

  /** `isMarketOpen`: closed at the weekend, outside 09:15-15:30 (both ends
      included) and on a holiday, checked in that order. */
  function IsMarketOpen(c: Clock): (open: bool)
    ensures IsWeekend(c.dayOfWeek) ==> !open
    ensures c.date in Holidays ==> !open
    ensures open <==>
              && !IsWeekend(c.dayOfWeek)
              && MarketOpenMinute <= c.hours * 60 + c.minutes <= MarketCloseMinute
              && c.date !in Holidays
  {
    if IsWeekend(c.dayOfWeek) then false
    else
      var currentTime := c.hours * 60 + c.minutes;
      if currentTime < MarketOpenMinute || currentTime > MarketCloseMinute then false
      else if c.date in Holidays then false
      else true
  }

  /** The window is 09:15 to 15:30: open at both ends, closed a minute outside. */
  lemma TradingWindowEdges(dayOfWeek: int, date: string)
    requires 1 <= dayOfWeek <= 5 && date !in Holidays
    ensures IsMarketOpen(Clock(dayOfWeek, 9, 15, date))
    ensures IsMarketOpen(Clock(dayOfWeek, 15, 30, date))
    ensures !IsMarketOpen(Clock(dayOfWeek, 9, 14, date))
    ensures !IsMarketOpen(Clock(dayOfWeek, 15, 31, date))
  {
  }

  /** Republic Day 2025 is a holiday even inside the window on a weekday. */
  lemma RepublicDayClosed(dayOfWeek: int, hours: int, minutes: int)
    ensures !IsMarketOpen(Clock(dayOfWeek, hours, minutes, "2025-01-26"))
  {
    assert Holidays[0] == "2025-01-26";
  }

  /** The day of the week k days after `today`. */
  function DayAfter(today: int, k: int): int
  {
    (today + k) % 7
  }

  /** `getNextMarketOpenTime`, without the date formatting: starting from
      tomorrow, step one day at a time while the day falls on a weekend.
      The result is how many days ahead that day is, and its day of the week:
      the first weekday after today, so Monday three days after a Friday and
      two days after a Saturday. Holidays are not consulted. */
  method NextTradingDay(today: int) returns (daysAhead: int, dayOfWeek: int)
    requires 0 <= today <= 6
    ensures 1 <= daysAhead <= 3
    ensures dayOfWeek == DayAfter(today, daysAhead)
    ensures 1 <= dayOfWeek <= 5
    ensures forall k :: 1 <= k < daysAhead ==> IsWeekend(DayAfter(today, k))
    ensures daysAhead == (if today == 5 then 3 else if today == 6 then 2 else 1)
  {
    daysAhead := 1;
    dayOfWeek := DayAfter(today, 1);
    while IsWeekend(dayOfWeek)
      invariant 1 <= daysAhead <= 3
      invariant dayOfWeek == DayAfter(today, daysAhead)
      invariant forall k :: 1 <= k < daysAhead ==> IsWeekend(DayAfter(today, k))
      invariant daysAhead == 1 || (daysAhead == 2 && today >= 5) || (daysAhead == 3 && today == 5)
      decreases 3 - daysAhead
    {
      daysAhead := daysAhead + 1;
      dayOfWeek := DayAfter(today, daysAhead);
    }
  }

  /** The bucket `getTimeAgo` chooses for the elapsed time; the last one is
      shown as a formatted date. */
  datatype Ago = JustNow | MinutesAgo(minutes: int) | HoursAgo(hours: int) | DaysAgo(days: int) | OnDate

  /** `getTimeAgo` on the elapsed milliseconds. Dividing by a positive
      constant, Dafny's `/` is the floor that `Math.floor` takes, also for a
      date in the future, which therefore reads "Just now". Each bucket
      holds exactly the whole units that have fully elapsed. */
  function TimeAgo(elapsedMs: int): (a: Ago)
    ensures a == JustNow <==> elapsedMs / 1000 < 60
    ensures a == OnDate <==> elapsedMs / 1000 >= 604800
    ensures a.MinutesAgo? ==> 1 <= a.minutes <= 59 && a.minutes * 60 <= elapsedMs / 1000 < (a.minutes + 1) * 60
    ensures a.HoursAgo? ==> 1 <= a.hours <= 23 && a.hours * 3600 <= elapsedMs / 1000 < (a.hours + 1) * 3600
    ensures a.DaysAgo? ==> 1 <= a.days <= 6 && a.days * 86400 <= elapsedMs / 1000 < (a.days + 1) * 86400
  {
    var seconds := elapsedMs / 1000;
    if seconds < 60 then JustNow
    else if seconds < 3600 then MinutesAgo(seconds / 60)
    else if seconds < 86400 then HoursAgo(seconds / 3600)
    else if seconds < 604800 then DaysAgo(seconds / 86400)
    else OnDate
  }

  /** Ninety seconds read as one minute, two hours as two hours. */
  lemma TimeAgoExamples()
    ensures TimeAgo(90000) == MinutesAgo(1)
    ensures TimeAgo(7200000) == HoursAgo(2)
    ensures TimeAgo(-5000) == JustNow
  {
  }
}
