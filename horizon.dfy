/**
 * The planning horizon: the number of full Sunday-to-Sunday weeks between
 * the first Sunday on or after today and race day. Days are plain day
 * numbers (consecutive integers); the clock is a parameter, so "today" is a
 * day number together with its weekday, Monday = 0 ... Sunday = 6.
 */
module Horizon {

  const Sunday := 6

  /** The weekday of `day`, counted from `today`, whose weekday is `weekday`. */
  function WeekdayOf(today: int, weekday: int, day: int): (w: int)
    ensures 0 <= w < 7
  {
    (weekday + (day - today)) % 7
  }

  /** How many days to add to today to reach the first Sunday on or after it. */
  function DaysToFirstSunday(weekday: int): (d: int)
    requires 0 <= weekday <= 6
    ensures d == Sunday - weekday
    ensures 0 <= d <= 6
    ensures d == 0 <==> weekday == Sunday
  {
    if weekday == 0 then 6
    else if weekday == 1 then 5
    else if weekday == 2 then 4
    else if weekday == 3 then 3
    else if weekday == 4 then 2
    else if weekday == 5 then 1
    else 0
  }

  /** The first Sunday on or after today. */
  function FirstSundayFromToday(today: int, weekday: int): (s: int)
    requires 0 <= weekday <= 6
    ensures today <= s <= today + 6
    ensures s == today <==> weekday == Sunday
    ensures WeekdayOf(today, weekday, s) == Sunday
    ensures forall day :: today <= day < s ==> WeekdayOf(today, weekday, day) != Sunday
  {
    today + DaysToFirstSunday(weekday)
  }

  /**
   * Full weeks from the first Sunday on or after today to race day, with
   * floor division (for the positive divisor 7, Dafny's `/` is the floor).
   * Negative when race day precedes that Sunday.
   */
  function FullWeeksTillRace(today: int, weekday: int, raceDay: int): (n: int)
    requires 0 <= weekday <= 6
    ensures var s := FirstSundayFromToday(today, weekday);
      s + 7 * n <= raceDay < s + 7 * (n + 1)
  {
    (raceDay - FirstSundayFromToday(today, weekday)) / 7
  }

  /** A race exactly `weeks` weeks after the first Sunday gives a horizon of `weeks`. */
  lemma ExactWeeks(today: int, weekday: int, weeks: int)
    requires 0 <= weekday <= 6
    ensures FullWeeksTillRace(today, weekday, FirstSundayFromToday(today, weekday) + 7 * weeks) == weeks
  {
  }

  /** The horizon is negative exactly when race day comes before the first Sunday. */
  lemma NegativeIffRaceBeforeFirstSunday(today: int, weekday: int, raceDay: int)
    requires 0 <= weekday <= 6
    ensures FullWeeksTillRace(today, weekday, raceDay) < 0 <==> raceDay < FirstSundayFromToday(today, weekday)
  {
  }

  /** A later race never gives a shorter horizon. */
  lemma Monotone(today: int, weekday: int, raceDay: int, laterRaceDay: int)
    requires 0 <= weekday <= 6
    requires raceDay <= laterRaceDay
    ensures FullWeeksTillRace(today, weekday, raceDay) <= FullWeeksTillRace(today, weekday, laterRaceDay)
  {
  }
}
