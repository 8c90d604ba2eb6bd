/**
 Calendar days and instants. A day is a whole number of days since
 1970-01-01; an instant is a day plus the second within it. Time zones,
 daylight saving and the textual date formats are not modelled.
 */
module Calendar {

  const SecondsPerDay: int := 86400

  datatype Instant = Instant(day: int, second: int)

  /** The first second of a day (what `new DateTime('Y-m-d')` gives). */
  function Midnight(day: int): Instant
  {
    Instant(day, 0)
  }

  /** The last second of a day: midnight moved forward by 23:59:59. */
  function EndOfDay(day: int): (t: Instant)
    ensures t.day == day && t.second == SecondsPerDay - 1
  {
    Instant(day, 23 * 3600 + 59 * 60 + 59)
  }

  /**
   ISO-8601 weekday of a day (PHP's format character 'N'):
   1 is Monday, 7 is Sunday. 1970-01-01 was a Thursday.
   */
  function IsoWeekday(day: int): (w: int)
    ensures 1 <= w <= 7
  {
    (day + 3) % 7 + 1
  }

}
