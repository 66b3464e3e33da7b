/**
 * sync/date_window.py.  Dates are day numbers; the Norwegian working-day
 * calendar is a parameter.
 */
module DateWindow {

  datatype MatchWindowUnit = CalendarDays | WorkingDays

  type WorkingDayCount = (int, int) -> nat

  function DaysBetween(d1: int, d2: int, unit: MatchWindowUnit, workingDays: WorkingDayCount): nat {
    match unit
    case CalendarDays => if d2 < d1 then d1 - d2 else d2 - d1
    case WorkingDays => workingDays(d1, d2)
  }

  function SinceDateBound(ref: int, lookbackDays: int): int {
    ref - lookbackDays
  }

  const SECONDS_PER_DAY := 86400

  /** datetime.date() of a UTC time given in seconds. */
  function DateOf(time: int): int {
    time / SECONDS_PER_DAY
  }

  lemma DateOfIsDay(t: int)
    ensures DateOf(t) * 86400 <= t < DateOf(t) * 86400 + 86400
  {
  }

  lemma DateOfMonotone(t: int, u: int)
    requires t <= u
    ensures DateOf(t) <= DateOf(u)
  {
  }

  lemma DateOfShift(t: int, days: int)
    ensures DateOf(t - days * SECONDS_PER_DAY) == DateOf(t) - days
  {
    var q, r := t / SECONDS_PER_DAY, t % SECONDS_PER_DAY;
    assert t - days * SECONDS_PER_DAY == (q - days) * SECONDS_PER_DAY + r;
  }
}
