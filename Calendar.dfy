/**
 * Calendar dates as integer day numbers: day 0 is 1970-01-01, a Thursday.
 * Weekdays are numbered as Python's `date.weekday()`: Monday 0 … Sunday 6.
 */
module Calendar {

  const EpochWeekday: nat := 3
  const Sunday: nat := 6

  function Weekday(day: int): (w: nat)
    ensures w < 7
  {
    (day + EpochWeekday) % 7
  }

  predicate IsSunday(day: int) {
    Weekday(day) == Sunday
  }

  /** Whole weeks do not change the weekday. */
  lemma WeekdayAfterWeeks(day: int, weeks: int)
    ensures Weekday(day + 7 * weeks) == Weekday(day)
  {
    assert (day + 7 * weeks + EpochWeekday) == (day + EpochWeekday) + 7 * weeks;
  }
}
