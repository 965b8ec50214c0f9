/**
 * The calendar selector: which of the three service calendars applies on a
 * given day of the week (0 is Sunday, 6 is Saturday, as JavaScript's
 * `Date.prototype.getDay` numbers them).
 */
module CalendarSelector {
  import opened TrainSchedule

  /** The day of the week of the instant the backend pins, 4 June 2023, a Sunday. */
  const PinnedDayOfWeek: int := 0

  /** Saturday timetables on Saturdays, holiday timetables on Sundays,
      weekday timetables on every other day. */
  function CalendarKeyForDay(dayOfWeek: int): (key: string)
    ensures key in CalendarKeys
    ensures key == Saturday <==> dayOfWeek == 6
    ensures key == Holiday <==> dayOfWeek == 0
    ensures key == Weekdays <==> dayOfWeek != 6 && dayOfWeek != 0
  {
    if dayOfWeek == 6 then Saturday
    else if dayOfWeek == 0 then Holiday
    else Weekdays
  }

  /** Whatever the day, the selected calendar is a bucket of every built schedule. */
  lemma SelectedCalendarIsBucket(data: seq<Odpt.StationTimetable>, dayOfWeek: int, d: string)
    requires d in DirectionKeys
    ensures d in BuildSchedule(data) && CalendarKeyForDay(dayOfWeek) in BuildSchedule(data)[d]
  {
  }
}
