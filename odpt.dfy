/**
 * The records the backend receives from the two open-data feeds, reduced to
 * the fields it reads, and the feed identifiers it compares them against.
 */
module Odpt {

  datatype Option<+T> = None | Some(value: T)

  /** One entry of the station feed: its `owl:sameAs` identifier and the
      Japanese entry of its `odpt:stationTitle`. */
  datatype Station = Station(sameAs: string, titleJa: string)

  /** One element of a timetable's `odpt:stationTimetableObject` list. */
  datatype StationTimetableObject = StationTimetableObject(departureTime: string)

  /** One entry of the station-timetable feed: `odpt:station`,
      `odpt:railDirection`, `odpt:calendar` and the stop objects in feed order. */
  datatype StationTimetable = StationTimetable(
    station: string,
    railDirection: string,
    calendar: string,
    timetableObjects: seq<StationTimetableObject>)

  /** The one station whose timetables are kept. */
  const ShinKoshinzuka: string := "odpt.Station:Toei.Arakawa.ShinKoshinzuka"

  /** The two terminal stations, whose names label the two directions. */
  const MinowabashiStation: string := "odpt.Station:Toei.Arakawa.Minowabashi"
  const WasedaStation: string := "odpt.Station:Toei.Arakawa.Waseda"

  /** The two recognised rail directions. */
  const RailDirectionPrefix: string := "odpt.RailDirection:Toei."
  const MinowabashiRailDirection: string := "odpt.RailDirection:Toei.Minowabashi"
  const WasedaRailDirection: string := "odpt.RailDirection:Toei.Waseda"

  /** The three recognised service calendars. */
  const HolidayCalendar: string := "odpt.Calendar:Holiday"
  const SaturdayCalendar: string := "odpt.Calendar:Saturday"
  const WeekdayCalendar: string := "odpt.Calendar:Weekday"
}
