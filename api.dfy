/**
 * The pure middle of the `/api/arrivalTimes` handler: from the two fetched
 * feeds (a failed fetch gives an empty list) and the day of the week to the
 * two display strings of the response. Fetching, the server and logging are
 * not modelled.
 */
module Api {
  import opened Strings
  import opened ClockTime
  import opened Odpt
  import opened Names
  import opened TrainSchedule
  import opened CalendarSelector
  import opened Arrivals
  import opened Format

  /** The cutoff the handler gives the arrival filter. */
  const DesiredTime: string := "07:45"

  /** The JSON body of the response. */
  datatype Response = Response(formattedMinowabashiArrivals: string, formattedWasedaArrivals: string)

  /** A looked-up value as a template literal shows it: absent is the text "null". */
  function NullableText(value: Option<string>): (text: string)
    ensures value.Some? ==> text == value.value
    ensures value.None? ==> text == "null"
  {
    match value
    case Some(v) => v
    case None => "null"
  }

  /** The label of a direction: the terminal station's Japanese name, a space, and the suffix. */
  function DirectionLabel(stations: seq<Station>, stationId: string): (directionName: string)
    ensures |directionName| > 0
  {
    NullableText(StationName(stations, stationId)) + " " + NullableText(DirectionSuffix(stationId))
  }

  /** Every departure time that reaches the schedule is an "HH:MM" time of day. */
  predicate HasClockTimes(s: Schedule)
  {
    forall d, c, t :: d in s && c in s[d] && t in s[d][c] ==> IsClockTime(t)
  }

  /** The arrivals of a bucket of a schedule with clock times can be formatted. */
  lemma ArrivalsAreDisplayable(s: Schedule, time: string, direction: string, calendarKey: string)
    requires HasClockTimes(s) && direction in s && calendarKey in s[direction]
    ensures IsDisplayable(ArrivalTimesAt(s, time, direction, calendarKey))
  {
  }

  /** The two formatted strings the handler answers with. Each is empty
      exactly when its direction has no departure at or after the cutoff. */
  function ArrivalTimesResponse(stations: seq<Station>, timetables: seq<StationTimetable>, dayOfWeek: int): (response: Response)
    requires HasClockTimes(BuildSchedule(timetables))
    ensures var trainSchedule := BuildSchedule(timetables);
      var calendarKey := CalendarKeyForDay(dayOfWeek);
      && (response.formattedMinowabashiArrivals == "" <==>
          Upcoming(trainSchedule[Minowabashi][calendarKey], DesiredTime) == [])
      && (response.formattedWasedaArrivals == "" <==>
          Upcoming(trainSchedule[Waseda][calendarKey], DesiredTime) == [])
  {
    var trainSchedule := BuildSchedule(timetables);
    var calendarKey := CalendarKeyForDay(dayOfWeek);
    var minowabashiArrivals := ArrivalTimesAt(trainSchedule, DesiredTime, Minowabashi, calendarKey);
    var wasedaArrivals := ArrivalTimesAt(trainSchedule, DesiredTime, Waseda, calendarKey);
    ArrivalsAreDisplayable(trainSchedule, DesiredTime, Minowabashi, calendarKey);
    ArrivalsAreDisplayable(trainSchedule, DesiredTime, Waseda, calendarKey);
    ArrivalTimesArePrefix(trainSchedule, DesiredTime, Minowabashi, calendarKey);
    ArrivalTimesArePrefix(trainSchedule, DesiredTime, Waseda, calendarKey);
    Response(
      FormatArrivalTimes(minowabashiArrivals, DirectionLabel(stations, MinowabashiStation)),
      FormatArrivalTimes(wasedaArrivals, DirectionLabel(stations, WasedaStation)))
  }

  /** When no timetable reaches the schedule (in particular when the
      timetable fetch failed and gave an empty list) both strings are empty,
      whatever the station feed holds. */
  lemma EmptyTimetableFeed(stations: seq<Station>, dayOfWeek: int)
    ensures HasClockTimes(BuildSchedule([]))
    ensures ArrivalTimesResponse(stations, [], dayOfWeek) == Response("", "")
  {
    var calendarKey := CalendarKeyForDay(dayOfWeek);
    assert BuildSchedule([])[Minowabashi][calendarKey] == [];
    assert BuildSchedule([])[Waseda][calendarKey] == [];
  }

  /** A terminal station present in the station feed is labelled with the
      Japanese title of its first entry, a space and its suffix. */
  lemma FoundStationName(stations: seq<Station>, stationId: string, i: int)
    requires IsFirstMatch(stations, stationId, i)
    ensures DirectionLabel(stations, stationId) ==
      stations[i].titleJa + " " + NullableText(DirectionSuffix(stationId))
  {
    var name := StationName(stations, stationId);
    var j :| IsFirstMatch(stations, stationId, j) && name.value == stations[j].titleJa;
    assert !(j < i) && !(i < j);
  }

  /** A terminal station missing from the station feed is shown as "null". */
  lemma MissingStationName(stations: seq<Station>, stationId: string)
    requires forall i :: 0 <= i < |stations| ==> stations[i].sameAs != stationId
    ensures DirectionLabel(stations, stationId) == "null " + NullableText(DirectionSuffix(stationId))
  {
  }

  /** Because the filter's cutoff is the formatter's reference time, no
      arrival the handler formats lies before the reference: every minute
      count it prints is zero or more. */
  lemma OffsetsAreNotNegative(s: Schedule, direction: string, calendarKey: string)
    requires HasClockTimes(s) && direction in s && calendarKey in s[direction]
    ensures var arrivals := ArrivalTimesAt(s, DesiredTime, direction, calendarKey);
      forall i :: 0 <= i < |arrivals| ==> MinutesFromReference(arrivals[i].arrivalTime) >= 0
  {
    var arrivals := ArrivalTimesAt(s, DesiredTime, direction, calendarKey);
    ReferenceTimeMinutes();
    assert DesiredTime == FormatterReferenceTime;
    forall i | 0 <= i < |arrivals|
      ensures MinutesFromReference(arrivals[i].arrivalTime) >= 0
    {
      ClockTimeAtLeast(arrivals[i].arrivalTime, DesiredTime);
    }
  }

  /** The label of a direction has no newline when no station title has one. */
  lemma DirectionLabelHasNoNewline(stations: seq<Station>, stationId: string)
    requires forall i :: 0 <= i < |stations| ==> '\n' !in stations[i].titleJa
    ensures '\n' !in DirectionLabel(stations, stationId)
  {
    assert '\n' !in " " && '\n' !in "null" && '\n' !in Kudari && '\n' !in Nobori;
  }

  /** Each string of the response is empty or holds between one and four
      lines, one per upcoming arrival, when station titles have no newline. */
  lemma ResponseLineCount(stations: seq<Station>, timetables: seq<StationTimetable>, dayOfWeek: int)
    requires HasClockTimes(BuildSchedule(timetables))
    requires forall i :: 0 <= i < |stations| ==> '\n' !in stations[i].titleJa
    ensures var response := ArrivalTimesResponse(stations, timetables, dayOfWeek);
      && (response.formattedMinowabashiArrivals != "" ==>
          1 <= |Split(response.formattedMinowabashiArrivals, '\n')| <= MaxArrivals)
      && (response.formattedWasedaArrivals != "" ==>
          1 <= |Split(response.formattedWasedaArrivals, '\n')| <= MaxArrivals)
  {
    var trainSchedule := BuildSchedule(timetables);
    var calendarKey := CalendarKeyForDay(dayOfWeek);
    DirectionLineCount(stations, trainSchedule, Minowabashi, calendarKey, MinowabashiStation);
    DirectionLineCount(stations, trainSchedule, Waseda, calendarKey, WasedaStation);
  }

  lemma DirectionLineCount(stations: seq<Station>, s: Schedule, direction: string, calendarKey: string, stationId: string)
    requires HasClockTimes(s) && direction in s && calendarKey in s[direction]
    requires forall i :: 0 <= i < |stations| ==> '\n' !in stations[i].titleJa
    ensures var arrivals := ArrivalTimesAt(s, DesiredTime, direction, calendarKey);
      IsDisplayable(arrivals) &&
      var text := FormatArrivalTimes(arrivals, DirectionLabel(stations, stationId));
      text != "" ==> 1 <= |Split(text, '\n')| == |arrivals| <= MaxArrivals
  {
    var arrivals := ArrivalTimesAt(s, DesiredTime, direction, calendarKey);
    if arrivals != [] {
      DirectionLabelHasNoNewline(stations, stationId);
      ClockTimeHasNoNewline(arrivals[0].arrivalTime);
      FormattedLines(arrivals, DirectionLabel(stations, stationId));
    }
  }

  /** The handler's steps in its order: build the schedule, pick the
      calendar, filter both directions at the cutoff, look up names and
      suffixes, and format each direction. */
  method HandleArrivalTimes(stationData: seq<Station>, data: seq<StationTimetable>, dayOfWeek: int)
    returns (response: Response)
    requires HasClockTimes(BuildSchedule(data))
    ensures response == ArrivalTimesResponse(stationData, data, dayOfWeek)
  {
    var trainSchedule := BuildTrainSchedule(data);
    var calendarKey := CalendarKeyForDay(dayOfWeek);

    var minowabashiArrivals := GetArrivalTimesAt(trainSchedule, DesiredTime, Minowabashi, calendarKey);
    var wasedaArrivals := GetArrivalTimesAt(trainSchedule, DesiredTime, Waseda, calendarKey);

    var minowabashiDirectionName := GetStationName(stationData, MinowabashiStation);
    var wasedaDirectionName := GetStationName(stationData, WasedaStation);

    var minowabashiDirectionSuffix := DirectionSuffix(MinowabashiStation);
    var wasedaDirectionSuffix := DirectionSuffix(WasedaStation);

    ArrivalsAreDisplayable(trainSchedule, DesiredTime, Minowabashi, calendarKey);
    ArrivalsAreDisplayable(trainSchedule, DesiredTime, Waseda, calendarKey);
    var formattedMinowabashiArrivals := FormatArrivalTimes(minowabashiArrivals,
      NullableText(minowabashiDirectionName) + " " + NullableText(minowabashiDirectionSuffix));
    var formattedWasedaArrivals := FormatArrivalTimes(wasedaArrivals,
      NullableText(wasedaDirectionName) + " " + NullableText(wasedaDirectionSuffix));

    response := Response(formattedMinowabashiArrivals, formattedWasedaArrivals);
  }
}
