/**
 * A worked case of the whole pipeline: one weekday timetable for
 * Shin-Koshinzuka towards Minowabashi with departures 07:40, 07:50, 08:10,
 * 08:30 and 09:00, asked for on a Monday at the 07:45 cutoff.
 */
module Scenario {
  import opened Strings
  import opened ClockTime
  import opened Odpt
  import opened TrainSchedule
  import opened Arrivals
  import opened Format
  import opened CalendarSelector
  import opened Api

  const Times: seq<string> := ["07:40", "07:50", "08:10", "08:30", "09:00"]

  function Objects(): seq<StationTimetableObject>
  {
    seq(|Times|, i requires 0 <= i < |Times| => StationTimetableObject(Times[i]))
  }

  function Record(): StationTimetable
  {
    StationTimetable(ShinKoshinzuka, MinowabashiRailDirection, WeekdayCalendar, Objects())
  }

  lemma ScenarioSchedule(d: string, c: string)
    requires d in DirectionKeys && c in CalendarKeys
    ensures BuildSchedule([Record()])[d][c] == if d == Minowabashi && c == Weekdays then Times else []
  {
    BuildScheduleBucket([Record()], d, c);
    assert [Record()][1..] == [];
    assert Departures(Objects()) == Times;
    RecognisedDirectionKey(MinowabashiRailDirection);
    if Contributes(Record(), d, c) {
      PrefixCancel(d, Minowabashi);
    }
  }

  /** Filtering five times of which only the first is before the cutoff. */
  lemma UpcomingDropsFirstOfFive(t0: string, t1: string, t2: string, t3: string, t4: string, time: string)
    requires StringLess(t0, time)
    requires StringAtLeast(t1, time) && StringAtLeast(t2, time) && StringAtLeast(t3, time) && StringAtLeast(t4, time)
    ensures Upcoming([t0, t1, t2, t3, t4], time) == [t1, t2, t3, t4]
  {
    assert [t4][1..] == [];
    assert Upcoming([t4], time) == [t4];
    assert [t3, t4][1..] == [t4];
    assert Upcoming([t3, t4], time) == [t3, t4];
    assert [t2, t3, t4][1..] == [t3, t4];
    assert Upcoming([t2, t3, t4], time) == [t2, t3, t4];
    assert [t1, t2, t3, t4][1..] == [t2, t3, t4];
    assert Upcoming([t1, t2, t3, t4], time) == [t1, t2, t3, t4];
    assert [t0, t1, t2, t3, t4][1..] == [t1, t2, t3, t4];
  }

  lemma ScenarioUpcoming()
    ensures Upcoming(Times, "07:45") == ["07:50", "08:10", "08:30", "09:00"]
  {
    var cutoff := "07:45";
    assert IsClockTime(cutoff) && Minutes(cutoff) == 465;
    forall t | t in Times
      ensures IsClockTime(t) && (StringAtLeast(t, cutoff) <==> t != "07:40")
    {
      ClockTimeAtLeast(t, cutoff);
    }
    UpcomingDropsFirstOfFive("07:40", "07:50", "08:10", "08:30", "09:00", cutoff);
  }

  /** Joining four lines. */
  lemma JoinFour(a: string, b: string, c: string, d: string)
    ensures Join([a, b, c, d], '\n') == a + "\n" + b + "\n" + c + "\n" + d
  {
    assert [c, d][1..] == [d];
    assert Join([c, d], '\n') == c + "\n" + d;
    assert [b, c, d][1..] == [c, d];
    assert Join([b, c, d], '\n') == b + "\n" + (c + "\n" + d);
    assert [a, b, c, d][1..] == [b, c, d];
  }

  /** The minute counts printed for the three later arrivals of the worked case. */
  lemma ScenarioOffsets()
    ensures IsClockTime("08:10") && IntToString(MinutesFromReference("08:10")) == "25"
    ensures IsClockTime("08:30") && IntToString(MinutesFromReference("08:30")) == "45"
    ensures IsClockTime("09:00") && IntToString(MinutesFromReference("09:00")) == "75"
  {
    assert IsClockTime("08:10") && Minutes("08:10") == 490;
    assert IsClockTime("08:30") && Minutes("08:30") == 510;
    assert IsClockTime("09:00") && Minutes("09:00") == 540;
    assert IntToString(25) == "25" && IntToString(45) == "45" && IntToString(75) == "75";
  }

  /** A later line with a known minute text. */
  lemma LaterLine(directionName: string, t: string, index: nat, minutes: string)
    requires index > 0 && IsClockTime(t) && IntToString(MinutesFromReference(t)) == minutes
    ensures ArrivalLine(directionName, t, index) == directionName + " " + minutes + " min(s) (" + t + ")"
  {
  }

  /** The four upcoming arrivals of the worked case, formatted under any label. */
  lemma ScenarioFormat(arrivals: seq<ArrivalEntry>, directionName: string)
    requires |arrivals| == 4
    requires arrivals[0].arrivalTime == "07:50" && arrivals[1].arrivalTime == "08:10"
    requires arrivals[2].arrivalTime == "08:30" && arrivals[3].arrivalTime == "09:00"
    ensures IsDisplayable(arrivals)
    ensures FormatArrivalTimes(arrivals, directionName) ==
      (directionName + " arriving (" + "07:50" + ")") + "\n" +
      (directionName + " " + "25" + " min(s) (" + "08:10" + ")") + "\n" +
      (directionName + " " + "45" + " min(s) (" + "08:30" + ")") + "\n" +
      (directionName + " " + "75" + " min(s) (" + "09:00" + ")")
  {
    ScenarioOffsets();
    var lines := ArrivalLines(arrivals, directionName);
    LaterLine(directionName, "08:10", 1, "25");
    LaterLine(directionName, "08:30", 2, "45");
    LaterLine(directionName, "09:00", 3, "75");
    assert lines == [lines[0], lines[1], lines[2], lines[3]];
    JoinFour(lines[0], lines[1], lines[2], lines[3]);
  }

  /** Every departure of the worked case is a time of day. */
  lemma ScenarioTimesAreClockTimes()
    ensures forall t :: t in Times ==> IsClockTime(t)
  {
    assert IsClockTime(Times[0]) && IsClockTime(Times[1]) && IsClockTime(Times[2]);
    assert IsClockTime(Times[3]) && IsClockTime(Times[4]);
  }

  /** The schedule built from the worked case holds only times of day. */
  lemma ScenarioClockTimes()
    ensures HasClockTimes(BuildSchedule([Record()]))
  {
    var s := BuildSchedule([Record()]);
    ScenarioTimesAreClockTimes();
    forall d, c, t | d in s && c in s[d] && t in s[d][c]
      ensures IsClockTime(t)
    {
      ScenarioSchedule(d, c);
    }
  }

  /** The whole handler on the worked case, on a Monday: the Minowabashi
      string lists the four departures from 07:50 under the Minowabashi
      label, and the Waseda string is empty. */
  lemma ScenarioResponse(stations: seq<Station>)
    ensures HasClockTimes(BuildSchedule([Record()]))
    ensures var directionName := DirectionLabel(stations, MinowabashiStation);
      ArrivalTimesResponse(stations, [Record()], 1) == Response(
        (directionName + " arriving (" + "07:50" + ")") + "\n" +
        (directionName + " " + "25" + " min(s) (" + "08:10" + ")") + "\n" +
        (directionName + " " + "45" + " min(s) (" + "08:30" + ")") + "\n" +
        (directionName + " " + "75" + " min(s) (" + "09:00" + ")"),
        "")
  {
    var s := BuildSchedule([Record()]);
    ScenarioClockTimes();
    assert CalendarKeyForDay(1) == Weekdays;
    ScenarioSchedule(Minowabashi, Weekdays);
    ScenarioSchedule(Waseda, Weekdays);
    ScenarioUpcoming();
    ArrivalTimesArePrefix(s, DesiredTime, Minowabashi, Weekdays);
    var arrivals := ArrivalTimesAt(s, DesiredTime, Minowabashi, Weekdays);
    ScenarioFormat(arrivals, DirectionLabel(stations, MinowabashiStation));
    assert Upcoming(s[Waseda][Weekdays], DesiredTime) == [];
  }

  /** On the pinned day, a Sunday, the handler reads the holiday
      timetables only, so the worked case's weekday departures are not
      shown and both strings are empty. */
  lemma ScenarioOnPinnedDay(stations: seq<Station>)
    ensures HasClockTimes(BuildSchedule([Record()]))
    ensures ArrivalTimesResponse(stations, [Record()], PinnedDayOfWeek) == Response("", "")
  {
    var s := BuildSchedule([Record()]);
    ScenarioClockTimes();
    assert CalendarKeyForDay(PinnedDayOfWeek) == Holiday;
    ScenarioSchedule(Minowabashi, Holiday);
    ScenarioSchedule(Waseda, Holiday);
    assert Upcoming(s[Minowabashi][Holiday], DesiredTime) == [];
    assert Upcoming(s[Waseda][Holiday], DesiredTime) == [];
  }
}
