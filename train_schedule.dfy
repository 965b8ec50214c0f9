/**
 * The schedule builder: turns the station-timetable feed into the departure
 * times of Shin-Koshinzuka, one list per (direction, calendar) pair.
 *
 * The schedule is a two-level dictionary keyed by strings, as in the source:
 * direction key ("Minowabashi", "Waseda") then calendar key ("Holiday",
 * "Saturday", "Weekdays"). The direction key is cut out of the feed's rail
 * direction identifier with two splits, and the calendar key comes from
 * `CalendarKeyOf`; records that are not for the station, not in a recognised
 * direction or not on a recognised calendar change nothing.
 */
module TrainSchedule {
  import opened Strings
  import opened Odpt

  type Schedule = map<string, map<string, seq<string>>>

  const Minowabashi: string := "Minowabashi"
  const Waseda: string := "Waseda"
  const Holiday: string := "Holiday"
  const Saturday: string := "Saturday"
  const Weekdays: string := "Weekdays"

  const DirectionKeys: set<string> := {Minowabashi, Waseda}
  const CalendarKeys: set<string> := {Holiday, Saturday, Weekdays}

  /** The schedule has exactly the two directions, each with exactly the three calendars. */
  predicate IsComplete(s: Schedule)
  {
    && s.Keys == DirectionKeys
    && forall d :: d in s ==> s[d].Keys == CalendarKeys
  }

  /** The schedule every build starts from: all six lists empty. */
  function Skeleton(): (s: Schedule)
    ensures IsComplete(s)
    ensures forall d, c :: d in s && c in s[d] ==> s[d][c] == []
  {
    var empty: map<string, seq<string>> := map[Holiday := [], Saturday := [], Weekdays := []];
    map[Minowabashi := empty, Waseda := empty]
  }

  /** The calendar key for a feed calendar identifier; None (null in the
      source) for any calendar other than the three recognised ones. */
  function CalendarKeyOf(calendar: string): (key: Option<string>)
    ensures key == Some(Holiday) <==> calendar == HolidayCalendar
    ensures key == Some(Saturday) <==> calendar == SaturdayCalendar
    ensures key == Some(Weekdays) <==> calendar == WeekdayCalendar
    ensures key.Some? ==> key.value in CalendarKeys
  {
    if calendar == HolidayCalendar then Some(Holiday)
    else if calendar == SaturdayCalendar then Some(Saturday)
    else if calendar == WeekdayCalendar then Some(Weekdays)
    else None
  }

  predicate IsRecognisedDirection(railDirection: string)
  {
    railDirection == MinowabashiRailDirection || railDirection == WasedaRailDirection
  }

  /** The two splits that cut the direction key out of a rail direction
      identifier both produce a second piece. */
  predicate HasDirectionKey(railDirection: string)
  {
    && |Split(railDirection, ':')| >= 2
    && |Split(Split(railDirection, ':')[1], '.')| >= 2
  }

  /** The second '.'-piece of the second ':'-piece of the rail direction. */
  function DirectionKeyOf(railDirection: string): string
    requires HasDirectionKey(railDirection)
  {
    Split(Split(railDirection, ':')[1], '.')[1]
  }

  /** Splitting "odpt.RailDirection:Toei.<d>" yields `d`, for any `d` free of ':' and '.'. */
  lemma DirectionKeyOfPrefixed(d: string)
    requires ':' !in d && '.' !in d
    ensures HasDirectionKey(RailDirectionPrefix + d)
    ensures DirectionKeyOf(RailDirectionPrefix + d) == d
  {
    var head, operator := "odpt.RailDirection", "Toei";
    var tail := operator + ['.'] + d;
    assert RailDirectionPrefix + d == head + [':'] + tail;
    assert ':' !in head;
    SplitAfterPiece(head, ':', tail);
    assert ':' !in tail;
    SplitWithoutSeparator(tail, ':');
    assert '.' !in operator;
    SplitAfterPiece(operator, '.', d);
    SplitWithoutSeparator(d, '.');
  }

  /** Both recognised rail directions yield a key of the skeleton, and are
      the prefix followed by that key. */
  lemma RecognisedDirectionKey(railDirection: string)
    requires IsRecognisedDirection(railDirection)
    ensures HasDirectionKey(railDirection)
    ensures DirectionKeyOf(railDirection) in DirectionKeys
    ensures railDirection == RailDirectionPrefix + DirectionKeyOf(railDirection)
    ensures railDirection == MinowabashiRailDirection <==> DirectionKeyOf(railDirection) == Minowabashi
  {
    if railDirection == MinowabashiRailDirection {
      assert MinowabashiRailDirection == RailDirectionPrefix + Minowabashi;
      DirectionKeyOfPrefixed(Minowabashi);
    } else {
      assert WasedaRailDirection == RailDirectionPrefix + Waseda;
      DirectionKeyOfPrefixed(Waseda);
    }
  }

  /** The records the builder uses: the reference station, a recognised
      direction and a recognised calendar. */
  predicate Kept(r: StationTimetable)
  {
    && r.station == ShinKoshinzuka
    && IsRecognisedDirection(r.railDirection)
    && CalendarKeyOf(r.calendar).Some?
  }

  /** The departure times of a record's stop objects, in order. */
  function Departures(objects: seq<StationTimetableObject>): (times: seq<string>)
    ensures |times| == |objects|
    ensures forall i :: 0 <= i < |objects| ==> times[i] == objects[i].departureTime
  {
    seq(|objects|, i requires 0 <= i < |objects| => objects[i].departureTime)
  }

  /** Bucket (d, c) of `s` with `times` appended to it. */
  function Pushed(s: Schedule, d: string, c: string, times: seq<string>): (s': Schedule)
    requires d in s && c in s[d]
    ensures s'.Keys == s.Keys && forall d' :: d' in s ==> s'[d'].Keys == s[d'].Keys
    ensures s'[d][c] == s[d][c] + times
    ensures forall d', c' :: d' in s && c' in s[d'] && (d' != d || c' != c) ==> s'[d'][c'] == s[d'][c']
  {
    s[d := s[d][c := s[d][c] + times]]
  }

  /** Appending in two steps is appending the concatenation. */
  lemma PushedTwice(s: Schedule, d: string, c: string, times: seq<string>, more: seq<string>)
    requires d in s && c in s[d]
    ensures Pushed(Pushed(s, d, c, times), d, c, more) == Pushed(s, d, c, times + more)
  {
    var s1 := Pushed(s, d, c, times);
    assert s[d][c] + times + more == s[d][c] + (times + more);
    assert s1[d][c := s1[d][c] + more] == s[d][c := s[d][c] + (times + more)];
  }

  lemma PushedNothing(s: Schedule, d: string, c: string)
    requires d in s && c in s[d]
    ensures Pushed(s, d, c, []) == s
  {
    assert s[d][c] + [] == s[d][c];
    assert s[d][c := s[d][c]] == s[d];
  }

  /** The effect of one feed record on the schedule. */
  function AddRecord(s: Schedule, r: StationTimetable): (s': Schedule)
    requires IsComplete(s)
    ensures IsComplete(s')
  {
    if Kept(r) then
      RecognisedDirectionKey(r.railDirection);
      Pushed(s, DirectionKeyOf(r.railDirection), CalendarKeyOf(r.calendar).value, Departures(r.timetableObjects))
    else
      s
  }

  /** The schedule built from the feed, record by record in feed order. */
  function BuildSchedule(data: seq<StationTimetable>): (s: Schedule)
    ensures IsComplete(s)
    decreases |data|
  {
    if data == [] then Skeleton()
    else AddRecord(BuildSchedule(data[..|data| - 1]), data[|data| - 1])
  }

  /** Record `r` belongs in bucket (d, c): stated on the feed's own fields. */
  predicate Contributes(r: StationTimetable, d: string, c: string)
  {
    && r.station == ShinKoshinzuka
    && r.railDirection == RailDirectionPrefix + d
    && CalendarKeyOf(r.calendar) == Some(c)
  }

  /** Reference definition of a bucket: the departures of every contributing
      record, concatenated in feed order. */
  function BucketTimes(data: seq<StationTimetable>, d: string, c: string): seq<string>
    decreases |data|
  {
    if data == [] then []
    else
      (if Contributes(data[0], d, c) then Departures(data[0].timetableObjects) else [])
      + BucketTimes(data[1..], d, c)
  }

  lemma {:induction false} BucketTimesConcat(a: seq<StationTimetable>, b: seq<StationTimetable>, d: string, c: string)
    ensures BucketTimes(a + b, d, c) == BucketTimes(a, d, c) + BucketTimes(b, d, c)
    decreases |a|
  {
    if a != [] {
      assert (a + b)[0] == a[0] && (a + b)[1..] == a[1..] + b;
      BucketTimesConcat(a[1..], b, d, c);
    } else {
      assert a + b == b;
    }
  }

  /** The bucket of a feed is the bucket of all but its last record, then the last record's share. */
  lemma BucketTimesSnoc(data: seq<StationTimetable>, d: string, c: string)
    requires data != []
    ensures var r := data[|data| - 1];
      BucketTimes(data, d, c) == BucketTimes(data[..|data| - 1], d, c)
        + (if Contributes(r, d, c) then Departures(r.timetableObjects) else [])
  {
    var init, r := data[..|data| - 1], data[|data| - 1];
    assert data == init + [r];
    BucketTimesConcat(init, [r], d, c);
    BucketTimesSingle(r, d, c);
  }

  lemma BucketTimesSingle(r: StationTimetable, d: string, c: string)
    ensures BucketTimes([r], d, c) == if Contributes(r, d, c) then Departures(r.timetableObjects) else []
  {
    assert [r][1..] == [];
  }

  /** The prefix followed by a direction key is the recognised rail direction for that key. */
  lemma PrefixedKeyIsRecognised(d: string)
    requires d in DirectionKeys
    ensures IsRecognisedDirection(RailDirectionPrefix + d)
  {
    if d == Minowabashi {
      assert RailDirectionPrefix + d == MinowabashiRailDirection;
    } else {
      assert RailDirectionPrefix + d == WasedaRailDirection;
    }
  }

  lemma PrefixCancel(d: string, d': string)
    requires RailDirectionPrefix + d == RailDirectionPrefix + d'
    ensures d == d'
  {
    assert (RailDirectionPrefix + d)[|RailDirectionPrefix|..] == d;
    assert (RailDirectionPrefix + d')[|RailDirectionPrefix|..] == d';
  }

  /** A kept record lands in the bucket named by its split-derived direction
      key and its calendar key, which is the one bucket it contributes to. */
  lemma KeptRecordTarget(r: StationTimetable, d: string, c: string)
    requires Kept(r)
    ensures HasDirectionKey(r.railDirection)
    ensures Contributes(r, d, c) <==>
      d == DirectionKeyOf(r.railDirection) && Some(c) == CalendarKeyOf(r.calendar)
  {
    RecognisedDirectionKey(r.railDirection);
    if r.railDirection == RailDirectionPrefix + d {
      PrefixCancel(d, DirectionKeyOf(r.railDirection));
    }
  }

  /** One record adds its departures to the end of exactly the bucket it
      contributes to, and to no other. */
  lemma AddRecordBucket(s: Schedule, r: StationTimetable, d: string, c: string)
    requires IsComplete(s) && d in DirectionKeys && c in CalendarKeys
    ensures AddRecord(s, r)[d][c] ==
      s[d][c] + (if Contributes(r, d, c) then Departures(r.timetableObjects) else [])
  {
    if Kept(r) {
      KeptRecordTarget(r, d, c);
    } else if Contributes(r, d, c) {
      PrefixedKeyIsRecognised(d);
      assert Kept(r);
    }
  }

  /** Each bucket of the built schedule is the concatenation, in feed order,
      of the departures of the records for Shin-Koshinzuka in that direction
      and on that calendar. */
  lemma {:induction false} BuildScheduleBucket(data: seq<StationTimetable>, d: string, c: string)
    requires d in DirectionKeys && c in CalendarKeys
    ensures BuildSchedule(data)[d][c] == BucketTimes(data, d, c)
    decreases |data|
  {
    if data != [] {
      var init, r := data[..|data| - 1], data[|data| - 1];
      BuildScheduleBucket(init, d, c);
      AddRecordBucket(BuildSchedule(init), r, d, c);
      BucketTimesSnoc(data, d, c);
    }
  }

  /** A record for another station, another direction or an unknown calendar
      leaves the whole schedule as it was. */
  lemma IgnoredRecord(data: seq<StationTimetable>, r: StationTimetable)
    requires !Kept(r)
    ensures BuildSchedule(data + [r]) == BuildSchedule(data)
  {
    assert (data + [r])[..|data|] == data;
  }

  /** Appending a record to the feed appends its departures to the bucket it
      contributes to; every other bucket, and the earlier contents, stay as they were. */
  lemma AppendRecord(data: seq<StationTimetable>, r: StationTimetable, d: string, c: string)
    requires d in DirectionKeys && c in CalendarKeys
    ensures BuildSchedule(data + [r])[d][c] ==
      BuildSchedule(data)[d][c] + (if Contributes(r, d, c) then Departures(r.timetableObjects) else [])
  {
    assert (data + [r])[..|data|] == data;
    AddRecordBucket(BuildSchedule(data), r, d, c);
  }

  /** Buckets grow in feed order: the schedule of a longer feed extends the
      schedule of its prefix by the later records' departures. */
  lemma FeedOrder(a: seq<StationTimetable>, b: seq<StationTimetable>, d: string, c: string)
    requires d in DirectionKeys && c in CalendarKeys
    ensures BuildSchedule(a + b)[d][c] == BuildSchedule(a)[d][c] + BucketTimes(b, d, c)
  {
    BuildScheduleBucket(a + b, d, c);
    BuildScheduleBucket(a, d, c);
    BucketTimesConcat(a, b, d, c);
  }

  /** Every time in a bucket is the departure time of a stop object of a
      record that contributes to that bucket. */
  lemma {:induction false} BucketTimeOrigin(data: seq<StationTimetable>, d: string, c: string, t: string)
    requires d in DirectionKeys && c in CalendarKeys
    requires t in BuildSchedule(data)[d][c]
    ensures exists i, j ::
      && 0 <= i < |data| && Contributes(data[i], d, c)
      && 0 <= j < |data[i].timetableObjects| && data[i].timetableObjects[j].departureTime == t
  {
    BuildScheduleBucket(data, d, c);
    BucketTimesOrigin(data, d, c, t);
  }

  lemma {:induction false} BucketTimesOrigin(data: seq<StationTimetable>, d: string, c: string, t: string)
    requires t in BucketTimes(data, d, c)
    ensures exists i, j ::
      && 0 <= i < |data| && Contributes(data[i], d, c)
      && 0 <= j < |data[i].timetableObjects| && data[i].timetableObjects[j].departureTime == t
    decreases |data|
  {
    var here := if Contributes(data[0], d, c) then Departures(data[0].timetableObjects) else [];
    if t in here {
      var j :| 0 <= j < |here| && here[j] == t;
      assert Contributes(data[0], d, c) && data[0].timetableObjects[j].departureTime == t;
    } else {
      BucketTimesOrigin(data[1..], d, c, t);
      var i, j :| 0 <= i < |data[1..]| && Contributes(data[1..][i], d, c)
        && 0 <= j < |data[1..][i].timetableObjects| && data[1..][i].timetableObjects[j].departureTime == t;
      assert data[1..][i] == data[i + 1];
    }
  }

  lemma DeparturesSnoc(objects: seq<StationTimetableObject>, j: nat)
    requires j < |objects|
    ensures Departures(objects[..j + 1]) == Departures(objects[..j]) + [objects[j].departureTime]
  {
  }

  /** The schedule of one more record of the feed. */
  lemma BuildScheduleSnoc(data: seq<StationTimetable>, i: nat)
    requires i < |data|
    ensures BuildSchedule(data[..i + 1]) == AddRecord(BuildSchedule(data[..i]), data[i])
  {
    assert data[..i + 1][..i] == data[..i];
  }

  /** buildTrainSchedule: start from the skeleton and, for each kept record in
      feed order, push each stop's departure time onto its bucket. */
  method BuildTrainSchedule(data: seq<StationTimetable>) returns (trainSchedule: Schedule)
    ensures trainSchedule == BuildSchedule(data)
  {
    trainSchedule := Skeleton();
    for i := 0 to |data|
      invariant trainSchedule == BuildSchedule(data[..i])
    {
      var item := data[i];
      BuildScheduleSnoc(data, i);
      if item.station == ShinKoshinzuka
        && (item.railDirection == MinowabashiRailDirection || item.railDirection == WasedaRailDirection)
      {
        RecognisedDirectionKey(item.railDirection);
        var x := Split(item.railDirection, ':')[1];
        var directionKey := Split(x, '.')[1];
        var calendarKey := CalendarKeyOf(item.calendar);
        if calendarKey.Some? {
          var key := calendarKey.value;
          var objects := item.timetableObjects;
          ghost var before := trainSchedule;
          assert objects[..0] == [];
          PushedNothing(before, directionKey, key);
          for j := 0 to |objects|
            invariant trainSchedule == Pushed(before, directionKey, key, Departures(objects[..j]))
          {
            DeparturesSnoc(objects, j);
            PushedTwice(before, directionKey, key, Departures(objects[..j]), [objects[j].departureTime]);
            trainSchedule := trainSchedule[directionKey :=
              trainSchedule[directionKey][key := trainSchedule[directionKey][key] + [objects[j].departureTime]]];
          }
          assert objects[..|objects|] == objects;
        }
      }
    }
    assert data[..|data|] == data;
  }
}
