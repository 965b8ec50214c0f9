/**
 * The arrival filter: the next departures of one bucket of the schedule at
 * or after a cutoff time, compared as strings, at most four of them, each
 * tagged with the direction and calendar it was asked for.
 */
module Arrivals {
  import opened Strings
  import opened TrainSchedule

  datatype ArrivalEntry = ArrivalEntry(direction: string, calendar: string, arrivalTime: string)

  /** How many arrivals the filter returns at most. */
  const MaxArrivals: nat := 4

  /** The times of `times` that are `>= time` as strings, in their original order. */
  function Upcoming(times: seq<string>, time: string): (kept: seq<string>)
    ensures |kept| <= |times|
    ensures forall t :: t in kept <==> t in times && StringAtLeast(t, time)
    decreases |times|
  {
    if times == [] then []
    else
      var rest := Upcoming(times[1..], time);
      assert forall t :: t in times <==> t == times[0] || t in times[1..];
      (if StringAtLeast(times[0], time) then [times[0]] else []) + rest
  }

  /** Filtering a concatenation is concatenating the filtered parts: the
      filter keeps the relative order of the times. */
  lemma {:induction false} UpcomingConcat(a: seq<string>, b: seq<string>, time: string)
    ensures Upcoming(a + b, time) == Upcoming(a, time) + Upcoming(b, time)
    decreases |a|
  {
    if a == [] {
      assert a + b == b;
    } else {
      assert (a + b)[0] == a[0] && (a + b)[1..] == a[1..] + b;
      UpcomingConcat(a[1..], b, time);
    }
  }

  /** The entries for `times`, each tagged with the direction and calendar. */
  function Tagged(times: seq<string>, direction: string, calendarKey: string): (entries: seq<ArrivalEntry>)
    ensures |entries| == |times|
    ensures forall i :: 0 <= i < |times| ==> entries[i] == ArrivalEntry(direction, calendarKey, times[i])
  {
    seq(|times|, i requires 0 <= i < |times| => ArrivalEntry(direction, calendarKey, times[i]))
  }

  /** The upcoming arrivals of bucket (direction, calendarKey): the first
      four, or all if fewer, of the bucket's times at or after `time`. */
  function ArrivalTimesAt(s: Schedule, time: string, direction: string, calendarKey: string): (arrivals: seq<ArrivalEntry>)
    requires direction in s && calendarKey in s[direction]
    ensures |arrivals| <= MaxArrivals
    ensures forall i :: 0 <= i < |arrivals| ==>
      && arrivals[i].direction == direction
      && arrivals[i].calendar == calendarKey
      && arrivals[i].arrivalTime in s[direction][calendarKey]
      && StringAtLeast(arrivals[i].arrivalTime, time)
  {
    var kept := Upcoming(s[direction][calendarKey], time);
    var taken := kept[..if |kept| < MaxArrivals then |kept| else MaxArrivals];
    assert forall i :: 0 <= i < |taken| ==> taken[i] in kept;
    Tagged(taken, direction, calendarKey)
  }

  /** The arrivals are a prefix of the upcoming times, as long as there are
      upcoming times up to four. */
  lemma ArrivalTimesArePrefix(s: Schedule, time: string, direction: string, calendarKey: string)
    requires direction in s && calendarKey in s[direction]
    ensures var kept := Upcoming(s[direction][calendarKey], time);
      var arrivals := ArrivalTimesAt(s, time, direction, calendarKey);
      && |arrivals| == (if |kept| < MaxArrivals then |kept| else MaxArrivals)
      && forall i :: 0 <= i < |arrivals| ==> arrivals[i].arrivalTime == kept[i]
  {
  }

  /** No qualifying time is skipped: a time at or after the cutoff that has
      fewer than four qualifying times before it is returned, at the position
      that counts those earlier times. */
  lemma NoQualifyingTimeSkipped(s: Schedule, time: string, direction: string, calendarKey: string, i: nat)
    requires direction in s && calendarKey in s[direction]
    requires i < |s[direction][calendarKey]|
    requires StringAtLeast(s[direction][calendarKey][i], time)
    requires |Upcoming(s[direction][calendarKey][..i], time)| < MaxArrivals
    ensures var k := |Upcoming(s[direction][calendarKey][..i], time)|;
      var arrivals := ArrivalTimesAt(s, time, direction, calendarKey);
      k < |arrivals| && arrivals[k].arrivalTime == s[direction][calendarKey][i]
  {
    var bucket := s[direction][calendarKey];
    assert bucket == bucket[..i] + bucket[i..];
    UpcomingConcat(bucket[..i], bucket[i..], time);
    assert bucket[i..][0] == bucket[i];
  }

  /** getArrivalTimesAt: scan the bucket in order, push each time `>= time`
      with its tags, and keep the first four. */
  method GetArrivalTimesAt(trainSchedule: Schedule, time: string, direction: string, calendarKey: string)
    returns (arrivals: seq<ArrivalEntry>)
    requires direction in trainSchedule && calendarKey in trainSchedule[direction]
    ensures arrivals == ArrivalTimesAt(trainSchedule, time, direction, calendarKey)
  {
    var bucket := trainSchedule[direction][calendarKey];
    var times: seq<ArrivalEntry> := [];
    for i := 0 to |bucket|
      invariant times == Tagged(Upcoming(bucket[..i], time), direction, calendarKey)
    {
      var arrivalTime := bucket[i];
      assert bucket[..i + 1] == bucket[..i] + [arrivalTime];
      UpcomingConcat(bucket[..i], [arrivalTime], time);
      assert Upcoming([arrivalTime], time) == if StringAtLeast(arrivalTime, time) then [arrivalTime] else [];
      if StringAtLeast(arrivalTime, time) {
        times := times + [ArrivalEntry(direction, calendarKey, arrivalTime)];
      }
    }
    assert bucket[..|bucket|] == bucket;
    arrivals := times[..if |times| < MaxArrivals then |times| else MaxArrivals];
  }
}
