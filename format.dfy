/**
 * The display formatter: one line per arrival, the first saying the train
 * is arriving, each later one giving the whole minutes from the formatter's
 * own reference time "07:45" to the departure, lines joined by newlines.
 */
module Format {
  import opened Strings
  import opened ClockTime
  import opened Arrivals

  /** The instant the formatter measures minutes from. It is written into the
      formatter itself, separately from the cutoff the request handler gives
      the arrival filter, although both are "07:45". */
  const FormatterReferenceTime: string := "07:45"

  lemma ReferenceTimeMinutes()
    ensures IsClockTime(FormatterReferenceTime) && Minutes(FormatterReferenceTime) == 7 * 60 + 45
  {
  }

  /** Whole minutes from the reference time to `t` (negative when `t` is earlier). */
  function MinutesFromReference(t: string): (n: int)
    requires IsClockTime(t)
    ensures n == Minutes(t) - (7 * 60 + 45)
    ensures -465 <= n < 24 * 60 - 465
  {
    ReferenceTimeMinutes();
    Minutes(t) - Minutes(FormatterReferenceTime)
  }

  /** The line for the arrival at position `index`. */
  function ArrivalLine(directionName: string, arrivalTime: string, index: nat): string
    requires index > 0 ==> IsClockTime(arrivalTime)
  {
    if index == 0 then directionName + " arriving (" + arrivalTime + ")"
    else directionName + " " + IntToString(MinutesFromReference(arrivalTime)) + " min(s) (" + arrivalTime + ")"
  }

  /** Every arrival after the first names a time of day the minute count can be taken of. */
  predicate IsDisplayable(arrivals: seq<ArrivalEntry>)
  {
    forall i :: 0 < i < |arrivals| ==> IsClockTime(arrivals[i].arrivalTime)
  }

  function ArrivalLines(arrivals: seq<ArrivalEntry>, directionName: string): (lines: seq<string>)
    requires IsDisplayable(arrivals)
    ensures |lines| == |arrivals|
    ensures forall i :: 0 <= i < |arrivals| ==> lines[i] == ArrivalLine(directionName, arrivals[i].arrivalTime, i)
  {
    seq(|arrivals|, i requires 0 <= i < |arrivals| => ArrivalLine(directionName, arrivals[i].arrivalTime, i))
  }

  /** formatArrivalTimes: the lines of the arrivals joined by newlines. */
  function FormatArrivalTimes(arrivals: seq<ArrivalEntry>, directionName: string): (text: string)
    requires IsDisplayable(arrivals)
    ensures arrivals == [] ==> text == ""
    ensures |arrivals| == 1 ==> text == directionName + " arriving (" + arrivals[0].arrivalTime + ")"
    ensures |arrivals| >= 1 ==> |text| >= |directionName| && text[..|directionName|] == directionName
  {
    var lines := ArrivalLines(arrivals, directionName);
    assert |arrivals| >= 1 ==> lines[0] == directionName + (" arriving (" + arrivals[0].arrivalTime + ")");
    Join(lines, '\n')
  }

  lemma ClockTimeHasNoNewline(t: string)
    requires IsClockTime(t)
    ensures '\n' !in t
  {
    assert forall k :: 0 <= k < |t| ==> t[k] == ':' || IsDigit(t[k]);
  }

  /** Splitting the text at newlines gives back one line per arrival: the
      first "<directionName> arriving (<t>)", each later one
      "<directionName> <minutes from 07:45> min(s) (<t>)". */
  lemma FormattedLines(arrivals: seq<ArrivalEntry>, directionName: string)
    requires IsDisplayable(arrivals) && |arrivals| >= 1
    requires '\n' !in directionName && '\n' !in arrivals[0].arrivalTime
    ensures var lines := Split(FormatArrivalTimes(arrivals, directionName), '\n');
      && |lines| == |arrivals|
      && lines[0] == directionName + " arriving (" + arrivals[0].arrivalTime + ")"
      && forall i :: 0 < i < |arrivals| ==>
        lines[i] == directionName + " " + IntToString(Minutes(arrivals[i].arrivalTime) - 465)
          + " min(s) (" + arrivals[i].arrivalTime + ")"
  {
    var lines := ArrivalLines(arrivals, directionName);
    forall i | 0 <= i < |lines|
      ensures '\n' !in lines[i]
    {
      if i > 0 {
        ClockTimeHasNoNewline(arrivals[i].arrivalTime);
      }
    }
    SplitJoin(lines, '\n');
  }
}
