# Shin-Koshinzuka arrival times, modelled in Dafny

The backend answers `/api/arrivalTimes` with two display strings. One lists the next departures from Shin-Koshinzuka station on the Toei Arakawa line towards Minowabashi. The other lists the next departures towards Waseda. The model covers every step between the two fetched feeds and those strings:

- **Schedule builder** (`train_schedule.dfy`). It starts from a fixed skeleton of two directions × three calendars, each an empty list. It keeps only the Shin-Koshinzuka records whose rail direction is recognised. It derives the direction key by splitting the rail direction on `:` and then on `.`. It maps the service calendar to a key and drops unrecognised calendars. It then appends every stop's departure time in feed order. The method `BuildTrainSchedule` is the nested loop with its map updates. It is proved equal to the function `BuildSchedule`. `BuildSchedule` is in turn characterised bucket by bucket through an independent definition, `BucketTimes`.
- **Arrival filter** (`arrivals.dfy`). It keeps the times of one bucket that compare `>=` the cutoff as strings, tags each with its direction and calendar, and returns the first four. The method `GetArrivalTimesAt` is the scanning loop. `ArrivalTimesAt` is its specification.
- **Calendar selector** (`calendar_selector.dfy`). It maps a day of the week to a calendar key. The day the backend pins (4 June 2023, a Sunday) is the constant `PinnedDayOfWeek`.
- **Formatter** (`format.dfy`). The first arrival is shown as "arriving". Each later one is shown with its whole-minute offset from the formatter's own reference time, 07:45. The lines are joined with a newline.
- **Name resolvers** (`names.dfy`). `GetStationName` looks up a station's Japanese title, and `DirectionSuffix` gives the fixed inbound or outbound suffix.
- **Handler** (`api.dfy`). This is the handler without its I/O. `HandleArrivalTimes` calls the methods in the handler's order and is proved equal to `ArrivalTimesResponse`. The filter's cutoff, `DesiredTime`, and the formatter's reference time, `FormatterReferenceTime`, are two separate constants, as in the source.

Three supporting files hold the text-level pieces:

- `strings.dfy`: JavaScript's string `<`/`>=`, `split` and `join` with a one-character separator, and decimal number text.
- `clock_time.dfy`: "HH:MM" times of day and the minute each names. It also proves that, for such strings, string order is time order.
- `odpt.dfy`: the feed records and identifiers.

`scenario.dfy` works one case through every step. It uses a weekday timetable with departures 07:40, 07:50, 08:10, 08:30 and 09:00, asked for at the 07:45 cutoff.

## Model

| member | source | states |
|---|---|---|
| TrainSchedule.Skeleton | index.js:60-71 | the starting schedule has exactly the directions Minowabashi and Waseda, each with exactly the calendars Holiday, Saturday and Weekdays, and every list is empty |
| TrainSchedule.CalendarKeyOf | index.js:73-84 | each of the three calendar identifiers maps to its key (Holiday, Saturday, Weekdays), every other calendar maps to null, and a non-null key is one of the three |
| TrainSchedule.DirectionKeyOfPrefixed | index.js:92-93 | splitting "odpt.RailDirection:Toei." + d on ':' and then on '.' gives back d for any d without ':' or '.' |
| TrainSchedule.RecognisedDirectionKey | index.js:91-93 | for the two accepted rail directions, the split-derived key is Minowabashi or Waseda respectively, so it always names a bucket of the skeleton |
| TrainSchedule.Pushed | index.js:97-99 | pushing times onto one bucket keeps every key, extends that bucket by exactly those times in order, and leaves every other bucket unchanged |
| TrainSchedule.PushedTwice | index.js:97-99 | pushing two lists of times one after the other equals pushing their concatenation |
| TrainSchedule.BuildSchedule | index.js:59-105 | the built schedule always has exactly the two directions × three calendars, whatever the records |
| TrainSchedule.BuildScheduleBucket | index.js:86-102 | each bucket of the built schedule is the concatenation, in feed order, of the departure times of exactly those records at Shin-Koshinzuka whose rail direction is the bucket's direction and whose calendar maps to the bucket's key |
| TrainSchedule.BucketTimesConcat | index.js:86-102 | the times a bucket collects from two consecutive runs of records are the times from the first run followed by those from the second |
| TrainSchedule.IgnoredRecord | index.js:91-96 | a record at another station, with an unrecognised rail direction or with an unrecognised calendar changes no bucket |
| TrainSchedule.AppendRecord | index.js:96-99 | appending a record to the feed extends the bucket it contributes to by its departure times, in stop order, and leaves every other bucket as it was |
| TrainSchedule.FeedOrder | index.js:86-99 | splitting the feed in two, each bucket holds the first part's times followed by the second part's times |
| TrainSchedule.BucketTimeOrigin | index.js:97-98 | every time in a bucket is the departure time of some stop of a record that contributes to that bucket |
| TrainSchedule.BuildTrainSchedule | index.js:59-105 | the loop over records and stops, with in-place pushes, returns exactly BuildSchedule of the records |
| Arrivals.Upcoming | index.js:109-110 | the kept times are no more than the bucket, and a time is kept if and only if it is in the bucket and compares `>=` the cutoff |
| Arrivals.UpcomingConcat | index.js:109-117 | filtering a concatenation is concatenating the filtered parts, so kept times stay in bucket order |
| Arrivals.ArrivalTimesAt | index.js:107-120 | at most four entries; each carries the requested direction and calendar key; each time is in the bucket and compares `>=` the cutoff |
| Arrivals.ArrivalTimesArePrefix | index.js:108-119 | the result is exactly the first min(4, k) of the k qualifying times, in bucket order |
| Arrivals.NoQualifyingTimeSkipped | index.js:108-119 | a qualifying time with fewer than four qualifying times before it is returned, at the position that counts them |
| Arrivals.GetArrivalTimesAt | index.js:107-120 | the scanning loop followed by slice(0, 4) returns exactly ArrivalTimesAt |
| CalendarSelector.CalendarKeyForDay | index.js:126-132 | day 6 gives Saturday, day 0 gives Holiday, every other day gives Weekdays (each as an if-and-only-if), and the key is always one of the three |
| CalendarSelector.SelectedCalendarIsBucket | index.js:157-160 | whatever the day, the selected key names a bucket of both directions in every built schedule |
| Format.MinutesFromReference | index.js:137 | the offset is the minute of the day of the time minus that of 07:45 (465), an exact whole number |
| Format.FormatArrivalTimes | index.js:135-147 | an empty list gives "", a single arrival gives "<label> arriving (<t>)", and any non-empty result starts with the label |
| Format.FormattedLines | index.js:136-146 | splitting the result at newlines gives one line per arrival: the first "<label> arriving (<t>)", line i > 0 "<label> <N> min(s) (<t>)" with N the minutes past 07:45; this holds when neither the label nor the first arrival's time contains a newline |
| Names.StationName | index.js:25-32 | null exactly when no station has the identifier; otherwise the Japanese title of the first station that has it |
| Names.GetStationName | index.js:25-32 | the loop that returns at the first match returns exactly StationName |
| Names.DirectionSuffix | index.js:34-41 | Waseda gives 下り, Minowabashi gives 上り, and every other identifier gives null, each as an if-and-only-if |
| Api.DirectionLabel | index.js:168-169 | the label is never empty |
| Api.FoundStationName | index.js:162-169 | a terminal station present in the station feed is labelled with the Japanese title of its first entry, a space and its suffix (下り, 上り or "null") |
| Api.ArrivalTimesResponse | index.js:152-171 | each string of the response is empty exactly when its direction has no departure at or after 07:45 in the selected calendar |
| Api.HandleArrivalTimes | index.js:152-171 | the handler's sequence of calls returns exactly ArrivalTimesResponse |
| Api.EmptyTimetableFeed | index.js:56 | an empty timetable list, which is what a failed fetch gives, yields two empty strings whatever the station feed |
| Api.MissingStationName | index.js:162-169 | a terminal station missing from the station feed is labelled with the text "null" |
| Api.OffsetsAreNotNegative | index.js:137 | since the filter's cutoff equals the formatter's reference time, no printed minute count is negative |
| Api.ResponseLineCount | index.js:159-169 | when no station title contains a newline, each non-empty string has between one and four lines |
| Api.DirectionLineCount | index.js:159-169 | one direction's non-empty string has exactly one line per returned arrival, at most four |
| Strings.StringLessTrichotomy | index.js:110 | JavaScript's string order is irreflexive and total: exactly one of a < b, a == b and b < a holds |
| Strings.StringLessTransitive | index.js:110 | JavaScript's string order is transitive |
| Strings.Split | index.js:92-93 | split always yields at least one piece, and no piece contains the separator |
| Strings.JoinSplit | index.js:92-93 | joining the pieces of a split with the same separator gives back the string |
| Strings.SplitJoin | index.js:146 | splitting a join of separator-free pieces gives back the pieces |
| Strings.NatToStringValue | index.js:142 | the decimal text of a number reads back as that number |
| Strings.IntToString | index.js:142 | the text of an integer starts with '-' exactly when it is negative, its digits read back as its magnitude, and they have no leading zero unless the number is 0, which is "0", as JavaScript prints a whole number |
| ClockTime.ClockTimeOrder | index.js:110 | for "HH:MM" strings, string order agrees with the order of the times of day |
| ClockTime.ClockTimeRoundTrip | index.js:137 | minute of the day and "HH:MM" text convert into each other losslessly |
| Scenario.ScenarioUpcoming | index.js:107-120 | the bucket 07:40, 07:50, 08:10, 08:30, 09:00 at cutoff 07:45 keeps 07:50, 08:10, 08:30, 09:00 |
| Scenario.ScenarioFormat | index.js:135-147 | those four arrivals are formatted as the "arriving" line followed by the 25, 45 and 75 min(s) lines |
| Scenario.ScenarioResponse | index.js:152-171 | on a Monday the worked timetable yields the four-line Minowabashi text and an empty Waseda text |
| Scenario.ScenarioOnPinnedDay | index.js:122-133 | on the pinned day, a Sunday, the weekday-only worked timetable yields two empty strings |

## Left out

- Fetching the two feeds over HTTP, JSON decoding, Express, CORS, the route wiring, `app.listen` and console logging (index.js:1-23, 43-57, 149-150, 172-178). The two feeds are parameters of the model. A failed fetch is covered only as the empty list it returns.
- `new Date(...)` and `getDay()` (index.js:123-124). JavaScript's date and locale handling is not modelled. The day of the week is an integer parameter, and the pinned date's value is the constant `PinnedDayOfWeek`.
- Malformed feed records: absent fields and non-string values. Records are typed with every field present. In the source:
  - an absent `odpt:station`, `odpt:railDirection` or `odpt:calendar` drops the record (index.js:87-91, 96);
  - a stop without `odpt:departureTime` pushes `undefined` (index.js:98), which the filter then drops because `undefined >= time` is false (index.js:110);
  - a title without `ja` gives the label "undefined <suffix>" (index.js:28, 168);
  - only a kept record without `odpt:stationTimetableObject` (index.js:97) or a station without `odpt:stationTitle` (index.js:28) throws.
- Format.FormatArrivalTimes: requires every arrival after the first to be an "HH:MM" time from 00:00 to 23:59. The source hands any string to `new Date`. ECMAScript's date-time string format also accepts "24:00", which names the next midnight and would print an offset of 975; the model does not cover that string. For strings outside that format, such as "25:10", the result depends on the engine's own date parsing, which is not modelled.
- Api.ArrivalTimesResponse: requires every time in the built schedule to be "HH:MM", for the reason given for FormatArrivalTimes. The filter and the builder themselves are modelled for arbitrary strings.
- String order compares characters by code point, whereas JavaScript compares UTF-16 code units. The two agree on the Basic Multilingual Plane, which holds every character of the identifiers and times.
- Number formatting covers integers only. The `Math.ceil` of a millisecond difference between two whole minutes is already an integer, so the floating-point path is not modelled.
- App.js, the front end, is not part of this model.
