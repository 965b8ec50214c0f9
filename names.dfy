/**
 * The two lookups that produce a direction's display label: the Japanese name
 * of a station taken from the station feed, and the fixed suffix for the two
 * terminal stations.
 */
module Names {
  import opened Odpt

  /** Station `i` is the first one in the feed whose identifier is `stationId`. */
  ghost predicate IsFirstMatch(stations: seq<Station>, stationId: string, i: int)
  {
    && 0 <= i < |stations|
    && stations[i].sameAs == stationId
    && forall j :: 0 <= j < i ==> stations[j].sameAs != stationId
  }

  /** The Japanese title of the first station whose `owl:sameAs` is
      `stationId`, or None (JavaScript's null) when no station has it. */
  function StationName(stations: seq<Station>, stationId: string): (name: Option<string>)
    ensures name.None? <==> forall i :: 0 <= i < |stations| ==> stations[i].sameAs != stationId
    ensures name.Some? ==>
      exists i :: IsFirstMatch(stations, stationId, i) && name.value == stations[i].titleJa
    decreases |stations|
  {
    if stations == [] then None
    else if stations[0].sameAs == stationId then
      assert IsFirstMatch(stations, stationId, 0);
      Some(stations[0].titleJa)
    else
      var rest := StationName(stations[1..], stationId);
      assert forall k :: IsFirstMatch(stations[1..], stationId, k) ==>
        IsFirstMatch(stations, stationId, k + 1) && stations[1..][k] == stations[k + 1];
      assert forall i :: 1 <= i < |stations| ==> stations[i] == stations[1..][i - 1];
      rest
  }

  /** The linear search of the station feed, returning at the first match. */
  method GetStationName(stations: seq<Station>, stationId: string) returns (name: Option<string>)
    ensures name == StationName(stations, stationId)
  {
    for i := 0 to |stations|
      invariant StationName(stations[i..], stationId) == StationName(stations, stationId)
    {
      assert stations[i..][1..] == stations[i + 1..];
      if stations[i].sameAs == stationId {
        return Some(stations[i].titleJa);
      }
    }
    return None;
  }

  /** "Outbound" and "inbound" in Japanese. */
  const Kudari: string := "下り"
  const Nobori: string := "上り"

  /** The suffix shown after a terminal station's name: Waseda-bound trains
      are outbound, Minowabashi-bound trains inbound; any other station has none. */
  function DirectionSuffix(stationId: string): (suffix: Option<string>)
    ensures suffix == Some(Kudari) <==> stationId == WasedaStation
    ensures suffix == Some(Nobori) <==> stationId == MinowabashiStation
    ensures suffix == None <==> stationId != WasedaStation && stationId != MinowabashiStation
  {
    if stationId == WasedaStation then Some(Kudari)
    else if stationId == MinowabashiStation then Some(Nobori)
    else None
  }
}
