/** The station list built from a decoded API body, as the map view does it
    (main.py): one record per entry of `data['stations']`, in order. */
module StationList {
  import opened Wrappers
  import opened JsonValue
  import opened GasStationDto

  /** `data.get('stations')` when it is a list. */
  function StationEntries(data: Json): (entries: Option<seq<Json>>)
    ensures entries.Some? <==> data.Obj? && Lookup(data.fields, "stations").Arr?
    ensures entries.Some? ==> entries.value == Lookup(data.fields, "stations").items
  {
    if data.Obj? && Lookup(data.fields, "stations").Arr? then Some(Lookup(data.fields, "stations").items)
    else None
  }

  /** Every entry decoded to a record, or `None` when an entry is not a
      dictionary (its `get` raises). */
  function DecodeStations(entries: seq<Json>): (r: Option<seq<GasStationDto>>)
    ensures r.Some? <==> forall i :: 0 <= i < |entries| ==> entries[i].Obj?
    ensures r.Some? ==> |r.value| == |entries|
    ensures r.Some? ==> forall i :: 0 <= i < |entries| ==> r.value[i] == FromJson(entries[i].fields)
  {
    if entries == [] then Some([])
    else if !entries[0].Obj? then None
    else
      match DecodeStations(entries[1..])
      case None => None
      case Some(rest) => Some([FromJson(entries[0].fields)] + rest)
  }

  /** The loop of the map view: append one record per entry, in order. */
  method BuildGasStationList(entries: seq<Json>) returns (r: Option<seq<GasStationDto>>)
    ensures r.Some? <==> forall i :: 0 <= i < |entries| ==> entries[i].Obj?
    ensures r.Some? ==> |r.value| == |entries|
    ensures r.Some? ==> forall i :: 0 <= i < |entries| ==> r.value[i] == FromJson(entries[i].fields)
    ensures r == DecodeStations(entries)
  {
    var gasStationList: seq<GasStationDto> := [];
    var i := 0;
    while i < |entries|
      invariant 0 <= i <= |entries|
      invariant |gasStationList| == i
      invariant forall j :: 0 <= j < i ==> entries[j].Obj? && gasStationList[j] == FromJson(entries[j].fields)
    {
      if !entries[i].Obj? {
        return None;
      }
      gasStationList := gasStationList + [FromJson(entries[i].fields)];
      i := i + 1;
    }
    r := Some(gasStationList);
    assert r.value == DecodeStations(entries).value;
  }

  /** The fallback body of a failed API call holds no station entries. The
      code itself does not join the two: the map view reads its body from a
      local file, not from the API caller. */
  lemma FallbackHasNoStations()
    ensures StationEntries(EmptyStations) == Some([])
  {
  }
}
