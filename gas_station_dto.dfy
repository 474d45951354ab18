/** The station record built from one entry of the API's `stations` list
    (src/Dto/GasStationDto.py). */
module GasStationDto {
  import opened JsonValue

  /** The five keys the record reads; every other key of an entry is ignored. */
  const StationKeys: set<string> := {"lng", "lat", "price", "brand", "name"}

  /** An immutable station record. Each field holds what `dict.get` gave for
      its key, so an absent key is `Null` (Python's `None`). The fields are
      set once, on construction, and the getters only read them. */
  datatype GasStationDto = GasStationDto(lon: Json, lat: Json, price: Json, brand: Json, name: Json)
  {
    function GetLon(): Json { lon }
    function GetLat(): Json { lat }
    function GetPrice(): Json { price }
    function GetBrand(): Json { brand }
    function GetName(): Json { name }
  }

  /** `GasStationDto(jsonData)`: defined for every dictionary. */
  function FromJson(jsonData: map<string, Json>): (d: GasStationDto)
    ensures d.GetLon() == Lookup(jsonData, "lng")
    ensures d.GetLat() == Lookup(jsonData, "lat")
    ensures d.GetPrice() == Lookup(jsonData, "price")
    ensures d.GetBrand() == Lookup(jsonData, "brand")
    ensures d.GetName() == Lookup(jsonData, "name")
  {
    GasStationDto(
      Lookup(jsonData, "lng"),
      Lookup(jsonData, "lat"),
      Lookup(jsonData, "price"),
      Lookup(jsonData, "brand"),
      Lookup(jsonData, "name"))
  }

  /** The longitude is read from the API's key `lng`; a key named `lon` plays
      no part. */
  lemma LonIsReadFromLng(jsonData: map<string, Json>, v: Json)
    ensures "lng" in jsonData ==> FromJson(jsonData).GetLon() == jsonData["lng"]
    ensures "lng" !in jsonData ==> FromJson(jsonData).GetLon() == Null
    ensures FromJson(jsonData["lon" := v]).GetLon() == FromJson(jsonData).GetLon()
  {
  }

  /** The latitude is read from the key `lat`, `None` when absent. */
  lemma LatIsReadFromLat(jsonData: map<string, Json>)
    ensures "lat" in jsonData ==> FromJson(jsonData).GetLat() == jsonData["lat"]
    ensures "lat" !in jsonData ==> FromJson(jsonData).GetLat() == Null
  {
  }

  /** The price is read from the key `price` alone, `None` when absent; the
      fuel-specific keys `diesel`, `e5` and `e10` never supply it. */
  lemma PriceIsReadFromPrice(jsonData: map<string, Json>, diesel: Json, e5: Json, e10: Json)
    ensures "price" in jsonData ==> FromJson(jsonData).GetPrice() == jsonData["price"]
    ensures "price" !in jsonData ==> FromJson(jsonData).GetPrice() == Null
    ensures FromJson(jsonData["diesel" := diesel]["e5" := e5]["e10" := e10]).GetPrice()
            == FromJson(jsonData).GetPrice()
  {
  }

  /** Brand and name come from the keys `brand` and `name`, `None` when absent. */
  lemma BrandAndNameAreRead(jsonData: map<string, Json>)
    ensures "brand" in jsonData ==> FromJson(jsonData).GetBrand() == jsonData["brand"]
    ensures "brand" !in jsonData ==> FromJson(jsonData).GetBrand() == Null
    ensures "name" in jsonData ==> FromJson(jsonData).GetName() == jsonData["name"]
    ensures "name" !in jsonData ==> FromJson(jsonData).GetName() == Null
  {
  }

  /** Two entries that agree on the five keys give the same record: keys such
      as `diesel`, `e5`, `e10` or `dist` are ignored. */
  lemma OnlyStationKeysMatter(a: map<string, Json>, b: map<string, Json>)
    requires forall k :: k in StationKeys ==> Lookup(a, k) == Lookup(b, k)
    ensures FromJson(a) == FromJson(b)
  {
  }

  /** The record's value for one of the API's keys (`Null` for any other key). */
  function ValueFor(d: GasStationDto, key: string): Json
  {
    if key == "lng" then d.lon
    else if key == "lat" then d.lat
    else if key == "price" then d.price
    else if key == "brand" then d.brand
    else if key == "name" then d.name
    else Null
  }

  /** The entry a record stands for: its non-`None` fields under the API's
      keys (the longitude under `lng`). */
  function ToJson(d: GasStationDto): (m: map<string, Json>)
    ensures m.Keys <= StationKeys
    ensures forall k :: k in m ==> m[k] != Null
  {
    map k | k in StationKeys && ValueFor(d, k) != Null :: ValueFor(d, k)
  }

  /** Reading back the entry of a record yields the record. */
  lemma FromJsonToJson(d: GasStationDto)
    ensures FromJson(ToJson(d)) == d
  {
  }

  /** Each of the five keys reads back what the entry held under it. */
  lemma ValueForFromJson(jsonData: map<string, Json>, key: string)
    requires key in StationKeys
    ensures ValueFor(FromJson(jsonData), key) == Lookup(jsonData, key)
  {
  }

  /** Re-encoding a decoded entry keeps exactly its five keys that do not hold
      `None`. */
  lemma ToJsonFromJson(jsonData: map<string, Json>)
    ensures ToJson(FromJson(jsonData))
            == map k | k in jsonData && k in StationKeys && jsonData[k] != Null :: jsonData[k]
  {
    forall key | key in StationKeys
      ensures ValueFor(FromJson(jsonData), key) == Lookup(jsonData, key)
    {
      ValueForFromJson(jsonData, key);
    }
  }
}
