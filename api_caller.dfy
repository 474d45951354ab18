/** The service that asks the Tankerkoenig API for the petrol stations around
    the user's location (ApiCaller.py). The settings service and the HTTP
    library are outside the model: what they yield is passed in. */
module ApiCaller {
  import opened Wrappers
  import opened JsonValue
  import QueryString

  /** The API key and the endpoint, as the class constants hold them. */
  const KEY: string := "1e89035b-ed46-fdc3-4baf-feff2614dc10"
  const URL: string := "https://creativecommons.tankerkoenig.de/json/list.php"

  /** What one load call of the settings service yields: a dictionary, or a
      failure (an exception, or a value without a `get` method). */
  datatype Load = Loaded(record: map<string, Json>) | LoadFailed

  /** The settings service object. Its stored settings are outside the
      model: what its two load calls yield is given to each API call, since
      `getQueriedTankerData` loads them afresh every time. */
  datatype SettingsService = SettingsService

  /** The object handed to the constructor. */
  datatype Dependency = IsSettingsService(service: SettingsService) | OtherObject

  /** What `requests.get(url).json()` yields: the request raises, the body is
      not JSON, or the decoded body. */
  datatype Response = RequestFailed | BodyNotJson | Body(value: Json)

  /** The caller holds only its settings service. */
  datatype ApiCaller = ApiCaller(settingsService: SettingsService)

  /** The constructor's `isinstance` assertion. */
  datatype ConstructionError = AssertionError

  datatype Construction = Constructed(caller: ApiCaller) | Rejected(error: ConstructionError)

  /** `ApiCaller(settingsService)`: only a settings service is accepted, and it
      is stored as given. */
  function Construct(dependency: Dependency): (r: Construction)
    ensures r.Constructed? <==> dependency.IsSettingsService?
    ensures r.Constructed? ==> r.caller.settingsService == dependency.service
  {
    match dependency
    case IsSettingsService(service) => Constructed(ApiCaller(service))
    case OtherObject => Rejected(AssertionError)
  }

  /** The query parameters the URL is meant to carry, in their order. */
  function QueryParameters(settings: map<string, Json>, location: map<string, Json>, fuelType: string)
    : seq<(string, string)>
  {
    [ ("lat", Render(Lookup(location, "lat"))),
      ("lng", Render(Lookup(location, "long"))),
      ("rad", Render(Lookup(settings, "radius"))),
      ("sort", "dist"),
      ("type", fuelType),
      ("apikey", KEY) ]
  }

  /** The request URL, concatenated as the source does. Every value goes
      through `str()` except the fuel type, which is concatenated as it is:
      when it is not a string the concatenation raises (`None`). */
  function QueryUrl(settings: map<string, Json>, location: map<string, Json>): (r: Option<string>)
    ensures r.Some? <==> Lookup(settings, "type").Str?
    ensures r.Some? ==> URL + "?lat=" <= r.value
    ensures r.Some? ==> EndsWith(r.value, "&apikey=" + KEY)
  {
    var fuelType := Lookup(settings, "type");
    if !fuelType.Str? then None
    else
      var url := URL + "?lat=" + Render(Lookup(location, "lat"))
                 + "&lng=" + Render(Lookup(location, "long"))
                 + "&rad=" + Render(Lookup(settings, "radius"))
                 + "&sort=dist&type=" + fuelType.s
                 + "&apikey=" + KEY;
      UrlEnds(Render(Lookup(location, "lat")), Render(Lookup(location, "long")),
              Render(Lookup(settings, "radius")), fuelType.s);
      Some(url)
  }

  /** `s.endswith(t)`. */
  predicate EndsWith(s: string, t: string)
  {
    |t| <= |s| && s[|s| - |t|..] == t
  }

  /** Whatever the values, the URL starts at the endpoint with `?lat=` and
      ends with the API key parameter. */
  lemma UrlEnds(lat: string, lng: string, rad: string, fuelType: string)
    ensures var url := URL + "?lat=" + lat + "&lng=" + lng + "&rad=" + rad
                       + "&sort=dist&type=" + fuelType + "&apikey=" + KEY;
            URL + "?lat=" <= url && EndsWith(url, "&apikey=" + KEY)
  {
    var head := URL + "?lat=" + lat + "&lng=" + lng + "&rad=" + rad + "&sort=dist&type=" + fuelType;
    var url := head + "&apikey=" + KEY;
    Regroup(URL, "?lat=", lat, "&lng=", lng, "&rad=", rad, "&sort=dist&type=", fuelType, "&apikey=", KEY);
    assert url == head + ("&apikey=" + KEY);
    assert url[|url| - |"&apikey=" + KEY|..] == "&apikey=" + KEY;
  }

  /** The query parameters of a URL on the API's endpoint. */
  function UrlParameters(url: string): Option<seq<(string, string)>>
  {
    if URL + "?" <= url then Some(QueryString.Parse(url[|URL + "?"|..])) else None
  }

  /** The URL carries `lat` from the location's `lat`, `lng` from its `long`,
      `rad` from the settings' `radius`, then `sort=dist`, the fuel type and
      the API key, in this order and nothing else (provided no rendered value
      contains `&`, since nothing is percent-encoded). */
  lemma QueryUrlParameters(settings: map<string, Json>, location: map<string, Json>)
    requires Lookup(settings, "type").Str?
    requires '&' !in Render(Lookup(location, "lat"))
    requires '&' !in Render(Lookup(location, "long"))
    requires '&' !in Render(Lookup(settings, "radius"))
    requires '&' !in Lookup(settings, "type").s
    ensures QueryUrl(settings, location).Some?
    ensures UrlParameters(QueryUrl(settings, location).value)
            == Some(QueryParameters(settings, location, Lookup(settings, "type").s))
  {
    var lat, lng, rad, fuelType :=
      Render(Lookup(location, "lat")), Render(Lookup(location, "long")),
      Render(Lookup(settings, "radius")), Lookup(settings, "type").s;
    var pairs := [("lat", lat), ("lng", lng), ("rad", rad), ("sort", "dist"), ("type", fuelType), ("apikey", KEY)];
    UrlIsEncodedQuery(URL, KEY, lat, lng, rad, fuelType);
    UrlParametersOfQuery(QueryString.Encode(pairs));
    KeyHasNoAmpersand();
    SixParametersUnambiguous(KEY, lat, lng, rad, fuelType);
    QueryString.ParseEncode(pairs);
  }

  /** A URL on the endpoint carries the parameters of its query part. */
  lemma UrlParametersOfQuery(query: string)
    ensures UrlParameters(URL + "?" + query) == Some(QueryString.Parse(query))
  {
    var url := URL + "?" + query;
    assert url[..|URL + "?"|] == URL + "?";
    assert url[|URL + "?"|..] == query;
  }

  lemma KeyHasNoAmpersand()
    ensures '&' !in KEY
  {
  }

  /** The fixed keys need no escaping, so only the values can make the query
      ambiguous. */
  lemma SixParametersUnambiguous(key: string, lat: string, lng: string, rad: string, fuelType: string)
    requires '&' !in key && '&' !in lat && '&' !in lng && '&' !in rad && '&' !in fuelType
    ensures QueryString.Unambiguous([("lat", lat), ("lng", lng), ("rad", rad), ("sort", "dist"),
                                     ("type", fuelType), ("apikey", key)])
  {
  }

  /** The source's left-to-right concatenation is the endpoint `base`, `?` and the
      encoding of the six parameters. */
  lemma UrlIsEncodedQuery(base: string, key: string, lat: string, lng: string, rad: string, fuelType: string)
    ensures base + "?lat=" + lat + "&lng=" + lng + "&rad=" + rad + "&sort=dist&type=" + fuelType + "&apikey=" + key
            == base + "?" + QueryString.Encode([("lat", lat), ("lng", lng), ("rad", rad), ("sort", "dist"),
                                                ("type", fuelType), ("apikey", key)])
  {
    Regroup(base, "?lat=", lat, "&lng=", lng, "&rad=", rad, "&sort=dist&type=", fuelType, "&apikey=", key);
    QueryPartIsEncoding(key, lat, lng, rad, fuelType);
    EncodeSix(key, lat, lng, rad, fuelType);
    var query := QueryString.Encode([("lat", lat), ("lng", lng), ("rad", rad), ("sort", "dist"),
                                     ("type", fuelType), ("apikey", key)]);
    assert base + ("?" + query) == base + "?" + query;
  }

  /** After the endpoint, the source's literals split into `?` and the
      encoded parameters. */
  lemma QueryPartIsEncoding(key: string, lat: string, lng: string, rad: string, fuelType: string)
    ensures "?lat=" + lat + ("&lng=" + lng + ("&rad=" + rad + ("&sort=dist&type=" + fuelType + ("&apikey=" + key))))
            == "?" + ("lat=" + lat + "&" + ("lng=" + lng + "&" + ("rad=" + rad + "&" + ("sort=dist" + "&"
               + ("type=" + fuelType + "&" + ("apikey=" + key))))))
  {
    var q5 := "apikey=" + key;
    var q4 := "type=" + fuelType + "&" + q5;
    var q3 := "sort=dist" + "&" + q4;
    var q2 := "rad=" + rad + "&" + q3;
    var q1 := "lng=" + lng + "&" + q2;
    var t5 := "&apikey=" + key;
    var t4 := "&sort=dist&type=" + fuelType + t5;
    var t3 := "&rad=" + rad + t4;
    var t2 := "&lng=" + lng + t3;
    Peel("&apikey=", "&", "apikey=", key, [], []);
    TypeAndSortPart(fuelType, q5);
    Peel("&rad=", "&", "rad=", rad, t4, q3);
    Peel("&lng=", "&", "lng=", lng, t3, q2);
    Peel("?lat=", "?", "lat=", lat, t2, q1);
  }

  /** A literal `p + rest` before a value and a tail `&q` regroups as `p`
      followed by `rest`, the value, `&` and `q`. */
  lemma Peel(lit: string, p: string, rest: string, v: string, tail: string, q: string)
    requires lit == p + rest
    requires tail == [] || tail == "&" + q
    ensures tail == [] ==> lit + v + tail == p + (rest + v)
    ensures tail != [] ==> lit + v + tail == p + (rest + v + "&" + q)
  {
  }

  /** The literal `&sort=dist&type=` holds two parameters. */
  lemma TypeAndSortPart(fuelType: string, q: string)
    ensures "&sort=dist&type=" + fuelType + ("&" + q) == "&" + ("sort=dist" + "&" + ("type=" + fuelType + "&" + q))
  {
    assert "&sort=dist&type=" == "&" + "sort=dist" + "&" + "type=";
  }

  /** The encoding of the six parameters, written out. */
  lemma EncodeSix(key: string, lat: string, lng: string, rad: string, fuelType: string)
    ensures QueryString.Encode([("lat", lat), ("lng", lng), ("rad", rad), ("sort", "dist"),
                                ("type", fuelType), ("apikey", key)])
            == "lat=" + lat + "&" + ("lng=" + lng + "&" + ("rad=" + rad + "&" + ("sort=dist" + "&"
               + ("type=" + fuelType + "&" + ("apikey=" + key)))))
  {
    var pairs := [("lat", lat), ("lng", lng), ("rad", rad), ("sort", "dist"), ("type", fuelType), ("apikey", key)];
    var fields := seq(|pairs|, i requires 0 <= i < |pairs| => QueryString.Param(pairs[i]));
    var q5 := "apikey=" + key;
    var q4 := "type=" + fuelType + "&" + q5;
    var q3 := "sort=dist" + "&" + q4;
    var q2 := "rad=" + rad + "&" + q3;
    var q1 := "lng=" + lng + "&" + q2;
    var q0 := "lat=" + lat + "&" + q1;
    assert fields[5] == q5 && fields[4] == "type=" + fuelType && fields[3] == "sort=dist";
    assert fields[2] == "rad=" + rad && fields[1] == "lng=" + lng && fields[0] == "lat=" + lat;
    assert QueryString.Join(fields[5..], '&') == q5;
    assert QueryString.Join(fields[4..], '&') == q4;
    assert QueryString.Join(fields[3..], '&') == q3;
    assert QueryString.Join(fields[2..], '&') == q2;
    assert QueryString.Join(fields[1..], '&') == q1;
    assert QueryString.Join(fields, '&') == q0;
  }

  /** Concatenation is associative: the source's left-nested chain equals the
      right-nested one. */
  lemma Regroup(s0: string, s1: string, s2: string, s3: string, s4: string, s5: string,
                s6: string, s7: string, s8: string, s9: string, s10: string)
    ensures s0 + s1 + s2 + s3 + s4 + s5 + s6 + s7 + s8 + s9 + s10
            == s0 + (s1 + s2 + (s3 + s4 + (s5 + s6 + (s7 + s8 + (s9 + s10)))))
  {
  }

  /** A location without `lat` or `long` and settings without `radius` do not
      stop the call: the URL carries the text `None` for each. */
  lemma MissingValuesRenderNone(settings: map<string, Json>, location: map<string, Json>)
    requires Lookup(settings, "type").Str? && '&' !in Lookup(settings, "type").s
    requires "lat" !in location && "long" !in location && "radius" !in settings
    ensures QueryUrl(settings, location).Some?
    ensures var params := QueryParameters(settings, location, Lookup(settings, "type").s);
            UrlParameters(QueryUrl(settings, location).value) == Some(params)
            && params[0] == ("lat", "None") && params[1] == ("lng", "None") && params[2] == ("rad", "None")
  {
    QueryUrlParameters(settings, location);
  }

  /** The outcome of `getQueriedTankerData`: the dictionary returned and the
      URLs requested, in order. */
  datatype Fetch = Fetch(result: Json, requested: seq<string>)

  /** `getQueriedTankerData()` on `caller`. `settings` and `location` are
      what `loadSettings()` and `loadLocationSettings()` yield during this
      call, and `get` is the network. Build the URL, request it once and
      return the decoded body; every failure on the way returns
      `{"stations": []}`. */
  function GetQueriedTankerData(caller: ApiCaller, settings: Load, location: Load, get: string -> Response)
    : (f: Fetch)
    // at most one request, never retried
    ensures |f.requested| <= 1
    // a request is made exactly when both loads succeed and the fuel type is a string
    ensures f.requested != [] <==>
              settings.Loaded? && location.Loaded? && Lookup(settings.record, "type").Str?
    // the request goes to the URL built from the records loaded by this call
    ensures f.requested != [] ==> f.requested[0] == QueryUrl(settings.record, location.record).value
    // the decoded body is returned untouched; any failure yields the empty list
    ensures f.requested != [] && get(f.requested[0]).Body? ==> f.result == get(f.requested[0]).value
    ensures f.requested == [] || !get(f.requested[0]).Body? ==> f.result == EmptyStations
  {
    match settings
    case LoadFailed => Fetch(EmptyStations, [])
    case Loaded(settings) =>
      match location
      case LoadFailed => Fetch(EmptyStations, [])
      case Loaded(location) =>
        match QueryUrl(settings, location)
        case None => Fetch(EmptyStations, [])
        case Some(url) =>
          match get(url)
          case Body(value) => Fetch(value, [url])
          case RequestFailed => Fetch(EmptyStations, [url])
          case BodyNotJson => Fetch(EmptyStations, [url])
  }

  /** The settings are read on every call: two calls on the same caller
      whose loads yield different radii request different URLs. */
  lemma SettingsReadOnEveryCall(caller: ApiCaller, location: map<string, Json>,
                                first: map<string, Json>, second: map<string, Json>,
                                get: string -> Response)
    requires Lookup(first, "type").Str? && Lookup(second, "type") == Lookup(first, "type")
    requires '&' !in Lookup(first, "type").s
    requires '&' !in Render(Lookup(location, "lat")) && '&' !in Render(Lookup(location, "long"))
    requires '&' !in Render(Lookup(first, "radius")) && '&' !in Render(Lookup(second, "radius"))
    requires Render(Lookup(first, "radius")) != Render(Lookup(second, "radius"))
    ensures GetQueriedTankerData(caller, Loaded(first), Loaded(location), get).requested
            != GetQueriedTankerData(caller, Loaded(second), Loaded(location), get).requested
  {
    QueryUrlParameters(first, location);
    QueryUrlParameters(second, location);
    var p1 := QueryParameters(first, location, Lookup(first, "type").s);
    var p2 := QueryParameters(second, location, Lookup(second, "type").s);
    assert p1[2] != p2[2];
  }

  /** A fuel type that is missing (or not a string) means no request at all
      and the empty list. */
  lemma MissingTypeFallsBack(caller: ApiCaller, settings: map<string, Json>, location: Load,
                             get: string -> Response)
    requires !Lookup(settings, "type").Str?
    ensures GetQueriedTankerData(caller, Loaded(settings), location, get) == Fetch(EmptyStations, [])
  {
  }

  /** A failed load, a failed request or a body that is not JSON each end in
      `{"stations": []}`. */
  lemma FailuresCollapse(caller: ApiCaller, settings: Load, location: Load, get: string -> Response)
    ensures settings.LoadFailed? ==> GetQueriedTankerData(caller, settings, location, get).result == EmptyStations
    ensures location.LoadFailed? ==> GetQueriedTankerData(caller, settings, location, get).result == EmptyStations
    ensures forall url :: GetQueriedTankerData(caller, settings, location, get).requested == [url] && !get(url).Body?
              ==> GetQueriedTankerData(caller, settings, location, get).result == EmptyStations
  {
  }

  /** With every outcome favourable, the call returns the body obtained from
      the one URL that carries the loaded values. */
  lemma SuccessfulCall(caller: ApiCaller, settings: map<string, Json>, location: map<string, Json>,
                       get: string -> Response)
    requires Lookup(settings, "type").Str?
    requires get(QueryUrl(settings, location).value).Body?
    ensures var url := QueryUrl(settings, location).value;
            GetQueriedTankerData(caller, Loaded(settings), Loaded(location), get) == Fetch(get(url).value, [url])
  {
  }
}
