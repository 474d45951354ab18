# TankerK fuel-price query core, modelled in Dafny

TankerK shows the petrol stations around the user, with their prices, on a
map. Two small pieces of it sit at the boundary with the Tankerkoenig API,
and this project models both of them.

* **`ApiCaller`** (`api_caller.dfy`). Its constructor accepts only a settings
  service. `getQueriedTankerData` loads the search settings (`radius`,
  `type`) and the location (`lat`, `long`), concatenates the request URL
  `URL?lat=…&lng=…&rad=…&sort=dist&type=…&apikey=KEY` and issues one GET.
  It returns the decoded body. Any exception on the way turns into the
  literal `{"stations": []}`.
* **`GasStationDto`** (`gas_station_dto.dfy`). This is an immutable record
  of five values read with `dict.get` from one station entry: `lng` (kept as
  the longitude), `lat`, `price`, `brand` and `name`. The map view's loop
  builds one record per entry of `data.get('stations')`
  (`station_list.dfy`).

Supporting modules:

* `json_value.dfy` holds the decoded JSON values. `Null` is Python's `None`,
  so a JSON `null` and an absent key look alike, as they do after
  `dict.get`. It also holds `dict.get` itself and Python's `str()`.
* `query_string.dfy` is a reference reader for query strings (`split` on
  `&`, then the first `=`). It states what the built URL carries.
* `wrappers.dfy` holds `Option`.

Effects become inputs:

* The caller holds only its settings service. What the service's two load
  calls yield during one call of `getQueriedTankerData` is a pair of `Load`
  values passed to that call: a dictionary, or a failure. The settings are
  thus read afresh on every call, as the source does.
* `requests.get(url).json()` is a function `get` from a URL to a `Response`:
  the request raised, the body was not JSON, or the decoded body.
* `GetQueriedTankerData` returns the URLs it requested along with the
  result. Its contract proves there is at most one request and no retry.

What the code does on the way:

* It makes a single request, with no retry and no timeout.
* It validates no settings. A missing `lat`, `long` or `radius` is sent as
  the text `None`.
* A fuel type that is missing or not a string makes the concatenation raise.
  The call then returns the empty list instead of failing.

## Model

| member | source | states |
|---|---|---|
| `ApiCaller.Construct` | ApiCaller.py:17-30 | construction succeeds exactly when the dependency is a settings service, which is then stored unchanged; anything else fails the `isinstance` assertion |
| `ApiCaller.QueryUrl` | ApiCaller.py:50 | a URL is produced exactly when the settings' `type` is a string (otherwise the concatenation raises); it starts with the endpoint followed by `?lat=` and ends with `&apikey=` and the key |
| `ApiCaller.QueryUrlParameters` | ApiCaller.py:47-50 | read back as a query string, the URL holds exactly `lat` (from the location's `lat`), `lng` (from its `long`), `rad` (from the settings' `radius`), `sort=dist`, `type` and `apikey=KEY`, in this order |
| `ApiCaller.MissingValuesRenderNone` | ApiCaller.py:48-50 | a missing `lat`, `long` or `radius` does not stop the call; each is sent as the text `None` |
| `ApiCaller.GetQueriedTankerData` | ApiCaller.py:45-57 | at most one request; it happens exactly when both loads of this call succeed and the fuel type is a string, and it goes to the URL built from the records loaded by this call; a decoded body is returned untouched; every other path returns `{"stations": []}` |
| `ApiCaller.SettingsReadOnEveryCall` | ApiCaller.py:46-50 | the settings are loaded inside each call: two calls on the same caller whose loads yield different radii request different URLs |
| `ApiCaller.MissingTypeFallsBack` | ApiCaller.py:50-57 | with the settings loaded but no string `type`, nothing is requested and the result is `{"stations": []}` |
| `ApiCaller.FailuresCollapse` | ApiCaller.py:54-57 | a failed settings load, a failed location load, a failed request or an undecodable body each give exactly `{"stations": []}` |
| `ApiCaller.SuccessfulCall` | ApiCaller.py:45-53 | when every step succeeds, the result is the body fetched from the one URL built from the loaded values |
| `GasStationDto.FromJson` | src/Dto/GasStationDto.py:2-7 | defined for every dictionary; each getter returns what `get` gives for its key |
| `GasStationDto.LonIsReadFromLng` | src/Dto/GasStationDto.py:3-10 | `getLon()` returns the value under `lng`, or `None` when it is absent; a key named `lon` changes nothing |
| `GasStationDto.LatIsReadFromLat` | src/Dto/GasStationDto.py:4-13 | `getLat()` returns the value under `lat`, or `None` when it is absent |
| `GasStationDto.PriceIsReadFromPrice` | src/Dto/GasStationDto.py:5-16 | `getPrice()` returns the value under `price`, or `None` when it is absent; `diesel`, `e5` and `e10` never affect it |
| `GasStationDto.BrandAndNameAreRead` | src/Dto/GasStationDto.py:6-22 | `getBrand()` and `getName()` return the values under `brand` and `name`, or `None` when absent |
| `GasStationDto.OnlyStationKeysMatter` | src/Dto/GasStationDto.py:2-7 | two entries that agree on `lng`, `lat`, `price`, `brand` and `name` give the same record; other keys are ignored |
| `GasStationDto.FromJsonToJson` | src/Dto/GasStationDto.py:2-22 | writing a record back as an entry (longitude under `lng`) and reading it again gives the same record |
| `GasStationDto.ToJsonFromJson` | src/Dto/GasStationDto.py:2-7 | an entry decoded and written back keeps exactly its five station keys that do not hold `None` |
| `StationList.StationEntries` | main.py:33 | the entries are found exactly when the body is an object whose `stations` is a list, and they are that list |
| `StationList.DecodeStations` | main.py:32-34 | a record per entry, same length and order; it fails exactly when some entry is not a dictionary |
| `StationList.BuildGasStationList` | main.py:32-34 | the loop's list has one record per entry, in order, and agrees with `DecodeStations`; an entry that is not a dictionary aborts it |
| `StationList.FallbackHasNoStations` | ApiCaller.py:57 | the fallback body `{"stations": []}` holds no station entries (the code itself never feeds the API caller's result to the station loop) |

## Left out

- The HTTP request and the body decoding (`requests.get`, `.json()`) are network I/O in a library. They are the `get` parameter.
- `SettingsService` is not part of this model. The results of its `loadSettings` and `loadLocationSettings` calls are inputs to each `GetQueriedTankerData` call (`Load`). A load that returns something other than a dictionary counts as a failed load, because `.get` on it raises.
- The error message `print`ed on failure is output only.
- `Construct` assumes Python assertions are enabled. Under `python -O` the `isinstance` check is skipped.
- `Render`: `str()` is exact for `None`, booleans and strings. A number is carried as its opaque text. A list or dictionary setting renders as a placeholder, not as Python's `repr`.
- `QueryUrlParameters`, `MissingValuesRenderNone`, `SettingsReadOnEveryCall`: stated only when the sent values contain no `&`. The source percent-encodes nothing, so a value containing `&` would add query parameters of its own.
- `StationEntries`: only a list under `stations` is modelled. Python would also iterate an empty string or an empty dictionary, giving no stations, and would fail on a non-empty one.
- main.py beyond the station loop is left out: the map widget, the `.kv` file, the local `data.json` read and the commented-out request.
- Coordinates and prices are opaque values. No floating-point arithmetic or formatting is modelled.
- The getters are side-effect free because the record is an immutable datatype. Repeated calls return the same value by construction, so no lemma states this.
