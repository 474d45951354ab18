/** The Python values the core handles: what `json.load` / `Response.json()`
    produce and what the settings records hold. `Null` is Python's `None`,
    so a JSON `null` and a missing dictionary entry look the same to callers,
    exactly as they do after `dict.get`. */
module JsonValue {

  /** A decoded JSON value. A number keeps its Python `str()` rendering as
      opaque text: the model never computes with coordinates or prices. */
  datatype Json =
    | Null
    | Bool(b: bool)
    | Num(text: string)
    | Str(s: string)
    | Arr(items: seq<Json>)
    | Obj(fields: map<string, Json>)

  /** `d.get(key)`: the stored value, or `None` when the key is absent. */
  function Lookup(d: map<string, Json>, key: string): (v: Json)
    ensures key in d ==> v == d[key]
    ensures key !in d ==> v == Null
  {
    if key in d then d[key] else Null
  }

  /** Python's `str(v)` for the values a settings record can hold.
      `None`, booleans and strings are rendered exactly; a number is its
      recorded text; lists and objects get a fixed placeholder. */
  function Render(v: Json): (r: string)
    ensures v == Null ==> r == "None"
    ensures v.Str? ==> r == v.s
    ensures v.Num? ==> r == v.text
  {
    match v
    case Null => "None"
    case Bool(b) => if b then "True" else "False"
    case Num(text) => text
    case Str(s) => s
    case Arr(_) => "[...]"
    case Obj(_) => "{...}"
  }

  /** The value `{"stations": []}` that every failed API call yields. */
  const EmptyStations: Json := Obj(map["stations" := Arr([])])
}
