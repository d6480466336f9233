/** The part of `serde_json::Value` the core looks at. Numbers are kept as
    integers: the core only ever asks whether a value is a string, and the
    numbers it builds itself are `u32`s. An object is a map, since the Rust
    code reads objects through `HashMap`s whose iteration order is unspecified. */
module Json {
  import opened Wrappers

  datatype Json =
    | JNull
    | JBool(b: bool)
    | JNumber(n: int)
    | JString(s: string)
    | JArray(items: seq<Json>)
    | JObject(fields: map<string, Json>)

  /** Rust's `u32`, the type of every count in the actor configurations. */
  type uint32 = n: int | 0 <= n < 0x1_0000_0000

  /** `serde_json::from_str`, left abstract: None when the text is not JSON. */
  type JsonParser = string -> Option<Json>

  /** `Value::as_str`. */
  function AsStr(v: Json): (r: Option<string>)
    ensures r.Some? <==> v.JString?
    ensures r.Some? ==> v == JString(r.value)
  {
    if v.JString? then Some(v.s) else None
  }

  /** Reading a string as a `HashMap<String, Value>`: it must be JSON and
      an object. */
  function ParseObject(text: string, parse: JsonParser): (r: Option<map<string, Json>>)
    ensures r.Some? <==> parse(text).Some? && parse(text).value.JObject?
  {
    match parse(text)
    case Some(JObject(fields)) => Some(fields)
    case _ => None
  }

  /** `serde_json::to_value` of a `Vec<String>`. */
  function StringArray(ss: seq<string>): (v: Json)
    ensures v.JArray? && |v.items| == |ss|
    ensures forall i :: 0 <= i < |ss| ==> v.items[i] == JString(ss[i])
  {
    JArray(seq(|ss|, i requires 0 <= i < |ss| => JString(ss[i])))
  }

  /** `serde_json::to_value` of an `Option<String>`: None is `null`. */
  function OptionalString(o: Option<string>): (v: Json)
    ensures o.None? <==> v == JNull
    ensures o.Some? ==> v == JString(o.value)
  {
    match o
    case None => JNull
    case Some(s) => JString(s)
  }
}
