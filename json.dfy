/**
  JSON values as Python's `json` module produces and consumes them, and the codec
  (`json.dumps` + UTF-8 encoding, UTF-8 decoding + `json.loads`) taken as a parameter:
  the model relies only on its round-trip law.
 */
module JsonModel {
  import opened Wrappers
  import opened Bytes

  datatype Json =
    | JNull
    | JBool(b: bool)
    | JInt(i: int)
    | JFloat(r: real)
    | JStr(s: string)
    | JArray(items: seq<Json>)
    | JObject(fields: map<string, Json>)

  /** A serializer and a parser; `decode` is None where the source raises. */
  datatype Codec = Codec(encode: Json -> seq<byte>, decode: seq<byte> -> Option<Json>)

  /** The one fact the model uses about the library: parsing what was printed gives it back. */
  ghost predicate RoundTrips(c: Codec)
  {
    forall j :: c.decode(c.encode(j)) == Some(j)
  }

  /** Python truthiness of a decoded value. */
  predicate Truthy(j: Json)
  {
    match j
    case JNull => false
    case JBool(b) => b
    case JInt(i) => i != 0
    case JFloat(r) => r != 0.0
    case JStr(s) => s != ""
    case JArray(items) => items != []
    case JObject(fields) => fields != map[]
  }

  /**
    Python's `key in value` for a string key: a key of an object, an element of a list, a
    substring of a string. None for numbers, booleans and None, where Python raises TypeError.
   */
  function PyIn(key: string, value: Json): (r: Option<bool>)
    ensures r.None? <==> !(value.JStr? || value.JArray? || value.JObject?)
    ensures value.JObject? ==> r == Some(key in value.fields)
  {
    match value
    case JObject(fields) => Some(key in fields)
    case JArray(items) => Some(JStr(key) in items)
    case JStr(s) => Some(exists i :: 0 <= i <= |s| && key <= s[i..])
    case _ => None
  }

  /** Python's `len(value)`; None where Python raises. */
  function PyLen(value: Json): (r: Option<nat>)
    ensures r.None? <==> !(value.JStr? || value.JArray? || value.JObject?)
  {
    match value
    case JStr(s) => Some(|s|)
    case JArray(items) => Some(|items|)
    case JObject(fields) => Some(|fields|)
    case _ => None
  }
}
