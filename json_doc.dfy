/**
 * An already-parsed JSON document, standing in for ArduinoJson's
 * `DynamicJsonDocument` / `JsonObject`. Deserialisation itself is not modelled:
 * a parse yields either `ParseError` or an object whose absent members are
 * simply missing keys.
 */
module JsonDoc {
  import opened Units

  datatype JsonValue = JNull | JBool(b: bool) | JNumber(n: real) | JString(s: string)

  type JsonObject = map<string, JsonValue>

  /** Result of `deserializeJson`: an error or the parsed object. */
  datatype Parse = ParseError | Parsed(obj: JsonObject)

  /** `obj.containsKey(key)` */
  predicate ContainsKey(obj: JsonObject, key: string)
  {
    key in obj
  }

  /** `obj[key].isNull()`: an absent member reads as null. */
  predicate IsNull(obj: JsonObject, key: string)
  {
    key !in obj || obj[key] == JNull
  }

  /** Truncation toward zero, as a C cast from float to int. */
  function TruncToInt(x: real): (r: int)
    ensures 0.0 <= x ==> r as real <= x < r as real + 1.0
    ensures x < 0.0 ==> r as real - 1.0 < x <= r as real
  {
    if x >= 0.0 then x.Floor else -((-x).Floor)
  }

  /** `obj[key].as<String>()`; a member that is not a string reads as "". */
  function AsString(obj: JsonObject, key: string): string
  {
    if key in obj && obj[key].JString? then obj[key].s else ""
  }

  /** `obj[key].as<float>()`; a member that is not a number reads as 0. */
  function AsFloat(obj: JsonObject, key: string): real
  {
    if key in obj && obj[key].JNumber? then obj[key].n else 0.0
  }

  /** `obj[key].as<int>()`: a number is truncated toward zero. */
  function AsInt(obj: JsonObject, key: string): int
  {
    if key in obj && obj[key].JNumber? then TruncToInt(obj[key].n) else 0
  }

  /**
   * `obj[key].as<int>()` into a 32-bit `int`; a number out of that range
   * reads as 0.
   */
  function AsInt32(obj: JsonObject, key: string): (r: i32)
    ensures -0x8000_0000 <= AsInt(obj, key) < 0x8000_0000 ==> r == AsInt(obj, key)
  {
    var v := AsInt(obj, key);
    if -0x8000_0000 <= v < 0x8000_0000 then v else 0
  }

  /** `obj[key].as<bool>()` */
  function AsBool(obj: JsonObject, key: string): bool
  {
    if key in obj && obj[key].JBool? then obj[key].b
    else if key in obj && obj[key].JNumber? then obj[key].n != 0.0
    else false
  }

  /** An integer written into a document reads back unchanged through `as<int>()`. */
  lemma AsIntOfInteger(obj: JsonObject, key: string, v: int)
    requires key in obj && obj[key] == JNumber(v as real)
    ensures AsInt(obj, key) == v
    ensures -0x8000_0000 <= v < 0x8000_0000 ==> AsInt32(obj, key) == v
  {
  }
}
