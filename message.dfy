/**
 * The message value object (src/Message.php) and the slice of PHP values it
 * carries. PHP arrays are modelled as maps from string keys; their key order
 * is not modelled.
 */
module Messages {
  import opened Wrappers

  /** A PHP value as produced by json_decode(..., true) or found in an array. */
  datatype Json =
    | JNull
    | JBool(b: bool)
    | JNumber(text: string)     // an int or float, kept as PHP's string form of it
    | JString(s: string)
    | JArray(entries: map<string, Json>)

  /** A message payload: a PHP array with opaque values. */
  type Payload = map<string, Json>

  /** The transport handle: any PHP value, or a transport object (such as an AMQP message). */
  datatype Raw = RawValue(value: Json) | TransportObject(tag: nat)

  const NoRaw: Raw := RawValue(JNull)

  /** Readonly properties: a datatype value can never be changed after construction. */
  datatype Message = Message(id: string, eventType: string, payload: Payload, raw: Raw)

  /** PHP's `isset($a[$key])`: the value is an array holding a non-null value at `key`. */
  function Lookup(v: Json, key: string): (r: Option<Json>)
    ensures r.Some? <==> (v.JArray? && key in v.entries && v.entries[key] != JNull)
    ensures r.Some? ==> r.value == v.entries[key]
  {
    if v.JArray? && key in v.entries && v.entries[key] != JNull then Some(v.entries[key]) else None
  }

  /**
   * Passing a value to a `string` parameter without strict types: strings pass,
   * numbers and booleans are converted, null and arrays raise a TypeError.
   */
  function AsStringParam(v: Json): (r: Option<string>)
    ensures v.JString? ==> r == Some(v.s)
    ensures r.None? <==> (v.JNull? || v.JArray?)
  {
    match v
    case JString(s) => Some(s)
    case JNumber(t) => Some(t)
    case JBool(b) => Some(if b then "1" else "")
    case _ => None
  }

  /** Passing a value to an `array` parameter: only arrays pass. */
  function AsArrayParam(v: Json): (r: Option<Payload>)
    ensures r.Some? <==> v.JArray?
    ensures r.Some? ==> r.value == v.entries
  {
    if v.JArray? then Some(v.entries) else None
  }

  /** The TypeError PHP raises when a constructor argument does not fit its parameter type. */
  datatype TypeError = TypeError(field: string)

  /** `__serialize`: an array with exactly the keys id, type and payload; `raw` is dropped. */
  function Serialize(m: Message): (data: map<string, Json>)
    ensures data.Keys == {"id", "type", "payload"}
    ensures "raw" !in data
    ensures data["id"] == JString(m.id) && data["type"] == JString(m.eventType)
    ensures data["payload"] == JArray(m.payload)
  {
    map["id" := JString(m.id), "type" := JString(m.eventType), "payload" := JArray(m.payload)]
  }

  /** A read of `$data[$key]`: a missing key reads as null. */
  function Read(data: map<string, Json>, key: string): (v: Json)
    ensures Lookup(JArray(data), key).Some? ==> v == Lookup(JArray(data), key).value
    ensures Lookup(JArray(data), key).None? ==> v == JNull
  {
    if key in data then data[key] else JNull
  }

  /**
   * `__unserialize`: re-runs the constructor with the three stored fields and
   * raw = null; a field the constructor's parameter type refuses raises a TypeError.
   */
  function Unserialize(data: map<string, Json>): (r: Result<Message, TypeError>)
    ensures r.Ok? <==>
      (AsStringParam(Read(data, "id")).Some? && AsStringParam(Read(data, "type")).Some?
       && AsArrayParam(Read(data, "payload")).Some?)
    ensures r.Ok? ==> r.value.raw == NoRaw
    ensures r.Ok? ==>
      && Some(r.value.id) == AsStringParam(Read(data, "id"))
      && Some(r.value.eventType) == AsStringParam(Read(data, "type"))
      && r.value.payload == Read(data, "payload").entries
  {
    var id := AsStringParam(Read(data, "id"));
    var ty := AsStringParam(Read(data, "type"));
    var payload := AsArrayParam(Read(data, "payload"));
    if id.None? then Err(TypeError("id"))
    else if ty.None? then Err(TypeError("type"))
    else if payload.None? then Err(TypeError("payload"))
    else Ok(Message(id.value, ty.value, payload.value, NoRaw))
  }

  /** The round trip keeps id, type and payload and leaves raw null. */
  lemma SerializeRoundTrip(m: Message)
    ensures Unserialize(Serialize(m)) == Ok(Message(m.id, m.eventType, m.payload, NoRaw))
    ensures Unserialize(Serialize(m)) == Ok(m) <==> m.raw == NoRaw
  {
  }

  /** Serialising forgets the transport handle: messages differing only in raw serialise alike. */
  lemma SerializeIgnoresRaw(m: Message, raw: Raw)
    ensures Serialize(m.(raw := raw)) == Serialize(m)
  {
  }

  /** Serialising is injective on the serialised fields. */
  lemma SerializeInjective(m1: Message, m2: Message)
    requires Serialize(m1) == Serialize(m2)
    ensures m1.id == m2.id && m1.eventType == m2.eventType && m1.payload == m2.payload
  {
  }
}
