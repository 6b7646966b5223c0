/** The message of an error response: a server-supplied text when the body
    carries one, else a generic fallback. */
module ServerMessage {
  import opened Basics

  /** A value inside parsed JSON, as far as the message extraction looks at it:
      a string, or anything else. */
  datatype JsonValue = JString(s: string) | JOther

  /** The foreign JSON readers: the body as a JSON object, and the body as a
      JSON array. `None` is a body that does not parse as that kind. */
  datatype JsonReader = JsonReader(
    parseObject: Bytes -> Option<map<string, JsonValue>>,
    parseArray: Bytes -> Option<seq<JsonValue>>)

  /** The message used when the body yields none. */
  const GenericMessage: string := "Something went wrong..."

  /** The string under the key "message" of a body that parses as a JSON object. */
  function ObjectMessage(reader: JsonReader, data: Option<Bytes>): (r: Option<string>)
    ensures r.Some? <==> data.Some? && reader.parseObject(data.value).Some?
                         && "message" in reader.parseObject(data.value).value
                         && reader.parseObject(data.value).value["message"].JString?
    ensures r.Some? ==> reader.parseObject(data.value).value["message"] == JString(r.value)
  {
    match data
    case None => None
    case Some(bytes) =>
      match reader.parseObject(bytes)
      case None => None
      case Some(obj) =>
        if "message" in obj && obj["message"].JString? then Some(obj["message"].s) else None
  }

  /** The only element of a body that parses as a one-element JSON array whose
      element is a string. */
  function SoleArrayString(reader: JsonReader, data: Option<Bytes>): (r: Option<string>)
    ensures r.Some? <==> data.Some? && exists m :: reader.parseArray(data.value) == Some([JString(m)])
    ensures r.Some? ==> reader.parseArray(data.value) == Some([JString(r.value)])
  {
    match data
    case None => None
    case Some(bytes) =>
      match reader.parseArray(bytes)
      case None => None
      case Some(a) =>
        if |a| == 1 && a[0].JString? then
          assert a == [JString(a[0].s)];
          Some(a[0].s)
        else
          assert forall m :: a != [JString(m)];
          None
  }

  /** The object's "message" string takes precedence over the array form, and
      the generic message is used only when neither is there. A message other
      than the generic one is always a string found in the body. */
  function ErrorMessage(reader: JsonReader, data: Option<Bytes>): (m: string)
    ensures data.None? ==> m == GenericMessage
    ensures data.Some? && reader.parseObject(data.value).Some?
            && "message" in reader.parseObject(data.value).value
            && reader.parseObject(data.value).value["message"].JString?
            ==> m == reader.parseObject(data.value).value["message"].s
    ensures ObjectMessage(reader, data).None? && data.Some? && reader.parseArray(data.value).Some?
            && |reader.parseArray(data.value).value| == 1 && reader.parseArray(data.value).value[0].JString?
            ==> m == reader.parseArray(data.value).value[0].s
    ensures ObjectMessage(reader, data).None? && SoleArrayString(reader, data).None? ==> m == GenericMessage
    ensures m == GenericMessage
            || (data.Some? && reader.parseObject(data.value).Some?
                && "message" in reader.parseObject(data.value).value
                && reader.parseObject(data.value).value["message"] == JString(m))
            || (data.Some? && reader.parseArray(data.value) == Some([JString(m)]))
  {
    match ObjectMessage(reader, data)
    case Some(m) => m
    case None =>
      match SoleArrayString(reader, data)
      case Some(m) => m
      case None => GenericMessage
  }
}
