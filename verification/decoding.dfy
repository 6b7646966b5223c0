/** Decoding of a successful response body into the shape the request expects. */
module Decoding {
  import opened Basics

  /** The result type a request was declared with, decided when the request is
      built: `Nothing`, raw `Data`, a primitive the primitive decoder supports,
      or any other `Decodable` type, which goes through the JSON decoder. */
  datatype ExpectedShape = Nothing | RawData | Primitive | Structured

  /** A decoded body of result type `V`. */
  datatype Body<V> = NothingBody | DataBody(bytes: Bytes) | Decoded(value: V)

  /** The foreign decoders: the primitive decoder and the JSON decoder, which
      is configured with a date-decoding strategy `D`. `None` is a failed decode. */
  datatype Decoders<V, !D> = Decoders(
    primitive: Bytes -> Option<V>,
    json: (D, Bytes) -> Option<V>)

  /** A body has the form its expected shape calls for. */
  predicate Fits<V>(shape: ExpectedShape, body: Body<V>)
  {
    match shape
    case Nothing => body.NothingBody?
    case RawData => body.DataBody?
    case Primitive => body.Decoded?
    case Structured => body.Decoded?
  }

  /** The date-decoding strategy the JSON decoder is given: the request's own,
      else the process-wide one, else the library default. */
  function ResolveDateStrategy<D>(request: Option<D>, global: Option<D>, fallback: D): (r: D)
    ensures request.Some? ==> r == request.value
    ensures request.None? && global.Some? ==> r == global.value
    ensures request.None? && global.None? ==> r == fallback
  {
    match request
    case Some(s) => s
    case None =>
      match global
      case Some(s) => s
      case None => fallback
  }

  /** Decodes a present body. Never yields a value of the wrong form; `Nothing`
      and raw data always succeed and raw data is handed over unchanged; the
      two other shapes succeed exactly when their foreign decoder does. */
  function DecodeBody<V, D>(shape: ExpectedShape, decoders: Decoders<V, D>, strategy: D, data: Bytes): (r: Option<Body<V>>)
    ensures r.Some? ==> Fits(shape, r.value)
    ensures shape.Nothing? || shape.RawData? ==> r.Some?
    ensures shape.RawData? ==> r == Some(DataBody(data))
    ensures shape.Primitive? ==> (r.Some? <==> decoders.primitive(data).Some?)
    ensures shape.Primitive? && r.Some? ==> r.value.value == decoders.primitive(data).value
    ensures shape.Structured? ==> (r.Some? <==> decoders.json(strategy, data).Some?)
    ensures shape.Structured? && r.Some? ==> r.value.value == decoders.json(strategy, data).value
  {
    match shape
    case Nothing => Some(NothingBody)
    case RawData => Some(DataBody(data))
    case Primitive =>
      (match decoders.primitive(data)
       case Some(v) => Some(Decoded(v))
       case None => None)
    case Structured =>
      (match decoders.json(strategy, data)
       case Some(v) => Some(Decoded(v))
       case None => None)
  }
}
