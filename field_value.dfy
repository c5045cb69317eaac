/**
 * The self-describing field value stored per asset, keyed by field id, and
 * its keyed-container coding: a tag under `type` and the payload under the
 * key named like the tag.
 */
module FieldValues {
  import opened Wrappers

  /** Foundation's `Date`, as seconds on a fixed time line. */
  type Date = real

  datatype FieldValue = Number(number: real) | Text(text: string) | Date(date: Date)

  /** The coding keys of the keyed container. */
  datatype CodingKey = TypeKey | NumberKey | TextKey | DateKey

  /** What a container can hold under one key. */
  datatype Payload = PString(s: string) | PDouble(d: real) | PDate(t: Date)

  /** A keyed container: what `encode(to:)` writes and `init(from:)` reads. */
  type Container = map<CodingKey, Payload>

  /** The two ways a keyed decode can throw. */
  datatype DecodeError = KeyNotFound(key: CodingKey) | TypeMismatch(key: CodingKey)

  /** The tag written under `type` for each variant. */
  function Tag(v: FieldValue): string {
    match v
    case Number(_) => "number"
    case Text(_) => "text"
    case Date(_) => "date"
  }

  /** The key that carries the payload of each variant. */
  function PayloadKey(v: FieldValue): CodingKey {
    match v
    case Number(_) => NumberKey
    case Text(_) => TextKey
    case Date(_) => DateKey
  }

  /** `encode(to:)`: the container holding the tag and the payload. */
  function Encode(v: FieldValue): (c: Container)
    ensures c.Keys == {TypeKey, PayloadKey(v)}
    ensures c[TypeKey] == PString(Tag(v))
  {
    match v
    case Number(x) => map[TypeKey := PString("number"), NumberKey := PDouble(x)]
    case Text(s) => map[TypeKey := PString("text"), TextKey := PString(s)]
    case Date(t) => map[TypeKey := PString("date"), DateKey := PDate(t)]
  }

  function DecodeString(c: Container, k: CodingKey): Result<string, DecodeError> {
    if k !in c then Failure(KeyNotFound(k))
    else if c[k].PString? then Success(c[k].s)
    else Failure(TypeMismatch(k))
  }

  function DecodeDouble(c: Container, k: CodingKey): Result<real, DecodeError> {
    if k !in c then Failure(KeyNotFound(k))
    else if c[k].PDouble? then Success(c[k].d)
    else Failure(TypeMismatch(k))
  }

  function DecodeDate(c: Container, k: CodingKey): Result<Date, DecodeError> {
    if k !in c then Failure(KeyNotFound(k))
    else if c[k].PDate? then Success(c[k].t)
    else Failure(TypeMismatch(k))
  }

  /**
   * `init(from:)`: read the tag, then the payload from the key the tag
   * names; an unknown tag yields an empty text value instead of an error.
   */
  function Decode(c: Container): (r: Result<FieldValue, DecodeError>)
    ensures TypeKey !in c ==> r == Failure(KeyNotFound(TypeKey))
  {
    match DecodeString(c, TypeKey)
    case Failure(e) => Failure(e)
    case Success(tag) =>
      if tag == "number" then
        match DecodeDouble(c, NumberKey)
        case Success(x) => Success(Number(x))
        case Failure(e) => Failure(e)
      else if tag == "text" then
        match DecodeString(c, TextKey)
        case Success(s) => Success(Text(s))
        case Failure(e) => Failure(e)
      else if tag == "date" then
        match DecodeDate(c, DateKey)
        case Success(t) => Success(Date(t))
        case Failure(e) => Failure(e)
      else Success(Text(""))
  }

  /** Decoding what was encoded gives back the value, for all three variants. */
  lemma DecodeEncode(v: FieldValue)
    ensures Decode(Encode(v)) == Success(v)
  {
  }

  /** An unknown tag decodes to empty text, whatever else the container holds. */
  lemma DecodeUnknownTag(c: Container, tag: string)
    requires TypeKey in c && c[TypeKey] == PString(tag)
    requires tag != "number" && tag != "text" && tag != "date"
    ensures Decode(c) == Success(Text(""))
  {
  }

  /**
   * Decoding reads the payload only from the key the tag names: two
   * containers that agree on `type` and on that key decode alike.
   */
  lemma DecodeReadsOnlyTaggedKey(c: Container, d: Container, v: FieldValue)
    requires TypeKey in c && TypeKey in d && c[TypeKey] == d[TypeKey] == PString(Tag(v))
    requires PayloadKey(v) in c <==> PayloadKey(v) in d
    requires PayloadKey(v) in c ==> c[PayloadKey(v)] == d[PayloadKey(v)]
    ensures Decode(c) == Decode(d)
  {
  }

  /** A known tag with its payload key missing throws `keyNotFound` for that key. */
  lemma DecodeMissingPayload(c: Container, v: FieldValue)
    requires TypeKey in c && c[TypeKey] == PString(Tag(v))
    requires PayloadKey(v) !in c
    ensures Decode(c) == Failure(KeyNotFound(PayloadKey(v)))
  {
  }
}
