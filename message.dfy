/** The values the stream server and the front end pass around: the decoded packet record
    (a JavaScript object with `layer_2`, `layer_3`, `layer_4` and `payload` sub-objects, plus
    `rtp` once a header is extracted) and the events emitted to clients. */
module Message {
  import opened Wrappers
  import opened Text

  /** A stored field value: text as read from Redis, or the result of `Number(text)`. */
  datatype Value = Str(s: string) | Num(n: JsNumber)

  /** The RTP header extension as the extractor reports it: the profile-defined id, the
      length word, and the encoded bytes the extractor takes for it. */
  datatype ExtensionHeader = ExtensionHeader(id: nat, length: nat, payload: string)

  /** The `rtp` object attached to a packet record. */
  datatype RtpHeader = RtpHeader(
    headerLength: nat,
    payloadEncodingType: string,
    version: nat,
    padding: nat,
    extension: nat,
    csrcCount: nat,
    marker: nat,
    payloadType: nat,
    sequenceNumber: nat,
    timestamp: nat,
    ssrc: nat,
    csrcPayload: Option<string>,
    extensionHeader: Option<ExtensionHeader>,
    payload: string,
    payloadLength: nat)

  /** A top-level property of the record: a sub-object, a primitive, or the RTP header. */
  datatype Field = Record(entries: map<string, Value>) | Leaf(value: Value) | Rtp(header: RtpHeader)

  type Data = map<string, Field>

  /** JavaScript truthiness of a stored value. */
  predicate Truthy(v: Value) {
    match v
    case Str(s) => s != ""
    case Num(n) => n.Finite? && n.value != 0
  }

  /** JavaScript truthiness of a property that may be missing: objects are always truthy. */
  predicate TruthyField(f: Option<Field>) {
    match f
    case None => false
    case Some(Leaf(v)) => Truthy(v)
    case Some(_) => true
  }

  function Lookup(data: Data, name: string): Option<Field> {
    if name in data then Some(data[name]) else None
  }

  /** A property of a sub-object, `data[sub][name]`; reading a property of a primitive gives
      undefined. */
  function Member(data: Data, sub: string, name: string): Option<Value> {
    if sub in data && data[sub].Record? && name in data[sub].entries then Some(data[sub].entries[name])
    else None
  }

  /** An event as emitted to subscribers. */
  datatype Event = Event(eventType: string, timestamp: string, data: Payload)

  /** What an event carries: a packet record, or a transcript message from the speech
      service (opaque here). */
  datatype Payload = PacketData(record: Data) | Transcript(message: nat)
}
