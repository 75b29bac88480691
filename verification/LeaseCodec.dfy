/** The lease record of one critical section and the payload format it is stored in. */
module LeaseCodec {
  import opened Options

  newtype Byte = b: int | 0 <= b < 256

  type Binary = seq<Byte>

  const MAX_FENCING_SEQUENCE: nat := 9007199254740991
  const SCHEMA := "bmscl.critical-section.state/v1"

  /** What a store row says about one critical section. A free lease has no holder. */
  datatype Lease = Lease(
    sequence: nat, holder: Option<Binary>, requestId: Option<Binary>, expiresAt: nat)

  const FREE_LEASE := Lease(0, None, None, 0)

  /** A JSON value as far as the payload uses one. */
  datatype Json = JNull | JInt(n: int) | JText(text: Binary) | JOther

  /** A stored binary, seen through the JSON library: an object, another JSON value, or no JSON. */
  datatype Payload = Object(fields: map<string, Json>) | NotAnObject | NotJson

  datatype Decoding = Decoded(lease: Lease) | InvalidHolder | InvalidRequestId | InvalidPayload | InvalidJson

  /** Holders and request ids: 1 to 256 bytes without NUL. */
  predicate BoundedText(text: Binary) {
    0 < |text| <= 256 && 0 !in text
  }

  predicate BoundedOptional(text: Option<Binary>) {
    text.Some? ==> BoundedText(text.value)
  }

  function Nullable(text: Option<Binary>): Json {
    match text
    case None => JNull
    case Some(value) => JText(value)
  }

  function Encode(lease: Lease): Payload {
    Object(map[
      "schema" := JText(Ascii(SCHEMA)),
      "sequence" := JInt(lease.sequence),
      "holder" := Nullable(lease.holder),
      "request_id" := Nullable(lease.requestId),
      "expires_at_unix_ms" := JInt(lease.expiresAt)])
  }

  /** `None` is the decoder's `error`. */
  function DecodeOptional(value: Json): Option<Option<Binary>> {
    match value
    case JNull => Some(None)
    case JText(text) => if BoundedText(text) then Some(Some(text)) else None
    case _ => None
  }

  function Decode(payload: Payload): Decoding {
    match payload
    case NotJson => InvalidJson
    case NotAnObject => InvalidPayload
    case Object(fields) =>
      if {"schema", "sequence", "holder", "request_id", "expires_at_unix_ms"} <= fields.Keys
         && fields["schema"] == JText(Ascii(SCHEMA))
         && fields["sequence"].JInt? && 0 <= fields["sequence"].n <= MAX_FENCING_SEQUENCE
         && fields["expires_at_unix_ms"].JInt? && 0 <= fields["expires_at_unix_ms"].n
      then
        var holder := DecodeOptional(fields["holder"]);
        var requestId := DecodeOptional(fields["request_id"]);
        if holder.Some? && requestId.Some? then
          Decoded(Lease(fields["sequence"].n, holder.value, requestId.value, fields["expires_at_unix_ms"].n))
        else if holder.None? then InvalidHolder
        else InvalidRequestId
      else InvalidPayload
  }

  function Ascii(text: string): (bytes: Binary)
    ensures |bytes| == |text| && forall i | 0 <= i < |text| && text[i] as int < 128 :: bytes[i] as int == text[i] as int
  {
    seq(|text|, i requires 0 <= i < |text| => if text[i] < 128 as char then text[i] as int as Byte else 63)
  }

  /** Exactly the leases the format can carry. */
  predicate Encodable(lease: Lease) {
    && lease.sequence <= MAX_FENCING_SEQUENCE
    && BoundedOptional(lease.holder)
    && BoundedOptional(lease.requestId)
  }

  /** A lease comes back from the store unchanged exactly when it is within the format's bounds. */
  lemma RoundTrip(lease: Lease)
    ensures Decode(Encode(lease)) == Decoded(lease) <==> Encodable(lease)
  {
    var fields := Encode(lease).fields;
    assert fields.Keys == {"schema", "sequence", "holder", "request_id", "expires_at_unix_ms"};
  }

  /** Whatever decodes is within bounds, and re-encoding it changes no field the decoder reads. */
  lemma DecodeThenEncode(payload: Payload)
    requires Decode(payload).Decoded?
    ensures Encodable(Decode(payload).lease)
    ensures Decode(Encode(Decode(payload).lease)) == Decode(payload)
    ensures var again := Encode(Decode(payload).lease).fields;
            forall name | name in again :: name in payload.fields && payload.fields[name] == again[name]
  {
    RoundTrip(Decode(payload).lease);
  }

  /** Null, or 1 to 256 bytes without NUL. */
  predicate NullOrText(value: Json) {
    value.JNull? || (value.JText? && 0 < |value.text| <= 256 && 0 !in value.text)
  }

  /**
   * What the decoder makes of a payload: the leases it accepts have all five fields, this schema, a sequence
   * up to 2^53 - 1, an expiry that is not negative, and bounded names; of two faulty names it reports the
   * holder's.
   */
  lemma DecodeDecision(fields: map<string, Json>)
    ensures Decode(NotJson) == InvalidJson && Decode(NotAnObject) == InvalidPayload
    ensures var framed := && "schema" in fields && "sequence" in fields && "holder" in fields
                          && "request_id" in fields && "expires_at_unix_ms" in fields
                          && fields["schema"] == JText(Ascii("bmscl.critical-section.state/v1"))
                          && fields["sequence"].JInt? && 0 <= fields["sequence"].n <= 9007199254740991
                          && fields["expires_at_unix_ms"].JInt? && 0 <= fields["expires_at_unix_ms"].n;
            match Decode(Object(fields))
            case Decoded(lease) =>
              && framed && NullOrText(fields["holder"]) && NullOrText(fields["request_id"])
              && lease.sequence == fields["sequence"].n && lease.expiresAt == fields["expires_at_unix_ms"].n
              && Nullable(lease.holder) == fields["holder"] && Nullable(lease.requestId) == fields["request_id"]
            case InvalidHolder => framed && !NullOrText(fields["holder"])
            case InvalidRequestId => framed && NullOrText(fields["holder"]) && !NullOrText(fields["request_id"])
            case InvalidPayload => !framed
            case InvalidJson => false
  {
  }
}
