/**
 * The part of serde_json's data model that session records are made of.
 * Turning text into values and back is left abstract: a `TextCodec` is a pair
 * of partial functions standing for `serde_json::from_str` and
 * `serde_json::to_string`.
 */
module Json {
  import opened Wrappers

  /** A JSON value (`serde_json::Value`); numbers are integers here. */
  datatype Value =
    | JNull
    | JBool(b: bool)
    | JInt(i: int)
    | JStr(s: string)
    | JArr(items: seq<Value>)
    | JObj(fields: map<string, Value>)

  /** A session record: field name to JSON value (`sessions::Data`). */
  type Record = map<string, Value>

  /** The text codec: `parse` rejects malformed text, `render` may fail. */
  datatype TextCodec = TextCodec(parse: string -> Option<Value>, render: Value -> Option<string>)

  /** `serde_json::from_str` at a map type: only a JSON object is a record. */
  function DecodeRecord(codec: TextCodec, text: string): (r: Option<Record>)
    ensures r.Some? <==> codec.parse(text).Some? && codec.parse(text).value.JObj?
    ensures r.Some? ==> codec.parse(text) == Some(JObj(r.value))
  {
    match codec.parse(text)
    case Some(JObj(fields)) => Some(fields)
    case _ => None
  }

  /** `serde_json::to_string` of a record: the record printed as a JSON object. */
  function EncodeRecord(codec: TextCodec, rec: Record): Option<string>
  {
    codec.render(JObj(rec))
  }

  /** The law serde_json keeps: whatever it prints parses back to the same value. */
  ghost predicate RoundTrips(codec: TextCodec)
  {
    forall v: Value :: codec.render(v).Some? ==> codec.parse(codec.render(v).value) == Some(v)
  }

  /** A record that serializes decodes back from its text to itself. */
  lemma RecordRoundTrip(codec: TextCodec, rec: Record)
    requires RoundTrips(codec) && EncodeRecord(codec, rec).Some?
    ensures DecodeRecord(codec, EncodeRecord(codec, rec).value) == Some(rec)
  {
    assert codec.render(JObj(rec)).Some?;
  }
}
