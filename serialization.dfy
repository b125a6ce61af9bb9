/**
 * `safeToString`: serializing a record to one line never fails. JSON encoding of
 * arbitrary values and string coercion are collaborators; their outcomes (None
 * when they throw) are the inputs here. Quoting a string is concrete (JsonString).
 */
module Serialization {
  import opened Wrappers
  import opened JsonString
  import opened Levels

  /** The message sent in place of a record that cannot be serialized at all. */
  const ErrorMessage := "error serializing log line"

  /**
   * The line for a record, given the outcome of `JSON.stringify(obj)` and of
   * `String(obj)`: the first if it succeeded, else the second as a JSON string,
   * else the error message as a JSON string.
   */
  function SafeToString(json: Option<string>, coerced: Option<string>): (r: string)
    ensures json.Some? ==> r == json.value
    ensures json.None? ==> Unquote(r) == Some(coerced.GetOr(ErrorMessage))
    ensures (json.Some? ==> '\n' !in json.value) ==> '\n' !in r
  {
    match json
    case Some(text) => text
    case None =>
      match coerced
      case Some(s) => Quote(s)
      case None => Quote(ErrorMessage)
  }

  /**
   * The collaborators that turn a record into text: `stringify` is `JSON.stringify`
   * and `coerce` is `String`, each applied to a record with the given level and payload.
   */
  datatype Encoder<-P> = Encoder(stringify: (Level, P) -> Option<string>, coerce: (Level, P) -> Option<string>)

  /** The line written for the record with this level and payload. */
  function Serialize<P>(enc: Encoder<P>, level: Level, payload: P): (r: string)
    ensures enc.stringify(level, payload).Some? ==> r == enc.stringify(level, payload).value
    ensures enc.stringify(level, payload).None? ==> Unquote(r).Some?
  {
    SafeToString(enc.stringify(level, payload), enc.coerce(level, payload))
  }

  /**
   * The fallbacks written out: a coerced text without control characters, quotes or
   * backslashes (a cyclic object's "[object Object]") is sent between quotes, and so
   * is the error message when coercion throws too.
   */
  lemma PlainFallback(coerced: Option<string>)
    requires coerced.Some? ==> forall i :: 0 <= i < |coerced.value| ==>
               coerced.value[i] >= ' ' && coerced.value[i] != '"' && coerced.value[i] != '\\'
    ensures SafeToString(None, coerced) == "\"" + coerced.GetOr(ErrorMessage) + "\""
  {
    var text := coerced.GetOr(ErrorMessage);
    assert forall i :: 0 <= i < |text| ==> text[i] >= ' ' && text[i] != '"' && text[i] != '\\';
    QuotePlain(text);
  }
}
