/** JSON values as Python's json module and the Gemini client hand them to
    chargraph.py: objects are dictionaries, numbers are exact reals. */
module Json {
  import opened Errors

  datatype Json =
    | JNull
    | JBool(b: bool)
    | JNum(n: real)
    | JStr(s: string)
    | JArr(items: seq<Json>)
    | JObj(fields: map<string, Json>)

  /** Python truthiness of the value (`if value:`). */
  predicate Truthy(j: Json) {
    match j
    case JNull => false
    case JBool(b) => b
    case JNum(n) => n != 0.0
    case JStr(s) => s != []
    case JArr(items) => items != []
    case JObj(fields) => fields != map[]
  }

  /** The numeric value Python arithmetic and comparisons see: a bool counts as 0 or 1,
      anything else is not a number. */
  function AsNumber(j: Json): Option<real> {
    match j
    case JNum(n) => Some(n)
    case JBool(b) => Some(if b then 1.0 else 0.0)
    case _ => None
  }

  /** `value[key]`: a KeyError when an object lacks the key, a TypeError when the
      value is not an object at all (a list, string, number, bool or None). */
  function Lookup(j: Json, key: string): Result<Json> {
    match j
    case JObj(fields) => if key in fields then Ok(fields[key]) else Err(KeyError)
    case _ => Err(TypeError)
  }

  /** The structural check process_text makes before it saves a response:
      an object whose "characters" and "relations" are both arrays. */
  predicate IsSnapshotShape(j: Json) {
    && j.JObj?
    && "characters" in j.fields && "relations" in j.fields
    && j.fields["characters"].JArr? && j.fields["relations"].JArr?
  }

  /** A snapshot that passed the check is truthy, so it is always sent back as a draft. */
  lemma SnapshotIsTruthy(j: Json)
    requires IsSnapshotShape(j)
    ensures Truthy(j)
  {
    assert "characters" in j.fields.Keys;
  }
}
