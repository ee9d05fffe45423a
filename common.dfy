/**
 * Shared value types: optional values, results, the outcome of a call into an
 * external collaborator, bytes, and the JSON values that the classifier returns
 * and that the read API renders.
 */
module Common {

  datatype Option<+T> = None | Some(value: T) {
    predicate IsFailure() {
      None?
    }

    function PropagateFailure<U>(): Option<U>
      requires None?
    {
      None
    }

    function Extract(): T
      requires Some?
    {
      value
    }

    function GetOr(default: T): T {
      match this
      case Some(v) => v
      case None => default
    }
  }

  datatype Result<+T, +E> = Ok(value: T) | Err(error: E)

  /** What a call into a collaborator (IMAP, SMTP, the database commit) did:
      it returned, or it raised an exception whose text is `error`. */
  datatype Outcome = Pass | Fail(error: string)

  newtype byte = x: int | 0 <= x < 256

  /** A JSON value as the `json` module decodes it; `JNull` is Python's None
      (and a NULL column). Numbers are modelled as integers. */
  datatype Json =
    | JNull
    | JBool(b: bool)
    | JNum(n: int)
    | JStr(s: string)
    | JArr(items: seq<Json>)
    | JObj(fields: map<string, Json>)

  /** `d.get(key)`: the value stored under `key`, or None (JNull) when absent. */
  function Get(d: map<string, Json>, key: string): Json {
    if key in d then d[key] else JNull
  }

  /** `d.get(key, default)`. */
  function GetOrDefault(d: map<string, Json>, key: string, default: Json): Json {
    if key in d then d[key] else default
  }
}
