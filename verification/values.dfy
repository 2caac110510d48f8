/** JavaScript values as the handlers see them: optional strings, truthiness,
    the `||` fallback, the ORM's "undefined means leave the column alone" rule,
    and the JSON shapes that responses and mail payloads are built from. */
module Values {

  /** `None` stands for `undefined` or `null`, `Some(v)` for a present value. */
  datatype Option<+T> = None | Some(value: T) {
    function GetOr(default: T): T {
      match this
      case Some(v) => v
      case None => default
    }
  }

  /** Outcome of a store operation or a library call that can throw. */
  datatype Result<+T> = Ok(value: T) | Err(message: string)

  /** JavaScript truthiness of an optional string: present and non-empty. */
  predicate Truthy(o: Option<string>) {
    o.Some? && o.value != ""
  }

  /** JavaScript truthiness of an optional number: present and non-zero. */
  predicate TruthyInt(o: Option<int>) {
    o.Some? && o.value != 0
  }

  /** JavaScript `a || b` on optional strings. */
  function OrElse(a: Option<string>, b: Option<string>): Option<string> {
    if Truthy(a) then a else b
  }

  /** JavaScript `a || ""`. */
  function OrEmpty(a: Option<string>): string {
    if Truthy(a) then a.value else ""
  }

  /** JavaScript `a || null` as a stored column value. */
  function OrNull(a: Option<string>): Option<string> {
    if Truthy(a) then a else None
  }

  /** The value written for `supplied || stored || undefined`. */
  function Fallback(supplied: Option<string>, stored: Option<string>): Option<string> {
    OrElse(supplied, OrElse(stored, None))
  }

  /** The ORM's rule for one column of an update: an `undefined` field
      leaves the stored value in place. */
  function Apply<T>(stored: T, update: Option<T>): T {
    match update
    case Some(v) => v
    case None => stored
  }

  /** The ORM's rule for a nullable column. */
  function ApplyOpt<T>(stored: Option<T>, update: Option<T>): Option<T> {
    match update
    case Some(_) => update
    case None => stored
  }

  /** The partial-update merge shared by the profile handlers: writing
      `supplied || stored || undefined` leaves the supplied value when it is
      truthy and the stored one otherwise, and never erases a column. */
  lemma FallbackMerge(supplied: Option<string>, stored: Option<string>)
    ensures ApplyOpt(stored, Fallback(supplied, stored)) == (if Truthy(supplied) then supplied else stored)
    ensures !Truthy(supplied) ==> ApplyOpt(stored, Fallback(supplied, stored)) == stored
  {
    if !Truthy(supplied) && !Truthy(stored) {
      assert Fallback(supplied, stored) == None;
    }
  }

  /** A JSON value, as a response body, a record returned by the store or a
      mail template's data bag carries it. */
  datatype Json =
    | JNull
    | JStr(s: string)
    | JInt(i: int)
    | JBool(b: bool)
    | JObj(fields: map<string, Json>)
    | JArr(items: seq<Json>)

  type Obj = map<string, Json>

  function StrOrNull(o: Option<string>): Json {
    match o
    case Some(s) => JStr(s)
    case None => JNull
  }

  function IntOrNull(o: Option<int>): Json {
    match o
    case Some(i) => JInt(i)
    case None => JNull
  }

  /** A template literal renders an unset environment variable as the
      text "undefined". */
  function Interpolate(o: Option<string>): string {
    match o
    case Some(s) => s
    case None => "undefined"
  }

  /** A template literal renders `null` as the text "null". */
  function Render(o: Option<string>): string {
    match o
    case Some(s) => s
    case None => "null"
  }
}
