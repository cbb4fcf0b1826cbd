/** Values that may be absent (JavaScript `null`/`undefined`). */
module Wrappers {

  datatype Option<+T> = None | Some(value: T) {

    /** The value if present, otherwise `default` (the `x || default` idiom for objects). */
    function GetOr(default: T): T {
      match this
      case Some(v) => v
      case None => default
    }
  }
}

/** The browser's `localStorage`, as a string-keyed map of already-decoded values.
  * JSON serialisation is taken to be lossless, so a value reads back as it was written. */
module Storage {

  datatype Value =
    | Str(s: string)                  // a raw string, or a JSON-encoded string
    | List(items: seq<string>)        // a JSON array of strings
    | Flags(flags: map<string, bool>) // a JSON object of booleans

  type Store = map<string, Value>

  /** `localStorage.getItem(key)` for a key that holds a string; `None` plays `null`. */
  function GetStr(store: Store, key: string): (r: Option<string>)
    ensures r.Some? <==> key in store && store[key].Str?
    ensures r.Some? ==> store[key] == Str(r.value)
  {
    if key in store && store[key].Str? then Some(store[key].s) else None
  }

  /** The same lookup for a key that holds a list of strings. */
  function GetList(store: Store, key: string): (r: Option<seq<string>>)
    ensures r.Some? <==> key in store && store[key].List?
    ensures r.Some? ==> store[key] == List(r.value)
  {
    if key in store && store[key].List? then Some(store[key].items) else None
  }

  import opened Wrappers
}

/** What a `fetch` round trip can come back with, once HTTP and JSON decoding are
  * abstracted away, and what the pages' `catch` blocks then see. */
module Net {

  /** One entry of the server's `errors` object: a field name and its messages. */
  datatype FieldError = FieldError(field: string, messages: seq<string>)

  /** The `errors` member of a decoded non-ok response body. */
  datatype ErrorsField =
    | Entries(entries: seq<FieldError>) // an object of message lists, in key order
    | NoErrors                          // `undefined` or `null`
    | Text(text: string)                // a string instead of an object

  datatype Response<T> =
    | Ok(payload: T)            // a 2xx response with its decoded payload
    | Rejected(errors: ErrorsField) // a non-2xx response with a decoded body
    | NetworkError              // `fetch` or `res.json()` threw

  /** The value a `catch (errors)` block receives. */
  datatype Thrown =
    | ErrorsObject(entries: seq<FieldError>) // the server's errors object
    | ErrorInstance                          // an `Error`: it has no enumerable fields
    | Nothing                                // `undefined` or `null`
    | Primitive(text: string)                // a string

  /** `throw result.errors` (sign-in, sign-up, profile); a failed `fetch` throws an `Error`. */
  function ThrownAsIs<T>(r: Response<T>): (t: Thrown)
    requires !r.Ok?
    ensures r.NetworkError? ==> t == ErrorInstance
    ensures r.Rejected? && r.errors.Entries? ==> t == ErrorsObject(r.errors.entries)
    ensures r.Rejected? && r.errors.NoErrors? ==> t == Nothing
    ensures r.Rejected? && r.errors.Text? ==> t == Primitive(r.errors.text)
  {
    match r
    case NetworkError => ErrorInstance
    case Rejected(e) =>
      match e
      case Entries(es) => ErrorsObject(es)
      case NoErrors => Nothing
      case Text(s) => Primitive(s)
  }

  /** `throw result.errors || new Error(...)` (new and edit article): a falsy `errors`
    * (missing, `null` or the empty string) becomes an `Error`. */
  function ThrownOrError<T>(r: Response<T>): (t: Thrown)
    requires !r.Ok?
    ensures t != Nothing
    ensures t.Primitive? ==> t.text != ""
    ensures r.Rejected? && r.errors.Entries? ==> t == ErrorsObject(r.errors.entries)
    ensures r.NetworkError? || (r.Rejected? && r.errors.NoErrors?) ==> t == ErrorInstance
    ensures r.Rejected? && r.errors.Text? && r.errors.text == "" ==> t == ErrorInstance
    ensures r.Rejected? && r.errors.Text? && r.errors.text != "" ==> t == Primitive(r.errors.text)
  {
    match ThrownAsIs(r)
    case Nothing => ErrorInstance
    case Primitive(s) => if s == "" then ErrorInstance else Primitive(s)
    case other => other
  }

  /** JavaScript's `typeof errors === 'object'`, for the values a catch block can see
    * once `null` has been replaced by an `Error`. */
  predicate IsObject(t: Thrown) {
    t.ErrorsObject? || t.ErrorInstance?
  }

  /** The field messages a page can read back out of a thrown value (`errors.email`, ...):
    * only the server's errors object has any. */
  function Fields(t: Thrown): (es: seq<FieldError>)
    ensures t.ErrorsObject? ==> es == t.entries
    ensures !t.ErrorsObject? ==> es == []
  {
    if t.ErrorsObject? then t.entries else []
  }

  /** `errors[key]`, read as JavaScript would: the first entry with that name. */
  function Lookup(es: seq<FieldError>, key: string): (r: Option<seq<string>>)
    ensures r.Some? <==> exists i :: 0 <= i < |es| && es[i].field == key
    ensures r.Some? ==> exists i :: 0 <= i < |es| && es[i] == FieldError(key, r.value)
  {
    if es == [] then None
    else if es[0].field == key then Some(es[0].messages)
    else
      var r := Lookup(es[1..], key);
      assert forall i :: 0 <= i < |es| - 1 ==> es[1..][i] == es[i + 1];
      r
  }

  import opened Wrappers
}
