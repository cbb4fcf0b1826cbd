/** What the form pages show besides their inputs: a flash banner and the server's
  * messages under a field. */
module Forms {
  import opened Wrappers
  import opened Net
  import opened JsText

  datatype FlashKind = Success | Error

  /** `{ type, text }` of a flash banner. */
  datatype Flash = Flash(kind: FlashKind, text: string)

  const HomePath := "/"

  /** `serverErrors[key] && serverErrors[key].join(', ')`: the line under a field. */
  function FieldMessage(es: seq<FieldError>, key: string): (m: Option<string>)
    ensures m.Some? <==> Lookup(es, key).Some?
    ensures m.Some? ==> m.value == Join(", ", Lookup(es, key).value)
  {
    match Lookup(es, key)
    case None => None
    case Some(msgs) => Some(Join(", ", msgs))
  }
}
