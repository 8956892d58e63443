/** `readFile` of cli-tool/src/seed.js: read a file as UTF-8 text, parse it
    as JSON, and turn a syntax error into the seeder's own error.
    Reading the file and parsing JSON are not modelled; their outcomes are
    inputs: `read` is what `fs.readFileSync` returned or threw, `parse` is
    `JSON.parse` as an oracle from text to a value or a thrown error. */
module SeedFile {
  import opened Errors

  const InvalidJson: JsError := JsError(PlainError, "Invalid JSON format")

  /** The `catch` block: a `SyntaxError` becomes "Invalid JSON format",
      anything else is re-thrown as it is. */
  function MapReadError(e: JsError): JsError {
    if e.kind == SyntaxError then InvalidJson else e
  }

  function ReadFile<V>(read: Outcome<string>, parse: string -> Outcome<V>): Outcome<V> {
    match read
    case Fail(e) => Fail(MapReadError(e))
    case Ok(content) =>
      match parse(content)
      case Ok(v) => Ok(v)
      case Fail(e) => Fail(MapReadError(e))
  }

  /** The error thrown inside the `try` block, if any: the read's, else the
      parse's. */
  function TryError<V>(read: Outcome<string>, parse: string -> Outcome<V>): Option<JsError> {
    if read.Fail? then Some(read.error)
    else if parse(read.value).Fail? then Some(parse(read.value).error)
    else None
  }

  /** `readFile` succeeds exactly when reading and parsing both do, with the
      parsed value; otherwise it throws the mapped error: a syntax error as
      "Invalid JSON format", any other error unchanged. */
  lemma ReadFileOutcome<V>(read: Outcome<string>, parse: string -> Outcome<V>)
    ensures ReadFile(read, parse).Ok? <==> read.Ok? && parse(read.value).Ok?
    ensures ReadFile(read, parse).Ok? ==> ReadFile(read, parse).value == parse(read.value).value
    ensures ReadFile(read, parse).Fail? <==> TryError(read, parse).Some?
    ensures TryError(read, parse).Some? && TryError(read, parse).value.kind == SyntaxError ==>
      ReadFile(read, parse) == Fail(JsError(PlainError, "Invalid JSON format"))
    ensures TryError(read, parse).Some? && TryError(read, parse).value.kind != SyntaxError ==>
      ReadFile(read, parse) == Fail(TryError(read, parse).value)
  {
  }

  /** A caller of `readFile` never sees a `SyntaxError`. */
  lemma NoSyntaxErrorEscapes<V>(read: Outcome<string>, parse: string -> Outcome<V>)
    ensures ReadFile(read, parse).Fail? ==> ReadFile(read, parse).error.kind != SyntaxError
  {
  }

  /** Mapping is idempotent: an error that already went through the `catch`
      block is left alone by a second one. */
  lemma MapReadErrorIdempotent(e: JsError)
    ensures MapReadError(MapReadError(e)) == MapReadError(e)
  {
  }

  /** A file that is missing (the read throws a system error) is reported
      with the read's own error. */
  lemma MissingFileRethrown<V>(message: string, parse: string -> Outcome<V>)
    ensures ReadFile(Fail(JsError(OtherError("Error"), message)), parse) ==
      Fail(JsError(OtherError("Error"), message))
  {
  }
}
