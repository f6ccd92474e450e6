/**
 * The shapes of what the generation handlers read and write: the two fields
 * of the JSON request body, as JavaScript sees them, and the response records.
 */
module Requests {

  /** The value of one property of the parsed body. `Composite` is an object
    * or an array; it is `printable` unless converting it to a string throws
    * (a string conversion tries `toString` first; an object with its own
    * `toString` property has none that is callable, and the inherited
    * `valueOf` returns the object itself; an array throws when it holds such
    * an object, through arrays, at any depth). */
  datatype Field = Missing | Null | Boolean(b: bool) | Number(n: real) | Str(s: string) | Composite(printable: bool)

  /** JavaScript truthiness, the test behind `!businessName`: the falsy
    * values that JSON can produce are undefined, null, false, 0 and "". */
  predicate Truthy(f: Field)
    ensures !Truthy(f) <==> f == Missing || f == Null || f == Boolean(false) || f == Number(0.0) || f == Str("")
    ensures f.Composite? ==> Truthy(f)
  {
    match f
    case Missing => false
    case Null => false
    case Boolean(b) => b
    case Number(n) => n != 0.0
    case Str(s) => s != ""
    case Composite(_) => true
  }

  /** The field's value can be interpolated into a template literal; only a
    * composite without a callable conversion makes that throw a TypeError. */
  predicate Printable(f: Field)
    ensures !Printable(f) <==> f == Composite(false)
  {
    !(f.Composite? && !f.printable)
  }

  /** Both fields can be interpolated into the prompt. */
  predicate FieldsPrintable(name: Field, description: Field) {
    Printable(name) && Printable(description)
  }

  /** The outcome of JSON.parse on a non-empty body. A `Document` is any
    * parsed value other than null; one that is not an object, or lacks a
    * property, has that field `Missing`. */
  datatype Parsed = SyntaxError | NullDocument | Document(businessName: Field, businessDescription: Field)

  /** The request body: absent or empty, or some text and what it parses to. */
  datatype RequestBody = NoBody | Text(parsed: Parsed)

  /** The values `!x` judges false. */
  const FalsyValues: set<Field> := {Missing, Null, Boolean(false), Number(0.0), Str("")}

  /** Both required fields are present and truthy: the check fails exactly
    * when either field is one of the falsy values. */
  predicate FieldsPresent(name: Field, description: Field)
    ensures !FieldsPresent(name, description) <==> name in FalsyValues || description in FalsyValues
  {
    Truthy(name) && Truthy(description)
  }

  /** What an exception carries into a 'Generation failed' response: a known
    * message, the engine's own message for an exception the JSON parse or
    * the destructuring of its result threw, or the engine's message for the
    * TypeError that interpolating a field into the prompt threw. */
  datatype Reason = Thrown(message: string) | BodyException | ConversionException

  /** The JSON written as the response body. */
  datatype Payload =
    | NoContent                    // an empty body
    | ErrorMessage(error: string)  // { error }
    | GenerationFailed(reason: Reason)  // { error: 'Generation failed', message }
    | Page(html: string)           // { html }
    | HealthOk                     // { ok: true, timestamp }

  datatype Response = Response(status: nat, payload: Payload)

  const MissingFields := "Missing businessName or businessDescription"
}

/**
 * What the messages API of the language-model provider returns to one
 * HTTPS request. The request itself is network I/O and is not modelled: a
 * handler receives its outcome as an input.
 */
module Anthropic {
  import opened Wrappers

  /** The response text, parsed: not JSON (or JSON null), or JSON whose
    * `content[0].text` is `text`. */
  datatype Content = NotJson | Json(text: Option<string>)

  /** A request either fails in transport, or completes with a status code,
    * the raw body and its parse. */
  datatype Reply = TransportError(message: string) | Replied(status: nat, data: string, content: Content)

  /** The reply that both clients resolve with: status 200 and a non-empty
    * first content text. */
  predicate Delivers(r: Reply) {
    r.Replied? && r.status == 200 && r.content.Json? && r.content.text.Some? && r.content.text.value != ""
  }

  const ParseFailure := "Failed to parse Anthropic response"
  const NoContentMessage := "No content in response"
}
