/**
 * The development server: the request dispatch of its createServer
 * callback, the generation route with its field and key checks, the
 * upstream outcome, the pipeline, and the content-type lookup for static
 * files.
 */
module Server {
  import opened Wrappers
  import opened Strings
  import opened Cleaning
  import opened Requests
  import opened Anthropic

  const GenerateRoute := "/api/generate-website"
  const HealthRoute := "/health"
  const KeyNotConfigured := "API key not configured"

  /** MIME_TYPES. */
  const MimeTypes: map<string, string> := map[
    ".html" := "text/html",
    ".css" := "text/css",
    ".js" := "application/javascript",
    ".json" := "application/json",
    ".png" := "image/png",
    ".jpg" := "image/jpeg",
    ".svg" := "image/svg+xml",
    ".ico" := "image/x-icon"]

  const DefaultContentType := "text/plain"

  /** `MIME_TYPES[ext] || 'text/plain'`. */
  function ContentType(ext: string): (r: string)
    ensures r in MimeTypes.Values || r == DefaultContentType
  {
    if ext in MimeTypes then MimeTypes[ext] else DefaultContentType
  }

  /** What the callback does: answer directly, or read a file from disk
    * (`path` is the part joined to the server's directory). */
  datatype Outcome = Answer(response: Response) | StaticFile(path: string)

  /** The promise callAnthropic settles; this client sets no timeout. */
  function CallAnthropic(reply: Reply): (r: Result<string, string>)
    ensures r.Success? <==> Delivers(reply)
    ensures r.Success? ==> r.value != "" && r.value == reply.content.text.value
    ensures reply.Replied? && reply.status != 200 ==>
              var shown := if |reply.data| <= 200 then reply.data else reply.data[..200];
              r == Failure("Anthropic returned " + NatToString(reply.status) + ": " + shown)
  {
    match reply
    case TransportError(m) => Failure(m)
    case Replied(status, data, content) =>
      if status != 200 then
        Failure("Anthropic returned " + NatToString(status) + ": " + (if |data| <= 200 then data else data[..200]))
      else match content
        case NotJson => Failure(ParseFailure)
        case Json(None) => Failure(NoContentMessage)
        case Json(Some(text)) => if text == "" then Failure(NoContentMessage) else Success(text)
  }

  /** `const { businessName, businessDescription } = JSON.parse(body)`;
    * `None` when that throws: an empty body, a syntax error or null. */
  function Destructure(body: RequestBody): (r: Option<(Field, Field)>)
    ensures r.Some? <==> body.Text? && body.parsed.Document?
    ensures body.Text? && body.parsed.Document? ==>
              r == Some((body.parsed.businessName, body.parsed.businessDescription))
  {
    match body
    case Text(Document(name, description)) => Some((name, description))
    case _ => None
  }

  /** The 'end' handler of the generation route. */
  function Generate(keyPresent: bool, body: RequestBody, reply: Reply): (r: Response)
    ensures r.status in {200, 400, 500}
    ensures r.payload == GenerationFailed(ConversionException) <==>
              Destructure(body).Some? && FieldsPresent(Destructure(body).value.0, Destructure(body).value.1)
              && keyPresent && !FieldsPrintable(Destructure(body).value.0, Destructure(body).value.1)
    ensures r.status == 200 ==> r.payload.Page? && StartsWithDoctype(r.payload.html)
  {
    match Destructure(body)
    case None => Response(500, GenerationFailed(BodyException))
    case Some((name, description)) =>
      if !FieldsPresent(name, description) then Response(400, ErrorMessage(MissingFields))
      else if !keyPresent then Response(500, ErrorMessage(KeyNotConfigured))
      else if !FieldsPrintable(name, description) then Response(500, GenerationFailed(ConversionException))
      else match CallAnthropic(reply)
        case Failure(m) => Response(500, GenerationFailed(Thrown(m)))
        case Success(text) => Response(200, Page(Normalize(text)))
  }

  /** The createServer callback, for a request whose outcome does not hang
    * on the upstream call. */
  function Handle(httpMethod: string, url: string, keyPresent: bool, body: RequestBody, reply: Reply): (o: Outcome)
    ensures o.StaticFile? <==> httpMethod != "OPTIONS" && url != HealthRoute
                                && !(url == GenerateRoute && httpMethod == "POST")
    ensures o.StaticFile? ==> o.path == (if url == "/" then "index.html" else url)
  {
    if httpMethod == "OPTIONS" then Answer(Response(200, NoContent))
    else if url == GenerateRoute && httpMethod == "POST" then Answer(Generate(keyPresent, body, reply))
    else if url == HealthRoute then Answer(Response(200, HealthOk))
    else StaticFile(if url == "/" then "index.html" else url)
  }

  /** The generation route gets as far as the upstream call. */
  predicate ReachesUpstream(keyPresent: bool, body: RequestBody)
    ensures ReachesUpstream(keyPresent, body) ==>
              forall reply :: Generate(keyPresent, body, reply).status == 200 <==> Delivers(reply)
    ensures !ReachesUpstream(keyPresent, body) ==>
              forall reply :: Generate(keyPresent, body, reply).status != 200
  {
    Destructure(body).Some? && FieldsPresent(Destructure(body).value.0, Destructure(body).value.1)
    && keyPresent && FieldsPrintable(Destructure(body).value.0, Destructure(body).value.1)
  }

  // ----- Dispatch -----

  /** A preflight request gets 200 and an empty body, whatever its URL. */
  lemma OptionsAnyUrl(url: string, keyPresent: bool, body: RequestBody, reply: Reply)
    ensures Handle("OPTIONS", url, keyPresent, body, reply) == Answer(Response(200, NoContent))
  {
  }

  /** The health route answers every method but OPTIONS. */
  lemma HealthAnyMethod(httpMethod: string, keyPresent: bool, body: RequestBody, reply: Reply)
    requires httpMethod != "OPTIONS"
    ensures Handle(httpMethod, HealthRoute, keyPresent, body, reply) == Answer(Response(200, HealthOk))
  {
  }

  /** Only a POST reaches the generation route; any other method is served
    * from disk under that name. */
  lemma GenerateRouteNeedsPost(httpMethod: string, keyPresent: bool, body: RequestBody, reply: Reply)
    requires httpMethod != "OPTIONS" && httpMethod != "POST"
    ensures Handle(httpMethod, GenerateRoute, keyPresent, body, reply) == StaticFile(GenerateRoute)
  {
  }

  // ----- The generation route -----

  /** A missing or falsy field is refused with 400 before the key is looked
    * at, and without the upstream call. */
  lemma FieldsCheckedFirst(keyPresent: bool, name: Field, description: Field, r1: Reply, r2: Reply)
    requires !FieldsPresent(name, description)
    ensures Handle("POST", GenerateRoute, keyPresent, Text(Document(name, description)), r1)
              == Answer(Response(400, ErrorMessage(MissingFields)))
    ensures Handle("POST", GenerateRoute, keyPresent, Text(Document(name, description)), r1)
              == Handle("POST", GenerateRoute, keyPresent, Text(Document(name, description)), r2)
  {
  }

  /** A missing key is reported only once both fields are present. */
  lemma KeyCheckedAfterFields(name: Field, description: Field, reply: Reply)
    requires FieldsPresent(name, description)
    ensures Handle("POST", GenerateRoute, false, Text(Document(name, description)), reply)
              == Answer(Response(500, ErrorMessage(KeyNotConfigured)))
  {
  }

  /** An empty, unparseable or null body is an exception in the handler,
    * answered with 500 'Generation failed'. */
  lemma BodyExceptions(keyPresent: bool, body: RequestBody, reply: Reply)
    requires !(body.Text? && body.parsed.Document?)
    ensures Generate(keyPresent, body, reply) == Response(500, GenerationFailed(BodyException))
  {
  }

  /** Present fields that cannot be interpolated into the prompt make the
    * prompt's construction throw inside the handler's `try`, answered with
    * 500 'Generation failed' before the upstream call. */
  lemma UnprintableFieldFails(name: Field, description: Field, reply: Reply)
    requires FieldsPresent(name, description) && !FieldsPrintable(name, description)
    ensures Generate(true, Text(Document(name, description)), reply)
              == Response(500, GenerationFailed(ConversionException))
  {
  }

  /** A request that stops before the upstream call is answered the same
    * whatever the upstream would have returned. */
  lemma NoUpstreamCallBeforeValidation(keyPresent: bool, body: RequestBody, r1: Reply, r2: Reply)
    requires !ReachesUpstream(keyPresent, body)
    ensures Generate(keyPresent, body, r1) == Generate(keyPresent, body, r2)
    ensures Generate(keyPresent, body, r1).status != 200
  {
  }

  /** An upstream failure is answered with 500 and its message. */
  lemma UpstreamFailures(keyPresent: bool, body: RequestBody, reply: Reply)
    requires ReachesUpstream(keyPresent, body) && !Delivers(reply)
    ensures Generate(keyPresent, body, reply) == Response(500, GenerationFailed(Thrown(CallAnthropic(reply).error)))
  {
  }

  /** There is no marker check: every delivered text is served with 200, as
    * the pipeline's output. */
  lemma EveryTextServed(keyPresent: bool, body: RequestBody, reply: Reply)
    requires ReachesUpstream(keyPresent, body) && Delivers(reply)
    ensures Generate(keyPresent, body, reply) == Response(200, Page(Normalize(reply.content.text.value)))
  {
  }

  /** The served page starts with a DOCTYPE; one the model already started
    * with one, and which does not end with a fence, is only trimmed. */
  lemma ServedPage(keyPresent: bool, body: RequestBody, reply: Reply)
    requires ReachesUpstream(keyPresent, body) && Delivers(reply)
    ensures StartsWithDoctype(Generate(keyPresent, body, reply).payload.html)
    ensures var t := Trim(reply.content.text.value);
            StartsWithDoctype(t) && !EndsWith(t, Fence) ==> Generate(keyPresent, body, reply).payload.html == t
  {
    var text := reply.content.text.value;
    if StartsWithDoctype(Trim(text)) && !EndsWith(Trim(text), Fence) {
      NormalizeDoctypeTrimmedOnly(text);
    }
  }

  // ----- Content types -----

  /** Each listed extension has its own type, and only an unlisted one is
    * served as text/plain. */
  lemma ContentTypes(ext: string)
    ensures ContentType(ext) == DefaultContentType <==> ext !in MimeTypes
    ensures ContentType(".html") == "text/html" && ContentType(".css") == "text/css"
    ensures ContentType(".js") == "application/javascript" && ContentType(".json") == "application/json"
    ensures ContentType(".png") == "image/png" && ContentType(".jpg") == "image/jpeg"
    ensures ContentType(".svg") == "image/svg+xml" && ContentType(".ico") == "image/x-icon"
    ensures ContentType("") == DefaultContentType && ContentType(".jpeg") == DefaultContentType
  {
    assert DefaultContentType !in MimeTypes.Values;
  }

  /** Distinct listed extensions have distinct types. */
  lemma ContentTypesDistinct(e1: string, e2: string)
    requires e1 in MimeTypes && e2 in MimeTypes && e1 != e2
    ensures ContentType(e1) != ContentType(e2)
  {
  }
}
