/**
 * The serverless generation handler: method checks, the API-key check, the
 * body parse and field checks, the upstream call, the pipeline and the HTML
 * marker check, as one function from the request and the upstream outcome
 * to the response.
 */
module GenerateWebsite {
  import opened Wrappers
  import opened Strings
  import opened Cleaning
  import opened Requests
  import opened Anthropic

  /** This client sets a 55-second socket timeout on the request. */
  datatype Exchange = TimedOut | Completed(reply: Reply)

  const MethodNotAllowed := "Method not allowed"
  const KeyNotSet := "ANTHROPIC_API_KEY not set"
  const InvalidJson := "Invalid JSON body"
  const NotHtml := "Response does not appear to be valid HTML"
  const TimeoutMessage := "Anthropic request timed out"

  /** The promise callAnthropic settles: the text, or the rejection's message. */
  function CallAnthropic(x: Exchange): (r: Result<string, string>)
    ensures r.Success? <==> x.Completed? && Delivers(x.reply)
    ensures r.Success? ==> r.value != "" && r.value == x.reply.content.text.value
    ensures x.TimedOut? ==> r == Failure(TimeoutMessage)
    ensures x.Completed? && x.reply.Replied? && x.reply.status != 200 ==>
              r == Failure("Anthropic returned " + NatToString(x.reply.status))
  {
    match x
    case TimedOut => Failure(TimeoutMessage)
    case Completed(TransportError(m)) => Failure(m)
    case Completed(Replied(status, _, content)) =>
      if status != 200 then Failure("Anthropic returned " + NatToString(status))
      else match content
        case NotJson => Failure(ParseFailure)
        case Json(None) => Failure(NoContentMessage)
        case Json(Some(text)) => if text == "" then Failure(NoContentMessage) else Success(text)
  }

  /** `JSON.parse(event.body || '{}')` and the two property reads; `None`
    * when that throws (a syntax error, or reading a property of null). */
  function ReadFields(body: RequestBody): (r: Option<(Field, Field)>)
    ensures body.NoBody? ==> r == Some((Missing, Missing))
    ensures r.None? <==> body.Text? && !body.parsed.Document?
    ensures body.Text? && body.parsed.Document? ==>
              r == Some((body.parsed.businessName, body.parsed.businessDescription))
  {
    match body
    case NoBody => Some((Missing, Missing))
    case Text(Document(name, description)) => Some((name, description))
    case Text(_) => None
  }

  /** What the platform gets from the handler: the record it returns, or a
    * rejected promise. The handler is rejected when interpolating a field
    * into the prompt throws, which happens outside both of its `try`
    * blocks; the platform's own answer to that is not modelled. */
  datatype Outcome = Returned(response: Response) | Rejected

  /** The request gets as far as the upstream call. */
  predicate ReachesUpstream(httpMethod: string, keyPresent: bool, body: RequestBody)
    ensures ReachesUpstream(httpMethod, keyPresent, body) ==>
              forall x :: Handle(httpMethod, keyPresent, body, x) == Returned(Respond(x))
    ensures ReachesUpstream(httpMethod, keyPresent, body) <==>
              Handle(httpMethod, keyPresent, body, TimedOut) == Returned(Respond(TimedOut))
  {
    httpMethod == "POST" && keyPresent
    && ReadFields(body).Some? && FieldsPresent(ReadFields(body).value.0, ReadFields(body).value.1)
    && FieldsPrintable(ReadFields(body).value.0, ReadFields(body).value.1)
  }

  /** The part of the handler after the upstream call. */
  function Respond(x: Exchange): (r: Response)
    ensures r.status == 200 || r.status == 500
    ensures r.status == 200 <==> CallAnthropic(x).Success? && HasMarker(Clean(CallAnthropic(x).value))
    ensures r.status == 200 ==> r.payload == Page(Normalize(CallAnthropic(x).value))
    ensures r.status == 200 ==> StartsWithDoctype(r.payload.html) && HasMarker(r.payload.html)
    ensures r.status == 500 ==> r.payload.GenerationFailed? && r.payload.reason.Thrown?
  {
    match CallAnthropic(x)
    case Failure(m) => Response(500, GenerationFailed(Thrown(m)))
    case Success(text) =>
      var clean := Clean(text);
      if !HasMarker(clean) then Response(500, GenerationFailed(Thrown(NotHtml)))
      else
        Response(200, Page(EnsureDoctype(clean)))
  }

  /**
   * exports.handler. `keyPresent` says whether ANTHROPIC_API_KEY is set to a
   * non-empty value; `x` is what the upstream request would settle with.
   */
  function Handle(httpMethod: string, keyPresent: bool, body: RequestBody, x: Exchange): (r: Outcome)
    ensures r.Rejected? <==>
              httpMethod == "POST" && keyPresent && ReadFields(body).Some?
              && FieldsPresent(ReadFields(body).value.0, ReadFields(body).value.1)
              && !FieldsPrintable(ReadFields(body).value.0, ReadFields(body).value.1)
    ensures r.Returned? ==> r.response.status in {200, 400, 405, 500}
    ensures r.Returned? && r.response.status == 200 ==>
              (httpMethod == "OPTIONS" && r.response.payload == NoContent)
              || (r.response.payload.Page? && StartsWithDoctype(r.response.payload.html)
                  && HasMarker(r.response.payload.html))
  {
    if httpMethod == "OPTIONS" then Returned(Response(200, NoContent))
    else if httpMethod != "POST" then Returned(Response(405, ErrorMessage(MethodNotAllowed)))
    else if !keyPresent then Returned(Response(500, ErrorMessage(KeyNotSet)))
    else match ReadFields(body)
      case None => Returned(Response(400, ErrorMessage(InvalidJson)))
      case Some((name, description)) =>
        if !FieldsPresent(name, description) then Returned(Response(400, ErrorMessage(MissingFields)))
        else if !FieldsPrintable(name, description) then Rejected
        else Returned(Respond(x))
  }

  // ----- The order of the checks -----

  /** A preflight request succeeds with an empty body before any other check. */
  lemma OptionsFirst(keyPresent: bool, body: RequestBody, x: Exchange)
    ensures Handle("OPTIONS", keyPresent, body, x) == Returned(Response(200, NoContent))
  {
  }

  /** Any other method than OPTIONS or POST is refused with 405. */
  lemma OtherMethodsRefused(httpMethod: string, keyPresent: bool, body: RequestBody, x: Exchange)
    requires httpMethod != "OPTIONS" && httpMethod != "POST"
    ensures Handle(httpMethod, keyPresent, body, x) == Returned(Response(405, ErrorMessage(MethodNotAllowed)))
  {
  }

  /** A missing key is reported before the body is looked at, so even a
    * malformed body gets 500. */
  lemma KeyCheckedBeforeBody(body: RequestBody, x: Exchange)
    ensures Handle("POST", false, body, x) == Returned(Response(500, ErrorMessage(KeyNotSet)))
  {
  }

  /** With the key set, a body that does not parse (or parses to null) gets
    * 400 'Invalid JSON body', and one lacking a truthy field gets 400
    * 'Missing ...'; an absent body counts as `{}`. */
  lemma BodyErrors(body: RequestBody, x: Exchange)
    ensures body.Text? && !body.parsed.Document? ==>
              Handle("POST", true, body, x) == Returned(Response(400, ErrorMessage(InvalidJson)))
    ensures body.Text? && body.parsed.Document?
            && !FieldsPresent(body.parsed.businessName, body.parsed.businessDescription) ==>
              Handle("POST", true, body, x) == Returned(Response(400, ErrorMessage(MissingFields)))
    ensures Handle("POST", true, NoBody, x) == Returned(Response(400, ErrorMessage(MissingFields)))
  {
  }

  /** A request that does not get as far as the upstream call is answered the
    * same whatever the upstream would have returned. */
  lemma NoUpstreamCallBeforeValidation(httpMethod: string, keyPresent: bool, body: RequestBody, x1: Exchange, x2: Exchange)
    requires !ReachesUpstream(httpMethod, keyPresent, body)
    ensures Handle(httpMethod, keyPresent, body, x1) == Handle(httpMethod, keyPresent, body, x2)
    ensures Handle(httpMethod, keyPresent, body, x1).Returned? && Handle(httpMethod, keyPresent, body, x1).response.status == 200
            ==> httpMethod == "OPTIONS"
  {
  }

  /** Present fields that cannot be interpolated into the prompt reject the
    * handler before the upstream call, whatever that would have returned. */
  lemma UnprintableFieldRejects(name: Field, description: Field, x: Exchange)
    requires FieldsPresent(name, description) && !FieldsPrintable(name, description)
    ensures Handle("POST", true, Text(Document(name, description)), x) == Rejected
  {
  }

  // ----- After the upstream call -----

  /** A status other than 200, a missing or empty text, an unparseable reply,
    * a transport error or the timeout is answered with 500 'Generation
    * failed' and the rejection's message. */
  lemma UpstreamFailures(httpMethod: string, keyPresent: bool, body: RequestBody, x: Exchange)
    requires ReachesUpstream(httpMethod, keyPresent, body)
    requires !(x.Completed? && Delivers(x.reply))
    ensures Handle(httpMethod, keyPresent, body, x) == Returned(Response(500, GenerationFailed(Thrown(CallAnthropic(x).error))))
    ensures x.TimedOut? ==> Handle(httpMethod, keyPresent, body, x).response.payload == GenerationFailed(Thrown(TimeoutMessage))
  {
  }

  /** A cleaned text with neither marker is refused with 500. */
  lemma MarkerRequired(httpMethod: string, keyPresent: bool, body: RequestBody, x: Exchange)
    requires ReachesUpstream(httpMethod, keyPresent, body)
    requires CallAnthropic(x).Success? && !HasMarker(Clean(CallAnthropic(x).value))
    ensures Handle(httpMethod, keyPresent, body, x) == Returned(Response(500, GenerationFailed(Thrown(NotHtml))))
  {
  }

  /** A generation that passes every check is served as the pipeline's
    * output. */
  lemma PageServed(httpMethod: string, keyPresent: bool, body: RequestBody, x: Exchange)
    requires ReachesUpstream(httpMethod, keyPresent, body)
    requires CallAnthropic(x).Success? && HasMarker(Clean(CallAnthropic(x).value))
    ensures Handle(httpMethod, keyPresent, body, x) == Returned(Response(200, Page(Normalize(CallAnthropic(x).value))))
  {
    assert Handle(httpMethod, keyPresent, body, x) == Returned(Respond(x));
  }

  /** The only successes are the preflight and a generation that passed every
    * check; the page is the cleaned text, with the preamble prepended
    * exactly when it did not already start with one. */
  lemma SuccessMeans(httpMethod: string, keyPresent: bool, body: RequestBody, x: Exchange)
    requires httpMethod != "OPTIONS"
    ensures Handle(httpMethod, keyPresent, body, x).Returned? && Handle(httpMethod, keyPresent, body, x).response.status == 200
            <==>
              ReachesUpstream(httpMethod, keyPresent, body) && CallAnthropic(x).Success?
              && HasMarker(Clean(CallAnthropic(x).value))
    ensures Handle(httpMethod, keyPresent, body, x).Returned? && Handle(httpMethod, keyPresent, body, x).response.status == 200 ==>
              var clean := Clean(CallAnthropic(x).value);
              var html := Handle(httpMethod, keyPresent, body, x).response.payload.html;
              (StartsWithDoctype(clean) ==> html == clean)
              && (!StartsWithDoctype(clean) ==> html == Doctype + clean)
  {
    if ReachesUpstream(httpMethod, keyPresent, body) {
      assert Handle(httpMethod, keyPresent, body, x) == Returned(Respond(x));
    }
  }

  /** A fenced page from the model is served without its fences. */
  lemma FencedAnswerServed(body: RequestBody, text: string, w1: string, w2: string, doc: string, w3: string, w4: string, data: string)
    requires ReachesUpstream("POST", true, body)
    requires AllSpace(w1) && AllSpace(w2) && AllSpace(w3) && AllSpace(w4)
    requires |doc| > 0 && doc[0] == '<' && !IsSpace(doc[|doc| - 1])
    requires HasMarker(doc)
    requires text == w1 + HtmlFence + w2 + doc + w3 + Fence + w4
    ensures Handle("POST", true, body, Completed(Replied(200, data, Json(Some(text)))))
              == Returned(Response(200, Page(EnsureDoctype(doc))))
  {
    var x := Completed(Replied(200, data, Json(Some(text))));
    assert text != "" by {
      assert |text| >= |HtmlFence|;
    }
    assert CallAnthropic(x) == Success(text);
    CleanFenced(w1, HtmlFence, w2, doc, w3, w4);
    assert Respond(x) == Response(200, Page(EnsureDoctype(doc)));
    assert Handle("POST", true, body, x) == Returned(Respond(x));
  }
}
