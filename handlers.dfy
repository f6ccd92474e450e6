/**
 * How the serverless handler and the development server differ on the same
 * request: the order of the key and field checks, the answer to a body that
 * is not JSON, the marker check, and a field that cannot be printed into the
 * prompt. Where both succeed they serve the same page.
 */
module Handlers {
  import opened Wrappers
  import opened Cleaning
  import opened Requests
  import opened Anthropic
  import GenerateWebsite
  import Server

  /** The upstream reply that delivers `text`. */
  function Delivering(text: string, data: string): (r: Reply)
    requires text != ""
    ensures Delivers(r) && r.content.text.value == text
  {
    Replied(200, data, Json(Some(text)))
  }

  /** Without a key and with a field missing, the serverless handler reports
    * the key and the server reports the fields. */
  lemma KeyAndFieldsOrder(name: Field, description: Field, x: GenerateWebsite.Exchange, reply: Reply)
    requires !FieldsPresent(name, description)
    ensures GenerateWebsite.Handle("POST", false, Text(Document(name, description)), x)
              == GenerateWebsite.Returned(Response(500, ErrorMessage(GenerateWebsite.KeyNotSet)))
    ensures Server.Handle("POST", Server.GenerateRoute, false, Text(Document(name, description)), reply)
              == Server.Answer(Response(400, ErrorMessage(MissingFields)))
  {
  }

  /** A body that does not parse, or parses to null, is a client error for
    * the serverless handler and a server error for the server. */
  lemma MalformedBody(body: RequestBody, x: GenerateWebsite.Exchange, reply: Reply)
    requires body.Text? && !body.parsed.Document?
    ensures GenerateWebsite.Handle("POST", true, body, x)
              == GenerateWebsite.Returned(Response(400, ErrorMessage(GenerateWebsite.InvalidJson)))
    ensures Server.Handle("POST", Server.GenerateRoute, true, body, reply)
              == Server.Answer(Response(500, GenerationFailed(BodyException)))
  {
  }

  /** An absent body is `{}` for the serverless handler (400, missing
    * fields) and a parse error for the server (500). */
  lemma EmptyBody(x: GenerateWebsite.Exchange, reply: Reply)
    ensures GenerateWebsite.Handle("POST", true, NoBody, x)
              == GenerateWebsite.Returned(Response(400, ErrorMessage(MissingFields)))
    ensures Server.Handle("POST", Server.GenerateRoute, true, NoBody, reply)
              == Server.Answer(Response(500, GenerationFailed(BodyException)))
  {
  }

  /** A delivered text with no HTML marker fails only on the serverless
    * handler. */
  lemma MarkerCheckOnlyServerless(name: Field, description: Field, text: string, data: string)
    requires FieldsPresent(name, description) && FieldsPrintable(name, description) && text != ""
    requires !HasMarker(Clean(text))
    ensures GenerateWebsite.Handle("POST", true, Text(Document(name, description)), GenerateWebsite.Completed(Delivering(text, data)))
              == GenerateWebsite.Returned(Response(500, GenerationFailed(Thrown(GenerateWebsite.NotHtml))))
    ensures Server.Handle("POST", Server.GenerateRoute, true, Text(Document(name, description)), Delivering(text, data))
              == Server.Answer(Response(200, Page(Normalize(text))))
  {
    var r := Delivering(text, data);
    var x := GenerateWebsite.Completed(r);
    var body := Text(Document(name, description));
    assert GenerateWebsite.Handle("POST", true, body, x)
           == GenerateWebsite.Returned(Response(500, GenerationFailed(Thrown(GenerateWebsite.NotHtml)))) by {
      assert GenerateWebsite.CallAnthropic(x) == Success(text);
      assert GenerateWebsite.ReadFields(body) == Some((name, description));
      assert GenerateWebsite.ReachesUpstream("POST", true, body);
      GenerateWebsite.MarkerRequired("POST", true, body, x);
    }
    assert Server.Handle("POST", Server.GenerateRoute, true, body, r) == Server.Answer(Response(200, Page(Normalize(text)))) by {
      assert Server.Destructure(body) == Some((name, description));
      assert Server.ReachesUpstream(true, body);
      Server.EveryTextServed(true, body, r);
      assert Server.Handle("POST", Server.GenerateRoute, true, body, r) == Server.Answer(Server.Generate(true, body, r));
    }
  }

  /** When both succeed on the same text they serve the same page. */
  lemma SamePage(name: Field, description: Field, text: string, data: string)
    requires FieldsPresent(name, description) && FieldsPrintable(name, description) && text != ""
    requires HasMarker(Clean(text))
    ensures GenerateWebsite.Handle("POST", true, Text(Document(name, description)), GenerateWebsite.Completed(Delivering(text, data)))
              == GenerateWebsite.Returned(Response(200, Page(Normalize(text))))
    ensures Server.Handle("POST", Server.GenerateRoute, true, Text(Document(name, description)), Delivering(text, data))
              == Server.Answer(Response(200, Page(Normalize(text))))
  {
    var r := Delivering(text, data);
    var x := GenerateWebsite.Completed(r);
    var body := Text(Document(name, description));
    assert GenerateWebsite.Handle("POST", true, body, x) == GenerateWebsite.Returned(Response(200, Page(Normalize(text)))) by {
      assert GenerateWebsite.CallAnthropic(x) == Success(text);
      assert GenerateWebsite.ReadFields(body) == Some((name, description));
      assert GenerateWebsite.ReachesUpstream("POST", true, body);
      GenerateWebsite.PageServed("POST", true, body, x);
    }
    assert Server.Handle("POST", Server.GenerateRoute, true, body, r) == Server.Answer(Response(200, Page(Normalize(text)))) by {
      assert Server.Destructure(body) == Some((name, description));
      assert Server.ReachesUpstream(true, body);
      Server.EveryTextServed(true, body, r);
      assert Server.Handle("POST", Server.GenerateRoute, true, body, r) == Server.Answer(Server.Generate(true, body, r));
    }
  }

  /** Present fields that cannot be interpolated into the prompt reject the
    * serverless handler, leaving the answer to the platform, while the server
    * answers 500 'Generation failed'; neither calls the upstream. */
  lemma UnprintableField(name: Field, description: Field, x: GenerateWebsite.Exchange, reply: Reply)
    requires FieldsPresent(name, description) && !FieldsPrintable(name, description)
    ensures GenerateWebsite.Handle("POST", true, Text(Document(name, description)), x) == GenerateWebsite.Rejected
    ensures Server.Handle("POST", Server.GenerateRoute, true, Text(Document(name, description)), reply)
              == Server.Answer(Response(500, GenerationFailed(ConversionException)))
  {
  }
}
