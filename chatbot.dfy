/** The `/chatbot` endpoint: a keyword responder over the message text and
    the handler that extracts the message from the JSON request body. */
module Chatbot {
  import opened Wrappers
  import opened Text

  const Hello := "hello"
  const HowAreYou := "how are you"

  const GreetingReply := "Hi there!"
  const WellbeingReply := "I'm doing well, thank you!"
  const DefaultReply := "I didn't understand that."

  /** The canned reply for a message: the first pattern found in the
      lower-cased message decides, "hello" before "how are you". */
  function Reply(message: string): (r: string)
    ensures r == GreetingReply || r == WellbeingReply || r == DefaultReply
  {
    if Contains(Lower(message), Hello) then GreetingReply
    else if Contains(Lower(message), HowAreYou) then WellbeingReply
    else DefaultReply
  }

  /** The greeting is given exactly when "hello" occurs in the lower-cased
      message, whatever else it contains. */
  lemma ReplyGreeting(message: string)
    ensures Reply(message) == GreetingReply <==> Occurs(Lower(message), Hello)
  {
    ContainsIff(Lower(message), Hello);
  }

  /** The well-being reply is given exactly when "how are you" occurs and
      "hello" does not. */
  lemma ReplyWellbeing(message: string)
    ensures Reply(message) == WellbeingReply <==>
            !Occurs(Lower(message), Hello) && Occurs(Lower(message), HowAreYou)
  {
    ContainsIff(Lower(message), Hello);
    ContainsIff(Lower(message), HowAreYou);
  }

  /** The default reply is given exactly when neither pattern occurs. */
  lemma ReplyDefault(message: string)
    ensures Reply(message) == DefaultReply <==>
            !Occurs(Lower(message), Hello) && !Occurs(Lower(message), HowAreYou)
  {
    ContainsIff(Lower(message), Hello);
    ContainsIff(Lower(message), HowAreYou);
  }

  /** Matching ignores case: messages with the same lower-case form get the
      same reply, and a message gets the reply of its own lower-case form. */
  lemma ReplyIgnoresCase(a: string, b: string)
    requires Lower(a) == Lower(b)
    ensures Reply(a) == Reply(b)
    ensures Reply(Lower(a)) == Reply(a)
  {
    LowerIdempotent(a);
  }

  /** A JSON value as Flask parses it. */
  datatype Json =
    | JString(text: string)
    | JObject(fields: map<string, Json>)
    | JArray(items: seq<Json>)
    | JScalar   // a number, true, false or null: never looked into

  /** A POST to `/chatbot`: its body, or None when Flask cannot read the
      body as JSON (wrong content type or a parse error). */
  datatype Request = Request(body: Option<Json>)

  /** Why the handler failed; each is an exception Python raises and the
      handler catches. */
  datatype Failure =
    | NotJson          // `request.json` itself raises
    | NotAnObject      // subscripting a non-object raises TypeError
    | MissingMessage   // KeyError: 'message'
    | MessageNotText   // `.lower()` on a non-string raises AttributeError

  /** `{"response": reply}` with status 200, or `{"error": ...}` with 500. */
  datatype Response = Answer(reply: string) | Error(failure: Failure)

  /** Flask's default 200 for a returned payload, the explicit 500 for an error. */
  function StatusCode(r: Response): (code: int)
    ensures code == 200 || code == 500
    ensures code == 500 <==> r.Error?
  {
    if r.Answer? then 200 else 500
  }

  /** The body carries a string under the key "message". */
  predicate HasTextMessage(req: Request) {
    req.body.Some? && req.body.value.JObject? &&
    "message" in req.body.value.fields && req.body.value.fields["message"].JString?
  }

  /** The request handler: extract `body["message"]`, then reply to it. It
      answers exactly the requests that carry a text message, with the
      responder's reply to that text; every other request gets an error
      payload with status 500. */
  function Handle(req: Request): (r: Response)
    ensures r.Answer? <==> HasTextMessage(req)
    ensures HasTextMessage(req) ==> r == Answer(Reply(req.body.value.fields["message"].text))
    ensures StatusCode(r) == (if HasTextMessage(req) then 200 else 500)
  {
    match req.body
    case None => Error(NotJson)
    case Some(JObject(fields)) =>
      if "message" !in fields then Error(MissingMessage)
      else if fields["message"].JString? then Answer(Reply(fields["message"].text))
      else Error(MessageNotText)
    case Some(_) => Error(NotAnObject)
  }

  /** A JSON object without the "message" key gets the KeyError payload with
      status 500, never a reply. */
  lemma MissingMessageIsError(fields: map<string, Json>)
    requires "message" !in fields
    ensures Handle(Request(Some(JObject(fields)))) == Error(MissingMessage)
    ensures StatusCode(Handle(Request(Some(JObject(fields))))) == 500
  {
  }

  /** The body `{"message": text}`. */
  function MessageRequest(text: string): (req: Request)
    ensures HasTextMessage(req) && req.body.value.fields["message"].text == text
  {
    Request(Some(JObject(map["message" := JString(text)])))
  }

  /** A well-formed request is answered with the reply to its text. */
  lemma HandleMessageRequest(text: string)
    ensures Handle(MessageRequest(text)) == Answer(Reply(text))
  {
  }

  /** Sample messages and their replies; by HandleMessageRequest these are
      the `{"response": ...}` bodies the endpoint returns for them. */
  lemma ExampleHello()
    ensures Reply("Hello there") == GreetingReply
  {
    var l := Lower("Hello there");
    assert l == "hello there";
    assert StartsWith(l, Hello);
  }

  lemma ExampleHowAreYou()
    ensures Reply("how ARE you today") == WellbeingReply
  {
    var l := Lower("how ARE you today");
    assert l == "how are you today";
    assert StartsWith(l, HowAreYou);
    forall i ensures !OccursAt(l, Hello, i) {
      if 0 <= i && i + 5 <= |l| {
        assert l[i..i + 5][0] == l[i] && l[i..i + 5][1] == l[i + 1];
      }
    }
    ContainsIff(l, Hello);
  }

  lemma ExampleUnknown()
    ensures Reply("xyz") == DefaultReply
  {
    var l := Lower("xyz");
    ContainsIff(l, Hello);
    ContainsIff(l, HowAreYou);
  }
}
