/**
 * The Worker's request handler: it builds the payload record from the parsed
 * body, runs the four checks in order, shapes and issues one outbound call, and
 * maps what happened to an HTTP status and a `{status, message}` envelope.
 *
 * JSON parsing, the `new URL` parser and the HTTP client are outside the model:
 * the body arrives parsed, URL validity is the parameter `isUrl`, and the
 * outcome of the outbound call is the input `outcome`.
 */
module Handler {
  import opened Wrappers
  import opened Js
  import opened Telegram

  /** The parsed request body; `None` stands for a missing key or JSON `null`. */
  datatype Body = Body(
    apiKey: Option<string>,
    chatId: Option<string>,
    text: Option<string>,
    image: Option<string>,
    file: Option<string>)

  /** The four validation messages, in the order their checks run. */
  const ApiKeyRequired := "Telegram Bot `api_key` is required"
  const ChatIdRequired := "Telegram Bot `chat_id` is required"
  const ImageMustBeUrl := "`image` must be URL"
  const PayloadMissing := "Payload is missing"

  const ErrorWord := "error"
  const SuccessWord := "success"
  const Done := "done"

  /**
   * The payload record: `type` by precedence file, then image, then text, using
   * JavaScript truthiness; the three content fields are copied (`x ?? null`).
   */
  function Classify(body: Body): (p: Payload)
    ensures IsKnownKind(p.kind)
    ensures p.text == body.text && p.image == body.image && p.file == body.file
  {
    var kind := if Present(body.file) then FileKind
                else if Present(body.image) then ImageKind
                else TextKind;
    Payload(kind, body.text, body.image, body.file)
  }

  /**
   * The "payload is missing" test exactly as written, `!text & !image && !file`:
   * a bitwise AND of two booleans, then a value-returning `&&`.  Its truth value
   * is the conjunction of the three negations.
   */
  function PayloadMissingTest(p: Payload): (v: JsValue)
    ensures Truthy(v) <==> !Present(p.text) && !Present(p.image) && !Present(p.file)
  {
    And(BitAnd(Not(OfOption(p.text)), Not(OfOption(p.image))), Not(OfOption(p.file)))
  }

  /** A payload whose type names a content field that is truthy (and, for an image, a URL). */
  predicate Dispatchable(p: Payload, isUrl: string -> bool) {
    || (p.kind == TextKind && Present(p.text))
    || (p.kind == ImageKind && Present(p.image) && isUrl(p.image.value))
    || (p.kind == FileKind && Present(p.file))
  }

  /** The result of validation: a 400 message, or what `sendMessage` is called with. */
  datatype Verdict = Reject(message: string) | Accept(payload: Payload, apiKey: string, chatId: string)

  /**
   * The checks of the handler, in source order; the first that fails decides.
   * An accepted request carries truthy credentials and a payload whose type has
   * its content.
   */
  function Validate(body: Body, isUrl: string -> bool): (v: Verdict)
    ensures v.Reject? ==> v.message in {ApiKeyRequired, ChatIdRequired, ImageMustBeUrl, PayloadMissing}
    ensures v.Accept? ==>
      && body.apiKey == Some(v.apiKey) && v.apiKey != ""
      && body.chatId == Some(v.chatId) && v.chatId != ""
      && v.payload == Classify(body)
      && Dispatchable(v.payload, isUrl)
  {
    var payload := Classify(body);
    if !Present(body.apiKey) then Reject(ApiKeyRequired)
    else if !Present(body.chatId) then Reject(ChatIdRequired)
    else if payload.image.Some? && !isUrl(payload.image.value) then Reject(ImageMustBeUrl)
    else if Truthy(PayloadMissingTest(payload)) then Reject(PayloadMissing)
    else Accept(payload, body.apiKey.value, body.chatId.value)
  }

  /** The `status` property of an envelope: a word, or the provider's numeric code. */
  datatype Status = Word(word: string) | Code(code: int)

  datatype Envelope = Envelope(status: Status, message: string)

  /** What the Worker answers: the HTTP status and the JSON envelope. */
  datatype Response = Response(httpStatus: int, envelope: Envelope)

  /** `sendResponse(payload, status)`: the HTTP status defaults to 200 when none is given. */
  function SendResponse(payload: Envelope, status: Option<int>): (r: Response)
    ensures r.envelope == payload
    ensures r.httpStatus == (if status.Some? then status.value else 200)
  {
    match status
    case Some(s) => Response(s, payload)
    case None => Response(200, payload)
  }

  /**
   * How the outbound call ended: resolved (a 2xx answer), rejected with a
   * provider response carrying a status and `data.description`, or rejected
   * with no response at all (a network failure).
   */
  datatype Outcome = Delivered | ProviderError(status: int, description: string) | NoResponse

  /** The handler either answers, or throws out of its own `catch` block. */
  datatype Handled = Reply(response: Response) | Crash

  /**
   * The `try`/`catch` around the outbound call.  Reading `e.response.status` on
   * a rejection without a response throws; that is the `Crash` result.
   */
  function MapOutcome(outcome: Outcome): (h: Handled)
    ensures h.Crash? <==> outcome.NoResponse?
    ensures outcome.Delivered? ==> h == Reply(Response(200, Envelope(Word(SuccessWord), Done)))
    ensures outcome.ProviderError? ==>
      h == Reply(Response(200, Envelope(Code(outcome.status), outcome.description)))
  {
    match outcome
    case Delivered => Reply(SendResponse(Envelope(Word(SuccessWord), Done), None))
    case ProviderError(status, description) => Reply(SendResponse(Envelope(Code(status), description), None))
    case NoResponse => Crash
  }

  /** One run of the handler: its result and the outbound requests it issued, in order. */
  datatype Run = Run(result: Handled, calls: seq<Outbound>)

  /**
   * `handleRequest` on an already parsed body.  A rejected request answers 400
   * with its message and issues no call; an accepted one issues exactly the
   * request `sendMessage` shapes, once, and answers from its outcome.
   */
  function HandleRequest(body: Body, isUrl: string -> bool, outcome: Outcome): (r: Run)
    ensures |r.calls| <= 1
    ensures r.calls == [] <==> Validate(body, isUrl).Reject?
    ensures Validate(body, isUrl).Reject? ==>
      r.result == Reply(Response(400, Envelope(Word(ErrorWord), Validate(body, isUrl).message)))
    ensures Validate(body, isUrl).Accept? ==>
      var v := Validate(body, isUrl);
      && ShapeRequest(v.payload, v.apiKey, v.chatId).Ok?
      && r.calls == [ShapeRequest(v.payload, v.apiKey, v.chatId).value]
      && r.result == MapOutcome(outcome)
    ensures r.result.Crash? <==> Validate(body, isUrl).Accept? && outcome.NoResponse?
  {
    match Validate(body, isUrl)
    case Reject(message) =>
      Run(Reply(SendResponse(Envelope(Word(ErrorWord), message), Some(400))), [])
    case Accept(payload, apiKey, chatId) =>
      match ShapeRequest(payload, apiKey, chatId)
      // The `default: throw` of `sendMessage`; its Error has no `response`.
      case Err(_) => Run(Crash, [])
      case Ok(request) => Run(MapOutcome(outcome), [request])
  }

  /** The type is `file` if `file` is truthy, else `image` if `image` is, else `text`. */
  lemma ClassifyPrecedence(body: Body)
    ensures Classify(body).kind == FileKind <==> Present(body.file)
    ensures Classify(body).kind == ImageKind <==> !Present(body.file) && Present(body.image)
    ensures Classify(body).kind == TextKind <==> !Present(body.file) && !Present(body.image)
  {
  }

  /** The text, a caption when it accompanies an image or a file, never changes the type. */
  lemma TextDoesNotDecideKind(body: Body, text: Option<string>)
    ensures Classify(body.(text := text)).kind == Classify(body).kind
  {
  }

  /**
   * The checks run in the order api_key, chat_id, image URL, payload, and each
   * message is given exactly when its check is the first to fail.  The last one
   * is stated with logical conjunction, not with the expression as written.
   */
  lemma ValidationOrder(body: Body, isUrl: string -> bool)
    ensures Validate(body, isUrl) == Reject(ApiKeyRequired) <==> !Present(body.apiKey)
    ensures Validate(body, isUrl) == Reject(ChatIdRequired) <==>
      Present(body.apiKey) && !Present(body.chatId)
    ensures Validate(body, isUrl) == Reject(ImageMustBeUrl) <==>
      Present(body.apiKey) && Present(body.chatId)
      && body.image.Some? && !isUrl(body.image.value)
    ensures Validate(body, isUrl) == Reject(PayloadMissing) <==>
      Present(body.apiKey) && Present(body.chatId)
      && (body.image.Some? ==> isUrl(body.image.value))
      && !Present(body.text) && !Present(body.image) && !Present(body.file)
    ensures Validate(body, isUrl).Accept? <==>
      Present(body.apiKey) && Present(body.chatId)
      && (body.image.Some? ==> isUrl(body.image.value))
      && (Present(body.text) || Present(body.image) || Present(body.file))
  {
  }

  /**
   * After validation the `default: throw` branch of `sendMessage` is never
   * taken, and the body sent carries the content field its type names, truthy.
   */
  lemma AcceptedRequestCarriesContent(body: Body, isUrl: string -> bool)
    requires Validate(body, isUrl).Accept?
    ensures var v := Validate(body, isUrl);
      var r := ShapeRequest(v.payload, v.apiKey, v.chatId);
      && r.Ok?
      && (v.payload.kind == TextKind ==>
            exists t :: t != "" && Lookup(r.value.data, "text") == Some(Some(t)))
      && (v.payload.kind == ImageKind ==>
            exists u :: u != "" && isUrl(u) && Lookup(r.value.data, "photo") == Some(Some(u)))
      && (v.payload.kind == FileKind ==>
            exists f :: f != "" && Lookup(r.value.data, "document") == Some(Some(f)))
  {
    var v := Validate(body, isUrl);
    var p := v.payload;
    if p.kind == TextKind {
      TextMapping(p, v.apiKey, v.chatId);
      assert Lookup(ShapeRequest(p, v.apiKey, v.chatId).value.data, "text") == Some(Some(p.text.value));
    } else if p.kind == ImageKind {
      ImageMapping(p, v.apiKey, v.chatId);
      assert Lookup(ShapeRequest(p, v.apiKey, v.chatId).value.data, "photo") == Some(Some(p.image.value));
    } else {
      FileMapping(p, v.apiKey, v.chatId);
      assert Lookup(ShapeRequest(p, v.apiKey, v.chatId).value.data, "document") == Some(Some(p.file.value));
    }
  }

  /**
   * The single call of an accepted request uses the method of the payload's
   * type, and its URL string splits back into the body's `api_key` and that method.
   */
  lemma AcceptedRequestAddressed(body: Body, isUrl: string -> bool, outcome: Outcome)
    requires Validate(body, isUrl).Accept?
    ensures var r := HandleRequest(body, isUrl, outcome);
      && |r.calls| == 1
      && r.calls[0].endpoint == (if Present(body.file) then SendDocument
                                 else if Present(body.image) then SendPhoto
                                 else SendMessage)
      && ParseApiUrl(r.calls[0].url) == Some((body.apiKey.value, r.calls[0].endpoint))
  {
    var v := Validate(body, isUrl);
    ShapedUrlIdentifiesCall(v.payload, v.apiKey, v.chatId);
    if v.payload.kind == TextKind {
      TextMapping(v.payload, v.apiKey, v.chatId);
    } else if v.payload.kind == ImageKind {
      ImageMapping(v.payload, v.apiKey, v.chatId);
    } else {
      FileMapping(v.payload, v.apiKey, v.chatId);
    }
  }

  /** A body missing both credentials is refused for `api_key`, with no outbound call. */
  lemma ExampleMissingBoth(isUrl: string -> bool, outcome: Outcome)
    ensures HandleRequest(Body(None, None, Some("hi"), None, None), isUrl, outcome)
      == Run(Reply(Response(400, Envelope(Word("error"), "Telegram Bot `api_key` is required"))), [])
  {
  }

  /** An empty-string image is not null, so a failing URL test rejects it before the payload check. */
  lemma ExampleEmptyImage(isUrl: string -> bool, outcome: Outcome)
    requires !isUrl("")
    ensures HandleRequest(Body(Some("k"), Some("c"), None, Some(""), None), isUrl, outcome)
      == Run(Reply(Response(400, Envelope(Word("error"), "`image` must be URL"))), [])
  {
  }

  /** Credentials and nothing else: "Payload is missing". */
  lemma ExampleNoContent(isUrl: string -> bool, outcome: Outcome)
    ensures HandleRequest(Body(Some("k"), Some("c"), None, None, None), isUrl, outcome)
      == Run(Reply(Response(400, Envelope(Word("error"), "Payload is missing"))), [])
  {
  }

  /** A text message goes to `sendMessage` and a delivered call answers 200 "done". */
  lemma ExampleText(isUrl: string -> bool)
    ensures HandleRequest(Body(Some("k"), Some("c"), Some("hello"), None, None), isUrl, Delivered)
      == Run(Reply(Response(200, Envelope(Word("success"), "done"))),
             [Outbound("sendMessage", "https://api.telegram.org/botk/sendMessage",
                       [Field("chat_id", Some("c")), Field("text", Some("hello"))])])
  {
    var body := Body(Some("k"), Some("c"), Some("hello"), None, None);
    var payload := Payload(TextKind, Some("hello"), None, None);
    assert Classify(body) == payload;
    assert Validate(body, isUrl) == Accept(payload, "k", "c");
    var url := "https://api.telegram.org/botk/sendMessage";
    assert ApiUrl("k", SendMessage) == url;
    var request := Outbound(SendMessage, url, [Field("chat_id", Some("c")), Field("text", Some("hello"))]);
    assert ShapeRequest(payload, "k", "c") == Ok(request);
    assert MapOutcome(Delivered) == Reply(Response(200, Envelope(Word("success"), "done")));
  }

  /** An image with text goes to `sendPhoto` with the text as caption; a provider error is passed on with HTTP 200. */
  lemma ExampleImageWithCaption(isUrl: string -> bool)
    requires isUrl("https://example.com/a.png")
    ensures HandleRequest(Body(Some("k"), Some("c"), Some("caption"), Some("https://example.com/a.png"), None),
                          isUrl, ProviderError(400, "Bad Request: chat not found"))
      == Run(Reply(Response(200, Envelope(Code(400), "Bad Request: chat not found"))),
             [Outbound("sendPhoto", "https://api.telegram.org/botk/sendPhoto",
                       [Field("chat_id", Some("c")), Field("caption", Some("caption")),
                        Field("photo", Some("https://example.com/a.png"))])])
  {
    var image := "https://example.com/a.png";
    var body := Body(Some("k"), Some("c"), Some("caption"), Some(image), None);
    var payload := Payload(ImageKind, Some("caption"), Some(image), None);
    assert Classify(body) == payload;
    assert Validate(body, isUrl) == Accept(payload, "k", "c");
    assert ApiUrl("k", SendPhoto) == "https://api.telegram.org/botk/sendPhoto";
  }

  /** With both an image and a file, the file wins and the image is not sent. */
  lemma ExampleFileBeatsImage(isUrl: string -> bool)
    requires isUrl("https://example.com/a.png")
    ensures HandleRequest(Body(Some("k"), Some("c"), None, Some("https://example.com/a.png"), Some("f")),
                          isUrl, Delivered).calls
      == [Outbound("sendDocument", "https://api.telegram.org/botk/sendDocument",
                   [Field("chat_id", Some("c")), Field("caption", None), Field("document", Some("f"))])]
  {
    var image := "https://example.com/a.png";
    var body := Body(Some("k"), Some("c"), None, Some(image), Some("f"));
    var payload := Payload(FileKind, None, Some(image), Some("f"));
    assert Classify(body) == payload;
    assert Validate(body, isUrl) == Accept(payload, "k", "c");
    assert ApiUrl("k", SendDocument) == "https://api.telegram.org/botk/sendDocument";
  }
}
