/**
 * The outbound side of the bridge: the message payload the handler builds and
 * `sendMessage`'s mapping of it to a Telegram Bot API method, a JSON body and a
 * request URL.  The HTTP call itself is not modelled; its outcome is an input of
 * the handler (module Handler).
 */
module Telegram {
  import opened Wrappers
  import opened Js

  /** The three payload types, as the strings the handler stores in `type`. */
  const TextKind := "text"
  const ImageKind := "image"
  const FileKind := "file"

  /** The Bot API methods used for each type. */
  const SendMessage := "sendMessage"
  const SendPhoto := "sendPhoto"
  const SendDocument := "sendDocument"

  /** The message thrown by the `default` branch of the switch. */
  const InvalidMessageType := "invalid message type"

  /** Everything of a request URL that precedes the bot token. */
  const ApiBase := "https://api.telegram.org/bot"

  /** The payload record built from the request body; `kind` is its `type` property. */
  datatype Payload = Payload(kind: string, text: Option<string>, image: Option<string>, file: Option<string>)

  /** One property of the outbound JSON body; `None` is serialised as `null`. */
  datatype Field = Field(name: string, value: Option<string>)

  /** The outbound POST: Bot API method, target URL and JSON body in property order. */
  datatype Outbound = Outbound(endpoint: string, url: string, data: seq<Field>)

  predicate IsKnownKind(kind: string) {
    kind == TextKind || kind == ImageKind || kind == FileKind
  }

  /** The property names of a JSON body, in order. */
  function Names(data: seq<Field>): (r: seq<string>)
    ensures |r| == |data|
    ensures forall i :: 0 <= i < |data| ==> r[i] == data[i].name
  {
    if data == [] then [] else [data[0].name] + Names(data[1..])
  }

  /** The value of the first property called `name`, if the body has one. */
  function Lookup(data: seq<Field>, name: string): (r: Option<Option<string>>)
    ensures r.None? <==> name !in Names(data)
    ensures r.Some? ==> exists i :: 0 <= i < |data| && data[i] == Field(name, r.value) && name !in Names(data[..i])
  {
    if data == [] then None
    else if data[0].name == name then
      assert data[..0] == [];
      Some(data[0].value)
    else
      var r := Lookup(data[1..], name);
      if r.None? then r
      else
        var i :| 0 <= i < |data[1..]| && data[1..][i] == Field(name, r.value) && name !in Names(data[1..][..i]);
        NamesOfLongerPrefix(data, i);
        assert data[i + 1] == Field(name, r.value);
        r
  }

  /** The names of the first `i + 1` properties: the first name, then those of the next `i`. */
  lemma NamesOfLongerPrefix(data: seq<Field>, i: nat)
    requires i < |data|
    ensures Names(data[..i + 1]) == [data[0].name] + Names(data[1..][..i])
  {
    assert data[..i + 1][1..] == data[1..][..i];
  }

  /** The request URL: the bot token is a path segment, the method the last one. */
  function ApiUrl(apiKey: string, endpoint: string): string {
    ApiBase + apiKey + "/" + endpoint
  }

  /**
   * The `switch (payload.type)` of `sendMessage`: each known type picks a method
   * and a body; any other type throws "invalid message type" before a URL is built.
   */
  function ShapeRequest(payload: Payload, apiKey: string, chatId: string): (r: Result<Outbound>)
    ensures r.Ok? <==> IsKnownKind(payload.kind)
    ensures r.Err? ==> r.error == InvalidMessageType
    ensures r.Ok? ==> r.value.url == ApiUrl(apiKey, r.value.endpoint)
  {
    var chat := Field("chat_id", Some(chatId));
    if payload.kind == TextKind then
      Ok(Outbound(SendMessage, ApiUrl(apiKey, SendMessage),
                  [chat, Field("text", payload.text)]))
    else if payload.kind == ImageKind then
      Ok(Outbound(SendPhoto, ApiUrl(apiKey, SendPhoto),
                  [chat, Field("caption", payload.text), Field("photo", payload.image)]))
    else if payload.kind == FileKind then
      Ok(Outbound(SendDocument, ApiUrl(apiKey, SendDocument),
                  [chat, Field("caption", payload.text), Field("document", payload.file)]))
    else
      Err(InvalidMessageType)
  }

  /** A `text` payload becomes `sendMessage` with the chat id and the text. */
  lemma TextMapping(payload: Payload, apiKey: string, chatId: string)
    requires payload.kind == TextKind
    ensures var r := ShapeRequest(payload, apiKey, chatId);
      r.Ok? && r.value.endpoint == SendMessage
      && Names(r.value.data) == ["chat_id", "text"]
      && Lookup(r.value.data, "chat_id") == Some(Some(chatId))
      && Lookup(r.value.data, "text") == Some(payload.text)
  {
  }

  /** An `image` payload becomes `sendPhoto`, the text as caption and the image as photo. */
  lemma ImageMapping(payload: Payload, apiKey: string, chatId: string)
    requires payload.kind == ImageKind
    ensures var r := ShapeRequest(payload, apiKey, chatId);
      r.Ok? && r.value.endpoint == SendPhoto
      && Names(r.value.data) == ["chat_id", "caption", "photo"]
      && Lookup(r.value.data, "chat_id") == Some(Some(chatId))
      && Lookup(r.value.data, "caption") == Some(payload.text)
      && Lookup(r.value.data, "photo") == Some(payload.image)
  {
  }

  /** A `file` payload becomes `sendDocument`, the text as caption and the file as document. */
  lemma FileMapping(payload: Payload, apiKey: string, chatId: string)
    requires payload.kind == FileKind
    ensures var r := ShapeRequest(payload, apiKey, chatId);
      r.Ok? && r.value.endpoint == SendDocument
      && Names(r.value.data) == ["chat_id", "caption", "document"]
      && Lookup(r.value.data, "chat_id") == Some(Some(chatId))
      && Lookup(r.value.data, "caption") == Some(payload.text)
      && Lookup(r.value.data, "document") == Some(payload.file)
  {
  }

  /** The position of the last `c` in `s`, if any. */
  function LastIndexOf(s: string, c: char): (r: Option<nat>)
    ensures r.None? <==> c !in s
    ensures r.Some? ==> r.value < |s| && s[r.value] == c && c !in s[r.value + 1..]
  {
    if s == [] then None
    else if s[|s| - 1] == c then Some(|s| - 1)
    else
      assert s == s[..|s| - 1] + [s[|s| - 1]];
      LastIndexOf(s[..|s| - 1], c)
  }

  /**
   * Reads the bot token and the method back out of a request URL; the method is
   * what follows the last `/`.  This is the inverse of ApiUrl.
   */
  function ParseApiUrl(url: string): (r: Option<(string, string)>)
    ensures r.Some? ==> ApiUrl(r.value.0, r.value.1) == url && '/' !in r.value.1
  {
    if |url| < |ApiBase| || url[..|ApiBase|] != ApiBase then None
    else
      var rest := url[|ApiBase|..];
      match LastIndexOf(rest, '/')
      case None => None
      case Some(i) =>
        var key, name := rest[..i], rest[i + 1..];
        SplitAtSlash(rest, i);
        JoinUrl(url, key, name);
        Some((key, name))
  }

  /** Cutting a string around one of its slashes loses nothing. */
  lemma SplitAtSlash(s: string, i: nat)
    requires i < |s| && s[i] == '/'
    ensures s == s[..i] + "/" + s[i + 1..]
  {
  }

  /** A URL that starts with the base and goes on with `key/name` is ApiUrl(key, name). */
  lemma JoinUrl(url: string, key: string, name: string)
    requires |url| >= |ApiBase| && url[..|ApiBase|] == ApiBase
    requires url[|ApiBase|..] == key + "/" + name
    ensures ApiUrl(key, name) == url
  {
    assert url == url[..|ApiBase|] + url[|ApiBase|..];
  }

  /** A method name without `/` and the token are read back, unchanged, from the URL string built from them. */
  lemma ApiUrlRoundTrip(apiKey: string, endpoint: string)
    requires '/' !in endpoint
    ensures ParseApiUrl(ApiUrl(apiKey, endpoint)) == Some((apiKey, endpoint))
  {
    var url := ApiUrl(apiKey, endpoint);
    var rest := apiKey + "/" + endpoint;
    assert url[..|ApiBase|] == ApiBase && url[|ApiBase|..] == rest;
    var r := LastIndexOf(rest, '/');
    assert rest[|apiKey|] == '/';
    assert rest[|apiKey| + 1..] == endpoint;
    assert rest[..|apiKey|] == apiKey;
  }

  /** Distinct tokens or distinct methods never share a request URL string. */
  lemma ApiUrlInjective(k1: string, e1: string, k2: string, e2: string)
    requires '/' !in e1 && '/' !in e2
    requires ApiUrl(k1, e1) == ApiUrl(k2, e2)
    ensures k1 == k2 && e1 == e2
  {
    ApiUrlRoundTrip(k1, e1);
    ApiUrlRoundTrip(k2, e2);
  }

  /**
   * The URL string of every request `sendMessage` shapes splits back, at its
   * last `/`, into the caller's token and that request's method.
   */
  lemma ShapedUrlIdentifiesCall(payload: Payload, apiKey: string, chatId: string)
    requires IsKnownKind(payload.kind)
    ensures ShapeRequest(payload, apiKey, chatId).Ok?
    ensures var req := ShapeRequest(payload, apiKey, chatId).value;
      ParseApiUrl(req.url) == Some((apiKey, req.endpoint))
  {
    var req := ShapeRequest(payload, apiKey, chatId).value;
    ApiUrlRoundTrip(apiKey, req.endpoint);
  }
}
