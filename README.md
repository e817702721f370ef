# Telegram notification bot bridge — Dafny model

This project models the request handler of a Cloudflare Worker that relays a
notification to the Telegram Bot API. A client POSTs a JSON body with a bot
token (`api_key`), a chat id (`chat_id`) and some content (`text`, `image`,
`file`). The handler does four things:

- It builds a payload record whose `type` is chosen by precedence: file, then image, then text.
- It runs four checks in order, and the first failure answers HTTP 400.
- It shapes one Bot API call: `sendMessage`, `sendPhoto` or `sendDocument`, with a fixed JSON body, to `https://api.telegram.org/bot<api_key>/<method>`.
- It maps the outcome of that call to an HTTP status and a `{status, message}` envelope.

All of this is pure. The model is made of datatypes, functions and lemmas in four modules:

- `Wrappers` (`wrappers.dfy`): `Option` and `Result`.
- `Js` (`js.dfy`): the JavaScript value semantics the handler relies on. These are truthiness, `!`, the bitwise `&` applied to two booleans (through 32-bit integers), and the value-returning `&&`.
- `Telegram` (`telegram.dfy`): the payload record and the `switch` of `sendMessage`. It keeps the `default: throw` branch, because the payload type is kept as a string. It also holds the request URL and `ParseApiUrl`, which reads the token and the method back out of a URL.
- `Handler` (`handler.dfy`): the body record, classification, the ordered validation, `sendResponse`, the mapping of the outbound outcome, and `handleRequest` as a whole.

`HandleRequest` returns the handler's result and the list of outbound requests
it issued, so "no call on a rejected request" and "exactly one call otherwise"
are stated about that list.

Inputs the model takes as parameters:

- `isUrl: string -> bool` stands for `new URL(s)` succeeding. That is the URL parser of the WHATWG URL Standard (section 4.4, "URL parsing"), which the `URL` constructor uses (section 6.1).
- `outcome: Outcome` stands for how the Axios call ended. It is one of:
  - `Delivered`: a 2xx answer.
  - `ProviderError(status, description)`: a rejection that carries a response.
  - `NoResponse`: a rejection with no response, such as a network failure.
- With `NoResponse`, the source's `catch` block reads `e.response.status` and itself throws. The model gives that the explicit result `Crash`.

Three details of the code that the model keeps:

- The image check fires for any non-null `image`, including the empty string, even when the type is text or file.
- A provider error answers HTTP 200, because `sendResponse` is called without a status and `status ?? 200` applies. The provider's code appears only as the envelope's `status`.
- The "payload is missing" test is `!text & !image && !file`, a bitwise AND followed by a value-returning `&&`. `Handler.PayloadMissingTest` models it as written, and its contract proves that its truth value is exactly "text, image and file all falsy": the bitwise `&` has no visible effect.

## Model

| member | source | states |
|---|---|---|
| Js.Not | src/index.js:103 | `!v` is a boolean, true exactly when `v` is falsy |
| Js.BitAnd | src/index.js:134 | `&` on two booleans yields the number 0 or 1, truthy exactly when both operands are true |
| Js.And | src/index.js:134 | `a && b` yields one of its operands, and its truthiness is the conjunction of theirs |
| Telegram.ShapeRequest | src/index.js:34-68 | the switch succeeds exactly for the types text, image and file; any other type fails with "invalid message type"; the URL is the base, the token, `/` and the method |
| Telegram.TextMapping | src/index.js:39-46 | a `text` payload calls `sendMessage` with the properties `chat_id` and `text`, holding the chat id and the payload's text |
| Telegram.ImageMapping | src/index.js:47-55 | an `image` payload calls `sendPhoto` with the properties `chat_id`, `caption` and `photo`, holding the chat id, the text and the image |
| Telegram.FileMapping | src/index.js:56-63 | a `file` payload calls `sendDocument` with the properties `chat_id`, `caption` and `document`, holding the chat id, the text and the file |
| Telegram.ParseApiUrl | src/index.js:68 | whatever it reads out of a URL rebuilds that URL, and the method it reads contains no `/` |
| Telegram.ApiUrlRoundTrip | src/index.js:68 | the token and a method without `/` are read back unchanged from the URL built from them |
| Telegram.ApiUrlInjective | src/index.js:68 | two requests share a URL string only if they have the same token and the same method |
| Telegram.ShapedUrlIdentifiesCall | src/index.js:38-68 | the URL string of every request the switch shapes splits back into the caller's token and that request's method |
| Handler.Classify | src/index.js:96-101 | the payload type is always text, image or file, and the three content fields are copied unchanged |
| Handler.ClassifyPrecedence | src/index.js:97 | the type is `file` iff `file` is truthy, `image` iff `file` is falsy and `image` truthy, and `text` otherwise |
| Handler.TextDoesNotDecideKind | src/index.js:97-98 | changing `text` never changes the payload type |
| Handler.PayloadMissingTest | src/index.js:134 | the condition as written is truthy exactly when text, image and file are all falsy |
| Handler.Validate | src/index.js:103-139 | a rejection carries one of the four messages; an acceptance carries the body's non-empty token and chat id, and a payload whose type names a truthy field (an image also passes the URL test) |
| Handler.ValidationOrder | src/index.js:103-139 | each of the four messages is given exactly when its check is the first to fail, in the order api_key, chat_id, image URL, payload; a request is accepted exactly when all pass |
| Handler.AcceptedRequestCarriesContent | src/index.js:38-66 | after validation the `default: throw` branch is never taken, and the body sent holds a non-empty text, a non-empty URL photo or a non-empty document, as its type requires |
| Handler.SendResponse | src/index.js:20-31 | the envelope is passed through, and the HTTP status is the one given or 200 |
| Handler.MapOutcome | src/index.js:141-153 | a delivered call answers 200 `{success, done}`; a provider error answers 200 with the provider's status and description unchanged; a rejection without a response crashes |
| Handler.HandleRequest | src/index.js:92-154 | a rejected request answers 400 `{error, message}` and issues no call; an accepted one issues exactly one call, the one the switch shapes, and answers from its outcome; it crashes only on an accepted request whose call got no response |
| Handler.AcceptedRequestAddressed | src/index.js:142 | an accepted request's single call uses `sendDocument` if `file` is truthy, else `sendPhoto` if `image` is, else `sendMessage`; its URL string splits back into the body's `api_key` and that method |
| Handler.ExampleMissingBoth | src/index.js:103-108 | a body without `api_key` and without `chat_id` is refused for `api_key` |
| Handler.ExampleEmptyImage | src/index.js:127-132 | an empty-string image that is not a URL is refused with "`image` must be URL", even with no other content |
| Handler.ExampleNoContent | src/index.js:134-139 | a body with only the token and the chat id is refused with "Payload is missing" |
| Handler.ExampleText | src/index.js:39-46 | `{k, c, text "hello"}` calls `sendMessage` at `.../botk/sendMessage` with `{chat_id: "c", text: "hello"}` and answers 200 done |
| Handler.ExampleImageWithCaption | src/index.js:47-55 | an image with text calls `sendPhoto` with the text as caption; a provider 400 comes back as HTTP 200 with status 400 and its description |
| Handler.ExampleFileBeatsImage | src/index.js:97 | with both an image and a file, `sendDocument` is called with the file, and the caption is null |

## Left out

- The `fetch` entry point and `request.json()` (src/index.js:13-17, 93): runtime I/O and JSON parsing. The body arrives parsed. A missing key and JSON `null` are both `None`. Non-string JSON values (numbers, objects) are out of scope.
- `Axios.request` and its configuration (src/index.js:70-81): a network call through a library. Only its outcome is modelled, as the `Outcome` input. The `catch (e) { throw e; }` at src/index.js:87-89 changes nothing. The `{status, data}` value that `sendMessage` returns is unused by the handler and is not modelled.
- The request URL is treated as a string and is never parsed or normalised: the token is inserted unescaped (src/index.js:68), so a token containing `?`, `#` or `/` changes the path actually requested, which the URL lemmas do not capture.
- The URL grammar of `new URL` (src/index.js:117-125): a foreign parser, kept as the parameter `isUrl`.
- `Response` construction, `JSON.stringify` and the Content-Type header (src/index.js:23-31): runtime library. Only the (HTTP status, envelope) pair is modelled. The outbound body is modelled as its ordered list of properties, not as JSON text.
- Handler.MapOutcome: a provider error whose `data.description` is missing or not a string is not modelled; the description is always a string.
- Handler.HandleRequest: what the Workers runtime answers after the handler throws (`Crash`) is not modelled.
- async/await scheduling: there is no concurrency in a request.
- Idempotence of validation: every member is a mathematical function, so equal inputs give equal results by construction; no lemma states it.
