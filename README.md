# star-tracker webhook handler, modelled in Dafny

star-tracker relays GitHub "star" events to a Telegram chat. Its core is the
single HTTP request handler of `src/index.js`: it accepts only `POST /webhook`,
buffers the body, checks the `x-hub-signature-256` HMAC signature unless
`DEBUG` is set, parses the JSON payload, keeps only `star` events whose action
is `created` or `deleted`, renders a localized message from the payload and
sends it once to the chat API, then answers the webhook caller.

The model has six modules:

- `Js` (js_values.dfy): the JavaScript values JSON.parse yields, property
  access that throws on `null`/`undefined`, the string conversion of template
  literals, and truthiness (the `!DEBUG` test).
- `Utf8` (utf8.dfy): the UTF-8 encoding `Buffer.from(s, 'utf8')` performs, with
  a strict decoder as its inverse. The round trip proves that equal bytes mean
  equal strings.
- `Signature` (signature.dfy): `isValidSignature`, with `timingSafeEqual` as a
  comparison that visits every byte pair and requires equal lengths.
- `Webhook` (dispatch.dfy): the whole handler as one function `Dispatch` from
  a request, the configuration, the outside services and the outcome of the
  chat call, to the reply written (if any), the texts sent, and whether the
  body was read.
- `Server` (server.dfy): the same handler as the imperative code it is. A
  request object yields its chunks, a response object has a status code and an
  `End` that may be called only once, and a chat channel records every send.
  `Handle` and the helpers it calls are proved against `Dispatch`.
- `WebhookProperties` (properties.dfy): the handler's promises, stated over
  `Dispatch`.

Outside services are parameters, bundled in `Webhook.Runtime`:
- body decoding (`Buffer.toString('utf8')`);
- the hex HMAC-SHA256 digest `hmacHex(secret, message)`;
- JSON.parse, which gives `None` for a SyntaxError;
- i18next's `t(key, values)`.

The chat call's result is an input of type `Delivery`: `Accepted`, `Refused`
(a non-ok status, only logged) or `Failed` (the call throws).

Behaviour worth knowing:
- A `star` event with an unknown action gets no reply at all. The handler
  returns at src/index.js:101 before writing anything, so the response is
  never ended.
- A body that is not JSON gets 500 even for events other than `star`, because
  parsing (line 96) comes before the event test (line 99).
- The body `null` also gets 500. The log line at src/index.js:98 reads
  `payload.action`, and that throws on `null`.
- Verification is skipped whenever `DEBUG` is a non-empty string, so `DEBUG=0`
  turns it off too. Environment values are strings, and only the unset
  default is the number 0.
- A missing `repository`, `repository.owner` or `sender` gives 500. A missing
  `owner.login` or `repository.name` does not: the `repo` text then holds
  `undefined`. A missing `sender.login` or `stargazers_count` does not throw
  either; it reaches i18next's `t` as the value `undefined`, and what the
  message then shows is up to the library.
- An owner login or repository name that is an object with its own
  `toString` key (or an array holding one) makes the template literal of
  line 103 throw, which gives 500.
- i18next returns the key for a missing template; translation never throws in
  the model.

## Model

| member | source | states |
|---|---|---|
| `Js.GetProperty` | src/index.js:98-105 | a property read throws exactly when the value is null or undefined |
| `Js.ToJsString` | src/index.js:103 | template-literal conversion throws exactly for an object with its own `toString` key or an array holding one somewhere; strings are kept, numbers give their printed form, booleans `true` or `false`, null and undefined give `null` and `undefined`, other objects `[object Object]` |
| `Js.JoinWithCommas` | src/index.js:103 | joining array elements throws exactly when converting some element throws |
| `Utf8.EncodeChar` | src/index.js:44-48 | one scalar value encodes to one to four bytes |
| `Utf8.Encode` | src/index.js:44-48 | a string's UTF-8 length is between one and four bytes per character |
| `Utf8.EncodeCharDecodes` | src/index.js:44-48 | the lead byte announces the length of its sequence, and decoding one encoded character gives it back |
| `Utf8.DecodeEncode` | src/index.js:44-48 | decoding the UTF-8 encoding of any string gives back that string |
| `Utf8.EncodeInjective` | src/index.js:44-51 | two strings have the same UTF-8 bytes exactly when they are equal |
| `Signature.ExpectedSignature` | src/index.js:43-45 | the expected header value begins with `sha256=` |
| `Signature.Mismatches` | src/index.js:51 | the count of differing byte positions is zero exactly when the buffers are equal, and is at most their length |
| `Signature.TimingSafeEqual` | src/index.js:51 | defined only for buffers of equal length, and true exactly when they are equal |
| `Signature.IsValidSignature` | src/index.js:41-52 | true exactly when the header is present and equals `sha256=` followed by the hex digest of the body under the secret; an absent or empty header is false; byte lengths are compared before the byte comparison |
| `Signature.OwnSignatureAccepted` | src/index.js:41-52 | the signature the sender computes with the shared secret over the decoded body is accepted, for every decoded body |
| `Signature.MissingSignatureRejected` | src/index.js:42 | an absent or empty header is rejected, for every body and secret |
| `Signature.ForeignBodyRejected` | src/index.js:43-51 | a signature made for one body is rejected for another whenever their digests differ |
| `Signature.LengthMismatchRejected` | src/index.js:50 | a header whose UTF-8 length differs from that of the expected value is rejected |
| `Webhook.DebugSetting` | src/index.js:13-20 | the `DEBUG` value is truthy exactly when the variable is set to a non-empty string |
| `Webhook.Concat` | src/index.js:84 | the concatenated body is empty exactly when every chunk is, and begins with the first chunk |
| `Webhook.ConcatAppend` | src/index.js:83-84 | pushing one more chunk appends exactly its bytes to the concatenated body |
| `Webhook.SignatureGatePasses` | src/index.js:86-93 | a request gets past the gate exactly when verification is off or its header equals the expected signature of the decoded body |
| `Webhook.RepoText` | src/index.js:103 | the `repo` text throws exactly when the repository or its owner is missing, or the owner's login or the repository's name cannot be converted to a string |
| `Webhook.StarMessage` | src/index.js:103-116 | building the message throws for a null payload, and otherwise exactly when the `repo` text throws or `sender` is missing |
| `Webhook.HandleEvent` | src/index.js:95-122 | a body that is not JSON throws before anything is sent; at most one text is sent and only for a `star` event; a normal end writes 200 or, only for a `star` event with nothing sent, no reply |
| `Webhook.TryBlock` | src/index.js:82-122 | the try block ends with 401 exactly when the signature gate fails, and then sends nothing |
| `Webhook.Dispatch` | src/index.js:74-127 | at most one text is sent; any reply is one of the four fixed replies; the body is read exactly when the reply is not 404; a send is followed by 200 or 500 |
| `Server.IncomingMessage.Next` | src/index.js:83 | each step of the body stream yields the next chunk, or nothing once the body is exhausted |
| `Server.ServerResponse.End` | src/index.js:76-77 | ending the response fixes the reply to the current status code and the given text, and may happen only once |
| `Server.ChatChannel.SendToTelegram` | src/index.js:54-72 | exactly one attempt is recorded per call, and the call throws only when the API call fails, not on a non-ok status |
| `Server.ReadBody` | src/index.js:82-83 | the loop collects every chunk in order and leaves the stream exhausted |
| `Server.TryBody` | src/index.js:81-122 | the try block throws exactly when `Webhook.TryBlock` does, leaves the response open when it throws, and otherwise writes the reply `TryBlock` gives or none; its sends are those of `TryBlock` |
| `Server.Handle` | src/index.js:74-127 | the reply written, the texts sent and what is left of the body are exactly those `Dispatch` gives, and the response is ended at most once |
| `Server.Serve` | src/index.js:74 | on a fresh request, response and channel, the handler writes the reply and sends the texts `Dispatch` gives |
| `WebhookProperties.NotFoundExactlyOffRoute` | src/index.js:75-78 | off `POST /webhook` the reply is 404, the body is unread and nothing is sent; 404 occurs only off that route |
| `WebhookProperties.VerificationSkippedExactly` | src/index.js:18 | verification is skipped exactly when `DEBUG` is set to a non-empty string |
| `WebhookProperties.DebugZeroDisablesVerification` | src/index.js:18 | `DEBUG=0` and `DEBUG=false` also skip verification |
| `WebhookProperties.UnauthorizedExactly` | src/index.js:86-92 | the reply is 401 exactly when the route matches, verification is on and the header is not the expected signature; nothing is sent then |
| `WebhookProperties.UnauthorizedIgnoresParser` | src/index.js:86-96 | a rejected request's outcome does not depend on JSON.parse: the body is never parsed |
| `WebhookProperties.DebugAcceptsUnsigned` | src/index.js:86 | with `DEBUG` set to a non-empty string, a request with no signature header is not rejected |
| `WebhookProperties.MalformedJsonIsServerError` | src/index.js:95-96 | a body that is not JSON gets 500 and nothing is sent, whatever the event |
| `WebhookProperties.NullPayloadIsServerError` | src/index.js:98 | the body `null` gets 500 and nothing is sent, whatever the event |
| `WebhookProperties.OtherEventIsAcknowledged` | src/index.js:99 | a parsed non-null payload of an event other than `star` gets 200 and nothing is sent |
| `WebhookProperties.UnknownStarActionIsSilent` | src/index.js:100-101 | a `star` event whose action is neither `created` nor `deleted` writes no reply and sends nothing |
| `WebhookProperties.NoReplyExactly` | src/index.js:99-101 | the handler writes no reply exactly in that case |
| `WebhookProperties.StarEventIsSent` | src/index.js:103-122 | a `created` or `deleted` star event whose message can be built is sent exactly once; the reply is 200, even if the chat API answers non-ok, and 500 if the send throws |
| `WebhookProperties.SentExactly` | src/index.js:99-118 | something is sent exactly when a known star action passed every earlier step and its message could be built |
| `WebhookProperties.MissingRecordThrows` | src/index.js:103-104 | a missing `repository`, `repository.owner` or `sender` makes building the message throw |
| `WebhookProperties.RepoTextJoins` | src/index.js:103 | for any repository whose owner is present, the repo text is the converted owner login and the converted name joined by `/`, so a numeric login prints as its number and a missing login as `undefined` |
| `WebhookProperties.MissingNameIsUndefined` | src/index.js:103 | for any repository, whatever its other keys, whose owner is present with a string login and whose `name` is missing, the repo text does not throw and is `<login>/undefined` |
| `WebhookProperties.StarMessageText` | src/index.js:103-116 | for any payload, whatever other keys it carries, whose repository, owner and sender are present and whose owner login and repository name are strings, and for any action, the message is the `star.message` template filled with the action's emoji and prefix, `owner/name`, the sender's login and the star count as they are |
| `WebhookProperties.StarMessageThrowIsServerError` | src/index.js:103-126 | a known star action whose message throws gets 500 and nothing is sent |
| `WebhookProperties.StarMessageExample` | src/index.js:103-116 | for torvalds starring octocat/Hello-World with 42 stars, the message is the `star.message` template filled with the `created` emoji and prefix, `octocat/Hello-World`, `torvalds` and 42 |

## Left out

- Loading the environment and the startup check for credentials (src/index.js:11-25) are process bootstrap. The model takes `WEBHOOK_SECRET` and the defaulted `DEBUG` value as a `Config`, and `DebugSetting` gives the defaulting from an environment map.
- i18next's initialisation, locale files, fallback locale and interpolation (src/index.js:27-39) are a foreign library. `t(key, values)` is an arbitrary function `translate`, and a call with no options is `translate(key, map[])`.
- HMAC-SHA256 and its hex encoding (src/index.js:43-45) are not modelled. The check is proved for every digest function `hmacHex`.
- Signature.TimingSafeEqual: does not state that `timingSafeEqual` takes constant time, because time cannot be expressed in the model. It visits every byte pair, but that is only its shape.
- `fetch`, the Telegram URL and JSON body, `res.text()` and all console logging (src/index.js:54-72, 98) are I/O. Their only effect on the handler is the `Delivery` input. The log line at 98 matters only because it reads `payload.action`.
- Decoding the buffered body (src/index.js:84) is the parameter `decodeUtf8`; invalid-byte replacement is not modelled.
- The handler signs the decoded string, not the raw bytes (src/index.js:84). A body that is not valid UTF-8 decodes with replacement characters, so a sender's HMAC over the original bytes is generally rejected even though it is correct. The model keeps this behaviour through `RawBody` but states no lemma about it, because the decoder is a parameter.
- Async chunk streaming is modelled as synchronous steps, and `ReadBody` cannot fail: an error on the request stream during `for await` (a client abort or reset), which rejects inside the `try` and gives 500 (src/index.js:83, 123-126), is not modelled. Concurrent requests, `listen`, `PORT` and the event loop (src/index.js:128-130) are left out.
- JSON.parse is the parameter `parseJson`. A JSON number is carried as the string JavaScript prints for it.
- JavaScript strings are UTF-16. A model `char` is a Unicode scalar value, so a lone surrogate in a header cannot be written.
- Js.GetProperty: is exact only for keys that no built-in prototype defines. Every key the handler reads is such a key.
- Server.ServerResponse.End: excludes a second call instead of modelling Node's error for it; `Handle` is proved never to make one.
