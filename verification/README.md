# WhatsApp Cloud API webhook bridge — a Dafny model

This project models the core of a small Go server (`main.go`) that sits
between the WhatsApp Cloud API and an application:

- It answers the provider's subscription handshake on `GET /webhook`.
- It authenticates event notifications on `POST /webhook` with an HMAC-SHA256 signature.
- It walks the decoded envelope (entries → changes → value) and calls a handler for every message, status and error.
- It classifies messages by kind and resolves the sender's display name.
- It chooses an auto-reply for text messages.
- It sends text and template messages back through the Graph API.

Modules, one per component:

| module | file | models |
|---|---|---|
| `Wrappers` | wrappers.dfy | `Option`, standing for Go's nil pointers and missing results |
| `Bytes` | bytes.dfy | Go's `byte` |
| `Settings` | settings.dfy | the four configuration values, passed as one immutable `Config` |
| `Text` | text.dfy | `strings.Contains`, `strings.TrimPrefix`, ASCII lower-casing |
| `Hex` | hex.dfy | `hex.EncodeToString` and a strict lower-case decoder as its inverse |
| `Signature` | signature.dfy | `validateSignature` |
| `Envelope` | envelope.dfy | the payload types (`WebhookPayload` … `Error`) |
| `Dispatch` | dispatch.dfy | `processWebhookPayload`, `processMessage` and the handler-call trace |
| `AutoReply` | autoreply.dfy | `handleAutoReply` |
| `Outbound` | outbound.dfy | the request types and the four send functions |
| `Webhook` | webhook.dfy | `webhookHandler`, `handleVerification`, `handleWebhookEvent` |

Collaborators the model cannot see are parameters:

- HMAC-SHA256 is `mac: (key, message) -> digest`.
- JSON decoding of the envelope is `decode: bytes -> Option<WebhookPayload>`.
- Reading the request body is a `ReadResult`.
- The HTTP client is `transport: HttpRequest -> TransportResult`.
- JSON decoding of a send response is `parseOk: body -> bool`.

Handler calls are recorded as a trace of `Dispatch.Event`s. The goroutine that
`processMessage` starts for a text message is recorded as the
`ReplyRequested(to, senderName, text)` action in that trace.
`AutoReply.HandleAutoReply` models what that task then does.

The three nested loops of `processWebhookPayload` are modelled as three methods, one nesting level each: `ProcessWebhookPayload` (entries) calls `ProcessChanges` (changes), which calls `ProcessValue` (messages, statuses, errors). The calls happen in the same order as in the nested loops.

Points of the code's behaviour worth knowing:

- The signature is compared as a hex string, so an upper-case digest is rejected. `Signature.AcceptedIffDigestMatches` shows that this equals comparing bytes under a strict lower-case decoding.
- Within one change the code handles all messages, then all statuses, then all errors.
- Outbound calls have no timeout and no retry.

## Model

| member | source | states |
|---|---|---|
| `Text.TrimPrefix` | main.go:287 | one leading prefix is removed when present (prefix + result = input); otherwise the input is returned whole |
| `Text.Lower` | main.go:318 | same length; each character lower-cased; no ASCII capital remains |
| `Hex.Encode` | main.go:290 | two characters per byte, all lower-case hex digits |
| `Hex.DecodeEncode` | main.go:290 | decoding the encoding of any bytes gives those bytes back |
| `Hex.EncodeDecode` | main.go:290 | any string the strict decoder accepts is the encoding of its result (the encoding is canonical) |
| `Hex.EncodeInjective` | main.go:290 | different digests have different hex encodings |
| `Signature.ValidateSignature` | main.go:282-293 | the empty header fails; an accepted header's digest part has exactly two characters per digest byte |
| `Signature.PrefixedDigestAccepted` | main.go:287-292 | `sha256=` followed by the lower-case hex HMAC of the body is accepted |
| `Signature.BareDigestAccepted` | main.go:287-292 | without the prefix the header is compared whole, so a bare non-empty digest is accepted too |
| `Signature.DoublePrefixRejected` | main.go:287 | only one `sha256=` is stripped; a doubled prefix is rejected |
| `Signature.NonLowerHexRejected` | main.go:290-292 | a digest part holding any character outside `0-9a-f` (for example an upper-case digit) is rejected |
| `Signature.AcceptedIffDigestMatches` | main.go:282-293 | a header is accepted iff it is non-empty and its digest part decodes (lower case only) to HMAC(secret, body) |
| `Signature.TamperedBodyRejected` | main.go:288-292 | a header valid for one body is rejected for any body whose HMAC differs |
| `Dispatch.SenderNameIsFirstMatch` | main.go:343-349 | the sender name is the profile name of the first contact whose `wa_id` is the sender; with no match it is "Unknown" |
| `Dispatch.LookupSenderName` | main.go:343-349 | the scan with early exit returns that first-match name |
| `Dispatch.Classify` | main.go:356-400 | an unknown kind is unhandled; a known kind without its payload does nothing; text is recognised exactly when the kind is "text" and the text is present |
| `Dispatch.MessageAction` | main.go:356-361 | a reply is requested iff the kind is "text" and the text is present, addressed to the sender with the first-match name and the message text |
| `Dispatch.ProcessMessage` | main.go:342-401 | the method's classification and reply equal `Classify` and `MessageAction` |
| `Dispatch.MessageEventsAt` | main.go:302-304 | the i-th message call handles the i-th message, classified and with its reply action computed from the change's contacts |
| `Dispatch.StatusEventsAt` | main.go:306-308 | the i-th status call handles the i-th status |
| `Dispatch.ErrorEventsAt` | main.go:310-312 | the i-th error call handles the i-th error |
| `Dispatch.ProcessValue` | main.go:302-312 | the three loops over one value produce its messages' calls, then its statuses', then its errors' |
| `Dispatch.ProcessChanges` | main.go:299-313 | the change loop of one entry produces the calls of its changes, change by change |
| `Dispatch.ProcessWebhookPayload` | main.go:295-315 | the entry loop produces exactly the trace `PayloadEvents`: entries, then changes, in order |
| `Dispatch.ChangeEventsOrdered` | main.go:302-312 | within a change no message call follows another kind of call, and no other kind follows an error call |
| `Dispatch.ChangeProjections` | main.go:302-312 | one change's calls handle its messages, statuses and errors, each whole and in order |
| `Dispatch.DispatchOrder` | main.go:298-314 | the handled messages (and statuses, errors) are all those of the envelope, in entry, change and array order |
| `Dispatch.DispatchCounts` | main.go:298-314 | message calls = Σ\|messages\|, status calls = Σ\|statuses\|, error calls = Σ\|errors\|, and there are no other calls |
| `Dispatch.DispatchRepliesOnlyForText` | main.go:302-303 | over a whole envelope, a reply is requested exactly for text messages that carry text |
| `AutoReply.SelectRule` | main.go:317-339 | case-insensitive substring match: greeting (hello/hi/halo) beats help (help/bantuan), which beats info; otherwise no match |
| `AutoReply.ReplyText` | main.go:321-335 | every rule except no-match has a reply text |
| `AutoReply.HandleAutoReply` | main.go:317-339 | exactly one text send to the sender when a rule matches, none otherwise |
| `AutoReply.SelectRuleIgnoresCase` | main.go:318 | texts equal up to ASCII case select the same rule |
| `AutoReply.SelectRuleOfLowered` | main.go:318 | lower-casing the text first does not change the rule |
| `AutoReply.GreetingBeatsHelp` | main.go:320-326 | "hi, need help" selects the greeting |
| `AutoReply.UpperCaseHelp` | main.go:318-326 | "need HELP please" selects help |
| `AutoReply.CapitalisedInfo` | main.go:318-332 | "Info" selects info |
| `AutoReply.NoKeywordNoReply` | main.go:320-338 | "xyz" selects no rule |
| `AutoReply.SubstringGreeting` | main.go:321 | "this" selects the greeting, because "hi" matches inside words |
| `Outbound.ErrorText` | main.go:427-470 | the configuration error is the fixed message; a failure to build or to send the request keeps the underlying reason, unchanged, at the end of the text |
| `Outbound.ErrorTextInjective` | main.go:446-458 | different failures (two API errors aside) have different texts; in particular "could not build" and "could not send" are told apart |
| `Outbound.ApiErrorTextKeepsBody` | main.go:463-465 | the API error text holds the status line and ends with the raw response body, unchanged |
| `Outbound.PostRequest` | main.go:431-452 | a POST to `https://graph.facebook.com/v18.0/<phone id>/messages` with a JSON content type and a bearer token |
| `Outbound.Deliver` | main.go:427-476 | missing credentials fail with no request; otherwise exactly one request; success iff the answer is a 200 whose body parses |
| `Outbound.SendTextMessage` | main.go:426-477 | the request is whatsapp / individual / text with body = message, or nothing is sent without credentials |
| `Outbound.SendTemplateMessage` | main.go:479-535 | the request is a template with the given name, language code and components, unchanged |
| `Outbound.SendHelloWorldTemplate` | main.go:537-539 | the template is `hello_world` in `en_US` with no components |
| `Outbound.SendTemplateWithBodyParams` | main.go:541-552 | sends exactly one `body` component with one `text` parameter per input string, in order |
| `Outbound.MissingCredentialsNoCall` | main.go:427-482 | both send functions fail with a configuration error and issue no request when a credential is empty |
| `Outbound.NonOkStatusIsApiError` | main.go:463-465 | a status other than 200 is an API error carrying the status line and the raw body |
| `Outbound.UnparsableOkIsError` | main.go:467-470 | a 200 whose body does not parse is a parse error, not success |
| `Webhook.HandleVerification` | main.go:233-249 | 200 with exactly `hub.challenge` iff mode is "subscribe" and the token equals the configured one; otherwise 403 |
| `Webhook.HandshakeScenario` | main.go:233-249 | with the configured token the challenge is echoed; with any other token the answer is 403 |
| `Webhook.PostGate` | main.go:251-274 | accepted iff the body was read, the signature passes (when a secret is set) and decoding succeeds; 403 exactly for a bad signature with a secret set; otherwise 400 |
| `Webhook.SignatureIgnoredWithoutSecret` | main.go:260-267 | with no secret configured the signature header makes no difference |
| `Webhook.BadSignatureBeforeDecode` | main.go:260-274 | a bad signature is answered 403 whatever the decoder would do |
| `Webhook.SignedBodyPassesGate` | main.go:260-267 | a correctly signed body is never rejected with 403 |
| `Webhook.HandleWebhookEvent` | main.go:251-280 | a rejected request is answered with the gate's response and nothing is dispatched; an accepted one is dispatched completely, then answered 200 `EVENT_RECEIVED` |
| `Webhook.WebhookHandler` | main.go:222-231 | GET is the handshake, POST the event gate; every other method, and only those, gets 405; the status is always 200, 400, 403 or 405 |

## Left out

- Server startup, route registration and startup logging (main.go:202-220) are HTTP plumbing. The `/health` and `/` handlers are a constant response and a static page.
- Environment loading and the fallback to `my_verify_token` when the verify token is unset are not modelled. Configuration is an explicit `Config` value.
- HMAC-SHA256 is the uninterpreted function `mac`. `hmac.Equal` is modelled as plain equality; its constant-time behaviour is not.
- JSON encoding and decoding are not modelled. Decoding is the `decode` and `parseOk` inputs. The request is carried as a value, and a marshal failure, which cannot happen for these types, is not modelled.
- `http.NewRequest` and `client.Do` are both the `transport` function. It reports a request it cannot build as `RequestRejected` (a `RequestError`, "failed to create request: …") and a request it cannot send as `TransportFailed` (a `TransportError`, "failed to send request: …"). Reading the response body ignores errors, as the code does.
- Reading the request body is the `ReadResult` input. Header lookup is the `signatureHeader` string; header-name canonicalisation is not modelled.
- The goroutine at main.go:360 is an emitted `ReplyRequested` action. No concurrency, ordering between reply tasks, or backpressure is modelled.
- Logging is left out, including the logging-only bodies of `processStatus` and `processError`. These two are recorded as `HandledStatus` and `HandledError` events.
- The float64 latitude and longitude of a location message are not carried.
- Text.Lower: folds only ASCII capitals, while Go's `strings.ToLower` also folds non-ASCII letters. `AutoReply.SelectRule` inherits this restriction.
- `Outbound.ErrorText` gives a parse error the fixed text "failed to parse response". Go appends the JSON decoder's message, which is not modelled.
- `amount_1000` (int64) is carried as an unbounded integer and never computed on.
