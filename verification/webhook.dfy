/**
 * The `/webhook` endpoint: method routing (`webhookHandler`), the
 * subscription handshake (`handleVerification`) and the ordered gate of a
 * POST (`handleWebhookEvent`): read the body, check the signature when a
 * secret is configured, decode, dispatch, acknowledge. Reading the body and
 * decoding its JSON are inputs: `ReadResult` and the `decode` function.
 */
module Webhook {
  import opened Wrappers
  import opened Bytes
  import opened Settings
  import Signature
  import Envelope
  import Dispatch

  /** Status code and body written back; `http.Error` bodies end with a newline. */
  datatype Response = Response(status: int, body: string)

  const FORBIDDEN: Response := Response(403, "Forbidden\n")
  const BAD_REQUEST: Response := Response(400, "Bad Request\n")
  const METHOD_NOT_ALLOWED: Response := Response(405, "Method not allowed\n")
  const EVENT_RECEIVED: Response := Response(200, "EVENT_RECEIVED")

  /** Parsed query parameters: each name with all of its values. */
  type Query = map<string, seq<string>>

  /** `url.Values.Get`: the first value of the parameter, or the empty string. */
  function QueryGet(query: Query, key: string): string {
    if key in query && |query[key]| > 0 then query[key][0] else ""
  }

  /**
   * `handleVerification`: echo `hub.challenge` with 200 exactly when the mode
   * is `subscribe` and the token is the configured one; otherwise 403.
   */
  function HandleVerification(query: Query, verifyToken: string): (r: Response)
    ensures r.status == 200 <==>
              QueryGet(query, "hub.mode") == "subscribe" && QueryGet(query, "hub.verify_token") == verifyToken
    ensures r.status == 200 ==> r.body == QueryGet(query, "hub.challenge")
    ensures r.status != 200 ==> r == FORBIDDEN
  {
    var mode := QueryGet(query, "hub.mode");
    var token := QueryGet(query, "hub.verify_token");
    var challenge := QueryGet(query, "hub.challenge");
    if mode == "subscribe" && token == verifyToken then Response(200, challenge) else FORBIDDEN
  }

  /** The subscription handshake of the provider succeeds with the configured token and fails with any other. */
  lemma HandshakeScenario(verifyToken: string, other: string, challenge: string)
    requires other != verifyToken
    ensures HandleVerification(
              map["hub.mode" := ["subscribe"], "hub.verify_token" := [verifyToken], "hub.challenge" := [challenge]],
              verifyToken) == Response(200, challenge)
    ensures HandleVerification(
              map["hub.mode" := ["subscribe"], "hub.verify_token" := [other], "hub.challenge" := [challenge]],
              verifyToken) == FORBIDDEN
  {
  }

  /** Reading the request body either succeeds with its bytes or fails. */
  datatype ReadResult = ReadOk(bytes: seq<byte>) | ReadFailed

  /** JSON decoding of an envelope: `None` is a decode error. */
  type Decoder = seq<byte> -> Option<Envelope.WebhookPayload>

  /** Where a POST stops: rejected with a response, or accepted with the decoded envelope. */
  datatype Gate = Rejected(response: Response) | Accepted(payload: Envelope.WebhookPayload)

  /** The checks of `handleWebhookEvent` before dispatch, in the order they run. */
  function PostGate(read: ReadResult, cfg: Config, signature: string, mac: Signature.Mac, decode: Decoder): (g: Gate)
    ensures g.Accepted? <==>
              read.ReadOk? &&
              (cfg.appSecret == "" || Signature.ValidateSignature(read.bytes, signature, cfg.appSecret, mac)) &&
              decode(read.bytes).Some?
    ensures g.Accepted? ==> g.payload == decode(read.bytes).value
    ensures g == Rejected(FORBIDDEN) <==>
              read.ReadOk? && cfg.appSecret != "" && !Signature.ValidateSignature(read.bytes, signature, cfg.appSecret, mac)
    ensures g.Rejected? && g != Rejected(FORBIDDEN) ==> g.response == BAD_REQUEST
  {
    match read
    case ReadFailed => Rejected(BAD_REQUEST)
    case ReadOk(body) =>
      if cfg.appSecret != "" && !Signature.ValidateSignature(body, signature, cfg.appSecret, mac) then Rejected(FORBIDDEN)
      else
        match decode(body)
        case None => Rejected(BAD_REQUEST)
        case Some(payload) => Accepted(payload)
  }

  /** Without a configured secret the signature header is never consulted. */
  lemma SignatureIgnoredWithoutSecret(read: ReadResult, cfg: Config, sig1: string, sig2: string,
                                      mac: Signature.Mac, decode: Decoder)
    requires cfg.appSecret == ""
    ensures PostGate(read, cfg, sig1, mac, decode) == PostGate(read, cfg, sig2, mac, decode)
  {
  }

  /** A bad signature is answered with 403 before anything is decoded: the decoder makes no difference. */
  lemma BadSignatureBeforeDecode(body: seq<byte>, cfg: Config, signature: string, mac: Signature.Mac,
                                 decode1: Decoder, decode2: Decoder)
    requires cfg.appSecret != "" && !Signature.ValidateSignature(body, signature, cfg.appSecret, mac)
    ensures PostGate(ReadOk(body), cfg, signature, mac, decode1) == Rejected(FORBIDDEN)
    ensures PostGate(ReadOk(body), cfg, signature, mac, decode2) == Rejected(FORBIDDEN)
  {
  }

  /** With a secret, a body correctly signed with the `sha256=` prefix always passes the signature gate. */
  lemma SignedBodyPassesGate(body: seq<byte>, cfg: Config, mac: Signature.Mac, decode: Decoder)
    requires cfg.appSecret != ""
    ensures var sig := Signature.PREFIX + Signature.ExpectedSignature(body, cfg.appSecret, mac);
      PostGate(ReadOk(body), cfg, sig, mac, decode) != Rejected(FORBIDDEN)
  {
    Signature.PrefixedDigestAccepted(body, cfg.appSecret, mac);
  }

  /**
   * `handleWebhookEvent`. Rejected requests are not dispatched; accepted ones
   * are dispatched completely and then acknowledged with 200
   * `EVENT_RECEIVED`, whatever the handlers did.
   */
  method HandleWebhookEvent(read: ReadResult, cfg: Config, signature: string, mac: Signature.Mac, decode: Decoder)
    returns (resp: Response, trace: seq<Dispatch.Event>)
    ensures PostGate(read, cfg, signature, mac, decode).Rejected? ==>
              resp == PostGate(read, cfg, signature, mac, decode).response && trace == []
    ensures PostGate(read, cfg, signature, mac, decode).Accepted? ==>
              resp == EVENT_RECEIVED && trace == Dispatch.PayloadEvents(PostGate(read, cfg, signature, mac, decode).payload)
  {
    trace := [];
    if read.ReadFailed? {
      resp := BAD_REQUEST;
      return;
    }
    var body := read.bytes;
    if cfg.appSecret != "" {
      if !Signature.ValidateSignature(body, signature, cfg.appSecret, mac) {
        resp := FORBIDDEN;
        return;
      }
    }
    var decoded := decode(body);
    if decoded.None? {
      resp := BAD_REQUEST;
      return;
    }
    trace := Dispatch.ProcessWebhookPayload(decoded.value);
    resp := EVENT_RECEIVED;
  }

  /** An inbound HTTP request as the handlers see it; `signatureHeader` is `X-Hub-Signature-256` or empty. */
  datatype Request = Request(httpMethod: string, query: Query, signatureHeader: string, body: ReadResult)

  /**
   * `webhookHandler`: GET is the handshake, POST an event notification, and
   * every other method is answered 405. Callers only ever see 200, 400, 403
   * or 405.
   */
  method WebhookHandler(req: Request, cfg: Config, mac: Signature.Mac, decode: Decoder)
    returns (resp: Response, trace: seq<Dispatch.Event>)
    ensures req.httpMethod == "GET" ==> resp == HandleVerification(req.query, cfg.verifyToken) && trace == []
    ensures req.httpMethod == "POST" ==>
              var g := PostGate(req.body, cfg, req.signatureHeader, mac, decode);
              (g.Rejected? ==> resp == g.response && trace == []) &&
              (g.Accepted? ==> resp == EVENT_RECEIVED && trace == Dispatch.PayloadEvents(g.payload))
    ensures resp.status == 405 <==> req.httpMethod != "GET" && req.httpMethod != "POST"
    ensures resp.status == 405 ==> resp == METHOD_NOT_ALLOWED && trace == []
    ensures resp.status in {200, 400, 403, 405}
  {
    if req.httpMethod == "GET" {
      resp := HandleVerification(req.query, cfg.verifyToken);
      trace := [];
    } else if req.httpMethod == "POST" {
      resp, trace := HandleWebhookEvent(req.body, cfg, req.signatureHeader, mac, decode);
    } else {
      resp := METHOD_NOT_ALLOWED;
      trace := [];
    }
  }
}
