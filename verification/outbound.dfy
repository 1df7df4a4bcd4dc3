/**
 * The outbound client: `sendTextMessage`, `sendTemplateMessage` and their two
 * template helpers. Each builds a send request, POSTs it to the Graph API
 * messages endpoint of the configured phone number and interprets the
 * answer. The network (request creation and `client.Do`) is the `transport`
 * function and JSON decoding of the answer the `parseOk` predicate; JSON
 * encoding of the request is not modelled: the request is carried as a value.
 */
module Outbound {
  import opened Wrappers
  import opened Settings

  // ---------------------------------------------------------------------------
  // Request and response shapes

  /** The body of a send: fields named `type` on the wire are `messageType` etc. here. */
  datatype SendMessageRequest = SendMessageRequest(
    messagingProduct: string,
    recipientType: string,       // empty stands for an omitted field
    to: string,
    messageType: string,
    text: Option<TextBody>,
    template: Option<TemplateMessage>
  )

  datatype TextBody = TextBody(body: string)

  datatype TemplateMessage = TemplateMessage(name: string, language: Option<TemplateLanguage>, components: seq<TemplateComponent>)

  datatype TemplateLanguage = TemplateLanguage(code: string)

  datatype TemplateComponent = TemplateComponent(
    componentType: string,
    subType: string,
    index: Option<int>,
    parameters: seq<TemplateParameter>
  )

  datatype TemplateParameter = TemplateParameter(
    parameterType: string,
    text: string,
    currency: Option<CurrencyValue>,
    dateTime: Option<DateTimeValue>,
    image: Option<MediaValue>,
    document: Option<MediaValue>,
    video: Option<MediaValue>
  )

  /** `amount1000` is an int64 in the wire format; it is only carried, never computed on. */
  datatype CurrencyValue = CurrencyValue(fallbackValue: string, code: string, amount1000: int)

  datatype DateTimeValue = DateTimeValue(fallbackValue: string)

  datatype MediaValue = MediaValue(id: string, link: string)

  /** The HTTP request handed to the transport. */
  datatype HttpRequest = HttpRequest(
    httpMethod: string,
    url: string,
    contentType: string,
    authorization: string,
    body: SendMessageRequest
  )

  /**
   * What the transport gives back: the request could not be built
   * (`http.NewRequest` failed), it could not be sent (`client.Do` failed), or
   * a status code, status line and raw body.
   */
  datatype TransportResult =
    | RequestRejected(reason: string)
    | TransportFailed(reason: string)
    | Received(statusCode: int, statusLine: string, body: string)

  type Transport = HttpRequest -> TransportResult

  /** Whether a 200 body decodes as a send response. */
  type ResponseParser = string -> bool

  datatype SendError =
    | ConfigError                                  // credentials missing; nothing was sent
    | RequestError(reason: string)                 // the request could not be built
    | TransportError(reason: string)               // the request could not be sent
    | ApiError(statusLine: string, body: string)   // a status other than 200
    | ParseError                                   // a 200 whose body does not decode

  datatype SendResult = Sent | Failed(error: SendError)

  /** The requests handed to the transport (at most one) and the result returned to the caller. */
  datatype SendOutcome = SendOutcome(requests: seq<HttpRequest>, result: SendResult)

  const API_BASE: string := "https://graph.facebook.com/v18.0/"

  const CONFIG_ERROR_TEXT: string := "WHATSAPP_ACCESS_TOKEN" + " and WHATSAPP_PHONE_NUMBER_ID must be set"

  /**
   * The text of the error a send function returns. A build or send failure
   * keeps the underlying reason at the end of the text; the configuration
   * error is the fixed message.
   */
  function ErrorText(error: SendError): (r: string)
    ensures error.ConfigError? ==> r == CONFIG_ERROR_TEXT
    ensures error.RequestError? || error.TransportError? ==>
              |r| > |error.reason| && r[|r| - |error.reason|..] == error.reason
  {
    match error
    case ConfigError => CONFIG_ERROR_TEXT
    case RequestError(reason) => "failed to create request: " + reason
    case TransportError(reason) => "failed to send request: " + reason
    case ApiError(statusLine, body) => "API error: " + statusLine + " - " + body
    case ParseError => "failed to parse response"
  }

  /** An API error's text ends with the raw response body, unchanged, and holds the status line. */
  lemma ApiErrorTextKeepsBody(statusLine: string, body: string)
    ensures var t := ErrorText(ApiError(statusLine, body));
      |t| >= |body| && t[|t| - |body|..] == body &&
      t[|"API error: "|..|"API error: "| + |statusLine|] == statusLine
  {
  }

  /** The character that tells the failure kinds apart: the first, or the eleventh after "failed to ". */
  function KindMark(error: SendError): char {
    match error
    case ConfigError => 'W'
    case ApiError(_, _) => 'A'
    case RequestError(_) => 'c'
    case TransportError(_) => 's'
    case ParseError => 'p'
  }

  lemma ErrorTextMark(error: SendError)
    ensures |ErrorText(error)| > 10
    ensures error.ConfigError? || error.ApiError? ==> ErrorText(error)[0] == KindMark(error)
    ensures !error.ConfigError? && !error.ApiError? ==> ErrorText(error)[0] == 'f' && ErrorText(error)[10] == KindMark(error)
  {
    match error
    case ConfigError =>
      assert ErrorText(error) == CONFIG_ERROR_TEXT;
    case ApiError(statusLine, body) =>
      assert ErrorText(error)[0] == "API error: "[0];
    case RequestError(reason) =>
      assert ErrorText(error)[0] == 'f' && ErrorText(error)[10] == 'c';
    case TransportError(reason) =>
      assert ErrorText(error)[0] == 'f' && ErrorText(error)[10] == 's';
    case ParseError =>
  }

  /**
   * Apart from two API errors (whose status line and body may split the
   * same text differently), different failures have different texts: in
   * particular a request that could not be built is told apart from one
   * that could not be sent.
   */
  lemma ErrorTextInjective(e1: SendError, e2: SendError)
    requires !(e1.ApiError? && e2.ApiError?)
    requires ErrorText(e1) == ErrorText(e2)
    ensures e1 == e2
  {
    ErrorTextMark(e1);
    ErrorTextMark(e2);
    assert KindMark(e1) == KindMark(e2);
    if e1.RequestError? {
      var n := |"failed to create request: "|;
      assert e1.reason == ErrorText(e1)[n..] == e2.reason;
    } else if e1.TransportError? {
      var n := |"failed to send request: "|;
      assert e1.reason == ErrorText(e1)[n..] == e2.reason;
    }
  }

  // ---------------------------------------------------------------------------
  // Sending

  /** The authenticated POST to the messages endpoint of the configured phone number. */
  function PostRequest(cfg: Config, payload: SendMessageRequest): (r: HttpRequest)
    ensures r.httpMethod == "POST" && r.body == payload
    ensures r.url == API_BASE + cfg.phoneNumberId + "/messages"
    ensures r.authorization == "Bearer " + cfg.accessToken && r.contentType == "application/json"
  {
    HttpRequest("POST", API_BASE + cfg.phoneNumberId + "/messages", "application/json", "Bearer " + cfg.accessToken, payload)
  }

  /**
   * The part both send functions share: fail fast without credentials,
   * otherwise one request; any status other than 200 is an API error with the
   * raw body, a 200 whose body does not decode is a parse error.
   */
  function Deliver(cfg: Config, payload: SendMessageRequest, transport: Transport, parseOk: ResponseParser): (out: SendOutcome)
    ensures !CanSend(cfg) ==> out == SendOutcome([], Failed(ConfigError))
    ensures CanSend(cfg) ==> out.requests == [PostRequest(cfg, payload)]
    ensures out.result == Sent <==>
              CanSend(cfg) && transport(PostRequest(cfg, payload)).Received? &&
              transport(PostRequest(cfg, payload)).statusCode == 200 && parseOk(transport(PostRequest(cfg, payload)).body)
  {
    if !CanSend(cfg) then SendOutcome([], Failed(ConfigError))
    else
      var request := PostRequest(cfg, payload);
      var result :=
        match transport(request)
        case RequestRejected(reason) => Failed(RequestError(reason))
        case TransportFailed(reason) => Failed(TransportError(reason))
        case Received(code, statusLine, body) =>
          if code != 200 then Failed(ApiError(statusLine, body))
          else if !parseOk(body) then Failed(ParseError)
          else Sent;
      SendOutcome([request], result)
  }

  /** The request `sendTextMessage` builds. */
  function TextRequest(to: string, message: string): SendMessageRequest {
    SendMessageRequest("whatsapp", "individual", to, "text", Some(TextBody(message)), None)
  }

  /** The request `sendTemplateMessage` builds (no recipient type). */
  function TemplateRequest(to: string, templateName: string, languageCode: string, components: seq<TemplateComponent>): SendMessageRequest {
    SendMessageRequest("whatsapp", "", to, "template", None,
      Some(TemplateMessage(templateName, Some(TemplateLanguage(languageCode)), components)))
  }

  /** `sendTextMessage`: an individual text message whose body is `message`. */
  function SendTextMessage(cfg: Config, to: string, message: string, transport: Transport, parseOk: ResponseParser): (out: SendOutcome)
    ensures !CanSend(cfg) ==> out.requests == [] && out.result == Failed(ConfigError)
    ensures CanSend(cfg) ==> |out.requests| == 1
    ensures forall r :: r in out.requests ==>
              var b := r.body;
              b.messagingProduct == "whatsapp" && b.recipientType == "individual" && b.to == to &&
              b.messageType == "text" && b.text == Some(TextBody(message)) && b.template.None?
  {
    Deliver(cfg, TextRequest(to, message), transport, parseOk)
  }

  /** `sendTemplateMessage`: a template message; name, language and components are passed through unchanged. */
  function SendTemplateMessage(cfg: Config, to: string, templateName: string, languageCode: string,
                               components: seq<TemplateComponent>, transport: Transport, parseOk: ResponseParser): (out: SendOutcome)
    ensures !CanSend(cfg) ==> out.requests == [] && out.result == Failed(ConfigError)
    ensures CanSend(cfg) ==> |out.requests| == 1
    ensures forall r :: r in out.requests ==>
              var b := r.body;
              b.messagingProduct == "whatsapp" && b.to == to && b.messageType == "template" && b.text.None? &&
              b.template == Some(TemplateMessage(templateName, Some(TemplateLanguage(languageCode)), components))
  {
    Deliver(cfg, TemplateRequest(to, templateName, languageCode, components), transport, parseOk)
  }

  /** `sendHelloWorldTemplate`: the `hello_world` template in `en_US`, without components. */
  function SendHelloWorldTemplate(cfg: Config, to: string, transport: Transport, parseOk: ResponseParser): (out: SendOutcome)
    ensures forall r :: r in out.requests ==>
              r.body.template == Some(TemplateMessage("hello_world", Some(TemplateLanguage("en_US")), []))
    ensures |out.requests| == 1 <==> CanSend(cfg)
  {
    SendTemplateMessage(cfg, to, "hello_world", "en_US", [], transport, parseOk)
  }

  /** A plain-text template parameter. */
  function TextParameter(text: string): TemplateParameter {
    TemplateParameter("text", text, None, None, None, None, None)
  }

  /** `c` is the single `body` component built from `params`: one text parameter per string, in order. */
  predicate IsBodyComponent(c: TemplateComponent, params: seq<string>) {
    c.componentType == "body" && c.subType == "" && c.index.None? &&
    |c.parameters| == |params| &&
    forall i :: 0 <= i < |params| ==> c.parameters[i] == TextParameter(params[i])
  }

  /** `sendTemplateWithBodyParams`: builds the parameter list by appending, then sends one `body` component. */
  method SendTemplateWithBodyParams(cfg: Config, to: string, templateName: string, languageCode: string,
                                    params: seq<string>, transport: Transport, parseOk: ResponseParser)
    returns (out: SendOutcome)
    ensures exists c :: IsBodyComponent(c, params) &&
              out == SendTemplateMessage(cfg, to, templateName, languageCode, [c], transport, parseOk)
  {
    var parameters: seq<TemplateParameter> := [];
    for i := 0 to |params|
      invariant |parameters| == i
      invariant forall k :: 0 <= k < i ==> parameters[k] == TextParameter(params[k])
    {
      parameters := parameters + [TextParameter(params[i])];
    }
    var component := TemplateComponent("body", "", None, parameters);
    assert IsBodyComponent(component, params);
    out := SendTemplateMessage(cfg, to, templateName, languageCode, [component], transport, parseOk);
  }

  // ---------------------------------------------------------------------------
  // Properties of the protocol

  /** Without both credentials neither send function reaches the transport, whatever it would answer. */
  lemma MissingCredentialsNoCall(cfg: Config, to: string, message: string, templateName: string, languageCode: string,
                                 components: seq<TemplateComponent>, transport: Transport, parseOk: ResponseParser)
    requires cfg.accessToken == "" || cfg.phoneNumberId == ""
    ensures SendTextMessage(cfg, to, message, transport, parseOk) == SendOutcome([], Failed(ConfigError))
    ensures SendTemplateMessage(cfg, to, templateName, languageCode, components, transport, parseOk) ==
              SendOutcome([], Failed(ConfigError))
  {
  }

  /** A status other than 200 fails with the status line and the raw body, whatever the body is. */
  lemma NonOkStatusIsApiError(cfg: Config, payload: SendMessageRequest, transport: Transport, parseOk: ResponseParser)
    requires CanSend(cfg)
    requires transport(PostRequest(cfg, payload)).Received?
    requires transport(PostRequest(cfg, payload)).statusCode != 200
    ensures var answer := transport(PostRequest(cfg, payload));
      Deliver(cfg, payload, transport, parseOk).result == Failed(ApiError(answer.statusLine, answer.body))
  {
  }

  /** A 200 whose body does not decode is an error, not a success. */
  lemma UnparsableOkIsError(cfg: Config, payload: SendMessageRequest, transport: Transport, parseOk: ResponseParser)
    requires CanSend(cfg)
    requires transport(PostRequest(cfg, payload)).Received?
    requires transport(PostRequest(cfg, payload)).statusCode == 200
    requires !parseOk(transport(PostRequest(cfg, payload)).body)
    ensures Deliver(cfg, payload, transport, parseOk).result == Failed(ParseError)
  {
  }
}
