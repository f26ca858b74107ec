/** The WhatsApp gateway provider: the checks made before any request, the
    request itself, and how the gateway's answer becomes a message id or a
    `DeliveryError`. The HTTP call is a parameter from the request to its
    outcome; decoding a body that is not JSON is taken to raise `requests`'
    own decoding error, a `RequestException`. */
module WhatsApp {
  import opened Wrappers
  import opened Text
  import opened Json
  import opened Errors
  import opened Utils
  import opened DeliveryBase

  /** `max_message_length`. */
  const MaxMessageLength: int := 4000

  datatype Payload = Payload(channel: string, to: string, message: string)

  datatype Request = Request(url: string, payload: Payload)

  /** How `requests.post` ends: a response with its status and its body as
      `response.json()` would decode it (or the decoding error's text), a
      timeout, a connection failure, or another request error with its text. */
  datatype Transport =
    | Response(status: int, body: Result<Json, string>)
    | TimedOut
    | ConnectionFailed
    | RequestFailed(text: string)

  /** The request made, if any, and what `send` returns or raises. */
  datatype SendOutcome = SendOutcome(request: Option<Request>, result: Result<Json, XDigestError>)

  /** `recipient or self.default_recipient`, falsy when neither is a
      non-empty string. */
  function TargetRecipient(recipient: string, defaultRecipient: Option<string>): (r: Option<string>)
    ensures recipient != "" ==> r == Some(recipient)
    ensures recipient == "" ==> r == defaultRecipient
  {
    if recipient != "" then Some(recipient) else defaultRecipient
  }

  /** `_map_gateway_error`: case-insensitive substring tests, first match wins. */
  function MapGatewayError(error: string): (c: ErrorCode)
    ensures var u := Upper(error);
      && (c == WhatsappRecipientNotFound <==> Contains(u, "RECIPIENT_NOT_FOUND"))
      && (c == DeliveryRateLimited <==> !Contains(u, "RECIPIENT_NOT_FOUND") && Contains(u, "RATE_LIMITED"))
      && (c == WhatsappSessionExpired <==>
            !Contains(u, "RECIPIENT_NOT_FOUND") && !Contains(u, "RATE_LIMITED")
            && (Contains(u, "AUTH_FAILED") || Contains(u, "SESSION")))
      && (c == WhatsappGatewayUnavailable <==>
            !Contains(u, "RECIPIENT_NOT_FOUND") && !Contains(u, "RATE_LIMITED")
            && !Contains(u, "AUTH_FAILED") && !Contains(u, "SESSION") && Contains(u, "GATEWAY_UNAVAILABLE"))
      && (c == DeliveryMessageTooLong <==>
            !Contains(u, "RECIPIENT_NOT_FOUND") && !Contains(u, "RATE_LIMITED")
            && !Contains(u, "AUTH_FAILED") && !Contains(u, "SESSION") && !Contains(u, "GATEWAY_UNAVAILABLE")
            && Contains(u, "MESSAGE_TOO_LONG"))
      && c in {WhatsappRecipientNotFound, DeliveryRateLimited, WhatsappSessionExpired,
               WhatsappGatewayUnavailable, DeliveryMessageTooLong, DeliverySendFailed}
  {
    var u := Upper(error);
    if Contains(u, "RECIPIENT_NOT_FOUND") then WhatsappRecipientNotFound
    else if Contains(u, "RATE_LIMITED") then DeliveryRateLimited
    else if Contains(u, "AUTH_FAILED") || Contains(u, "SESSION") then WhatsappSessionExpired
    else if Contains(u, "GATEWAY_UNAVAILABLE") then WhatsappGatewayUnavailable
    else if Contains(u, "MESSAGE_TOO_LONG") then DeliveryMessageTooLong
    else DeliverySendFailed
  }

  lemma UpperOfLower(s: string)
    ensures Upper(Lower(s)) == Upper(s)
    ensures Upper(Upper(s)) == Upper(s)
  {
  }

  /** The mapping ignores case. */
  lemma MapGatewayErrorIgnoresCase(error: string)
    ensures MapGatewayError(Lower(error)) == MapGatewayError(error)
    ensures MapGatewayError(Upper(error)) == MapGatewayError(error)
  {
    UpperOfLower(error);
  }

  /** The answer to a request: on 200 the gateway's own verdict, otherwise
      the HTTP status; transport failures become network or gateway errors,
      and anything else that goes wrong is a send failure carrying the
      exception's text. */
  function ReadResponse(t: Transport): (r: Result<Json, XDigestError>)
    ensures r.Err? ==> r.error.kind == Delivery
    ensures t.Response? && t.status == 401 ==> r == Err(DeliveryFailure(DeliveryAuthFailed, None))
    ensures t.Response? && t.status == 429 ==> r == Err(DeliveryFailure(DeliveryRateLimited, None))
    ensures t.Response? && t.status == 503 ==> r == Err(DeliveryFailure(WhatsappGatewayUnavailable, None))
    ensures t.Response? && t.status !in {200, 401, 429, 503} ==>
      r == Err(DeliveryFailure(DeliverySendFailed, Some("HTTP " + IntToString(t.status))))
    ensures r.Ok? <==> t.Response? && t.status == 200 && t.body.Ok? && t.body.value.JObj?
                       && Truthy(GetOrNull(t.body.value.fields, "success"))
    ensures r.Ok? ==> r.value == Get(t.body.value.fields, "messageId").GetOr(JStr("unknown"))
  {
    match t
    case TimedOut => Err(DeliveryFailure(DeliveryNetworkError, Some("Gateway timeout")))
    case ConnectionFailed => Err(DeliveryFailure(WhatsappGatewayUnavailable, None))
    case RequestFailed(text) => Err(DeliveryFailure(DeliveryNetworkError, Some(text)))
    case Response(status, body) =>
      if status == 200 then
        match body
        case Err(text) => Err(DeliveryFailure(DeliveryNetworkError, Some(text)))
        case Ok(data) =>
          if !data.JObj? then Err(DeliveryFailure(DeliverySendFailed, Some(NoAttribute(data, "get"))))
          else if Truthy(GetOrNull(data.fields, "success")) then
            Ok(Get(data.fields, "messageId").GetOr(JStr("unknown")))
          else
            var error := Get(data.fields, "error").GetOr(JStr("Unknown error"));
            if !error.JStr? then Err(DeliveryFailure(DeliverySendFailed, Some(NoAttribute(error, "upper"))))
            else Err(DeliveryFailure(MapGatewayError(error.s), Some(error.s)))
      else if status == 401 then Err(DeliveryFailure(DeliveryAuthFailed, None))
      else if status == 429 then Err(DeliveryFailure(DeliveryRateLimited, None))
      else if status == 503 then Err(DeliveryFailure(WhatsappGatewayUnavailable, None))
      else Err(DeliveryFailure(DeliverySendFailed, Some("HTTP " + IntToString(status))))
  }

  /** A gateway refusal on a 200 carries the mapped code and the gateway's text. */
  lemma GatewayRefusal(fields: map<string, Json>, error: string)
    requires !Truthy(GetOrNull(fields, "success")) && Get(fields, "error") == Some(JStr(error))
    ensures ReadResponse(Response(200, Ok(JObj(fields)))) == Err(DeliveryFailure(MapGatewayError(error), Some(error)))
  {
  }

  /** `send`: recipient first, then length, then the request. */
  function Send(gatewayUrl: string, defaultRecipient: Option<string>, recipient: string, message: string,
                post: Request -> Transport): (o: SendOutcome)
    ensures var target := TargetRecipient(recipient, defaultRecipient);
      && (target.None? || target.value == "" ==>
            o == SendOutcome(None, Err(DeliveryFailure(DeliveryRecipientInvalid, Some("No recipient specified")))))
      && (target.Some? && target.value != "" && |message| > MaxMessageLength ==>
            o == SendOutcome(None, Err(DeliveryFailure(DeliveryMessageTooLong,
                                          Some("Message too long: " + IntToString(|message|) + " chars")))))
      && (o.request.Some? <==> target.Some? && target.value != "" && |message| <= MaxMessageLength)
      && (o.request.Some? ==>
            o.request.value == Request(gatewayUrl, Payload("whatsapp", target.value, message))
            && o.result == ReadResponse(post(o.request.value)))
  {
    var target := TargetRecipient(recipient, defaultRecipient);
    if target.None? || target.value == "" then
      SendOutcome(None, Err(DeliveryFailure(DeliveryRecipientInvalid, Some("No recipient specified"))))
    else if |message| > MaxMessageLength then
      SendOutcome(None, Err(DeliveryFailure(DeliveryMessageTooLong,
                                            Some("Message too long: " + IntToString(|message|) + " chars"))))
    else
      var request := Request(gatewayUrl, Payload("whatsapp", target.value, message));
      SendOutcome(Some(request), ReadResponse(post(request)))
  }

  /** A message of exactly the limit is sent. */
  lemma LimitIsAllowed(gatewayUrl: string, recipient: string, message: string, post: Request -> Transport)
    requires recipient != "" && |message| == MaxMessageLength
    ensures Send(gatewayUrl, None, recipient, message, post).request
         == Some(Request(gatewayUrl, Payload("whatsapp", recipient, message)))
  {
  }
}
