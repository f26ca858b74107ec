/** The Telegram Bot API provider: the length check, the request, and how the
    API's answer becomes a message id or a `DeliveryError`. As in the WhatsApp
    provider the HTTP call is a parameter; the response status is never
    consulted, only the decoded body. */
module Telegram {
  import opened Wrappers
  import opened Text
  import opened Json
  import opened Errors
  import opened Utils
  import opened DeliveryBase

  /** `max_message_length`. */
  const MaxMessageLength: int := 4096

  const ApiBase: string := "https://api.telegram.org/bot"

  datatype Payload = Payload(chatId: string, text: string, parseMode: string, disableWebPagePreview: bool)

  datatype Request = Request(url: string, payload: Payload)

  /** How `requests.post` followed by `response.json()` ends. */
  datatype Transport =
    | Response(body: Result<Json, string>)
    | TimedOut
    | RequestFailed(text: string)

  datatype SendOutcome = SendOutcome(request: Option<Request>, result: Result<string, XDigestError>)

  /** `base_url` followed by the method name. */
  function SendMessageUrl(botToken: string): (u: string)
    ensures |u| >= |ApiBase| && u[..|ApiBase|] == ApiBase && u[|ApiBase|..] == botToken + "/sendMessage"
  {
    ApiBase + botToken + "/sendMessage"
  }

  /** `recipient if recipient != self.chat_id else self.chat_id`. */
  function TargetChat(recipient: string, chatId: string): string {
    if recipient != chatId then recipient else chatId
  }

  /** Both arms of the choice give the recipient. */
  lemma TargetIsRecipient(recipient: string, chatId: string)
    ensures TargetChat(recipient, chatId) == recipient
  {
  }

  /** `_convert_formatting`: the message is passed through unchanged. */
  function ConvertFormatting(text: string): (r: string)
    ensures |r| == |text| && forall i :: 0 <= i < |text| ==> r[i] == text[i]
  {
    text
  }

  /** `error_code == n` for a decoded value (a boolean is 0 or 1). */
  predicate CodeIs(code: Json, n: int) {
    (code.JInt? && code.i == n) || (code.JBool? && n == (if code.b then 1 else 0))
  }

  /** `_map_telegram_error`; the description is lower-cased only in the 403
      and 400 branches, where a description that is not a string raises. */
  function MapTelegramError(code: Json, description: Json): (r: Result<ErrorCode, string>)
    ensures CodeIs(code, 401) ==> r == Ok(DeliveryAuthFailed)
    ensures CodeIs(code, 429) ==> r == Ok(DeliveryRateLimited)
    ensures !CodeIs(code, 401) && !CodeIs(code, 403) && !CodeIs(code, 400) && !CodeIs(code, 429) ==>
      r == Ok(DeliverySendFailed)
    ensures CodeIs(code, 403) && description.JStr? ==>
      r == Ok(if Contains(Lower(description.s), "blocked") then TelegramBotBlocked else DeliveryAuthFailed)
    ensures CodeIs(code, 400) && description.JStr? ==>
      var d := Lower(description.s);
      r == Ok(if Contains(d, "chat not found") then TelegramChatNotFound
              else if Contains(d, "message is too long") then DeliveryMessageTooLong
              else DeliverySendFailed)
    ensures r.Err? <==> (CodeIs(code, 403) || CodeIs(code, 400)) && !description.JStr?
  {
    if CodeIs(code, 401) then Ok(DeliveryAuthFailed)
    else if CodeIs(code, 403) then
      if !description.JStr? then Err(NoAttribute(description, "lower"))
      else if Contains(Lower(description.s), "blocked") then Ok(TelegramBotBlocked)
      else Ok(DeliveryAuthFailed)
    else if CodeIs(code, 400) then
      if !description.JStr? then Err(NoAttribute(description, "lower"))
      else if Contains(Lower(description.s), "chat not found") then Ok(TelegramChatNotFound)
      else if Contains(Lower(description.s), "message is too long") then Ok(DeliveryMessageTooLong)
      else Ok(DeliverySendFailed)
    else if CodeIs(code, 429) then Ok(DeliveryRateLimited)
    else Ok(DeliverySendFailed)
  }

  /** The text of the exception raised by `v[key]` when it fails. */
  function SubscriptFailure(v: Json, key: string): string {
    match v
    case JObj(_) => "'" + key + "'"
    case JArr(_) => "list indices must be integers or slices, not str"
    case JStr(_) => "string indices must be integers, not 'str'"
    case _ => "'" + TypeName(v) + "' object is not subscriptable"
  }

  /** `response_data["result"]["message_id"]`, or the text of what it raises. */
  function MessageId(data: map<string, Json>): (r: Result<Json, string>)
    ensures r.Ok? <==> "result" in data && data["result"].JObj? && "message_id" in data["result"].fields
    ensures r.Ok? ==> r.value == data["result"].fields["message_id"]
  {
    if "result" !in data then Err(SubscriptFailure(JObj(data), "result"))
    else
      var result := data["result"];
      if result.JObj? && "message_id" in result.fields then Ok(result.fields["message_id"])
      else Err(SubscriptFailure(result, "message_id"))
  }

  /** The message a `DeliveryError` is built with: the description when truthy. */
  function DescriptionText(description: Json): Option<string> {
    if Truthy(description) then Some(Render(description)) else None
  }

  /** The answer to a request. A refusal carries the mapped code and the API's
      description; a body that does not support these lookups surfaces as a
      send failure with the text of the exception. */
  function ReadResponse(t: Transport): (r: Result<string, XDigestError>)
    ensures r.Err? ==> r.error.kind == Delivery
    ensures t.TimedOut? ==> r == Err(DeliveryFailure(DeliveryNetworkError, Some("Telegram API timeout")))
    ensures r.Ok? <==> t.Response? && t.body.Ok? && t.body.value.JObj?
                       && Truthy(GetOrNull(t.body.value.fields, "ok")) && MessageId(t.body.value.fields).Ok?
    ensures r.Ok? ==> r.value == Render(MessageId(t.body.value.fields).value)
  {
    match t
    case TimedOut => Err(DeliveryFailure(DeliveryNetworkError, Some("Telegram API timeout")))
    case RequestFailed(text) => Err(DeliveryFailure(DeliveryNetworkError, Some(text)))
    case Response(body) =>
      match body
      case Err(text) => Err(DeliveryFailure(DeliveryNetworkError, Some(text)))
      case Ok(data) =>
        if !data.JObj? then Err(DeliveryFailure(DeliverySendFailed, Some(NoAttribute(data, "get"))))
        else if Truthy(GetOrNull(data.fields, "ok")) then
          match MessageId(data.fields)
          case Ok(id) => Ok(Render(id))
          case Err(text) => Err(DeliveryFailure(DeliverySendFailed, Some(text)))
        else
          var code := Get(data.fields, "error_code").GetOr(JInt(0));
          var description := Get(data.fields, "description").GetOr(JStr("Unknown error"));
          match MapTelegramError(code, description)
          case Ok(c) => Err(DeliveryFailure(c, DescriptionText(description)))
          case Err(text) => Err(DeliveryFailure(DeliverySendFailed, Some(text)))
  }

  /** A refusal without a code or a description is a send failure reading
      "Unknown error". */
  lemma BareRefusal(fields: map<string, Json>)
    requires !Truthy(GetOrNull(fields, "ok")) && "error_code" !in fields && "description" !in fields
    ensures ReadResponse(Response(Ok(JObj(fields)))) == Err(DeliveryFailure(DeliverySendFailed, Some("Unknown error")))
  {
  }

  /** A blocked bot is reported as such whatever the case of the description. */
  lemma BlockedReported(fields: map<string, Json>, description: string)
    requires !Truthy(GetOrNull(fields, "ok")) && Get(fields, "error_code") == Some(JInt(403))
    requires Get(fields, "description") == Some(JStr(description)) && description != ""
    requires Contains(Lower(description), "blocked")
    ensures ReadResponse(Response(Ok(JObj(fields)))) == Err(DeliveryFailure(TelegramBotBlocked, Some(description)))
  {
  }

  /** `send`: length first, then the request to the chat given. */
  function Send(botToken: string, chatId: string, recipient: string, message: string,
                post: Request -> Transport): (o: SendOutcome)
    ensures |message| > MaxMessageLength ==>
      o == SendOutcome(None, Err(DeliveryFailure(DeliveryMessageTooLong,
                                                 Some("Message too long: " + IntToString(|message|) + " chars"))))
    ensures o.request.Some? <==> |message| <= MaxMessageLength
    ensures o.request.Some? ==>
      o.request.value == Request(SendMessageUrl(botToken), Payload(recipient, message, "MarkdownV2", true))
      && o.result == ReadResponse(post(o.request.value))
  {
    var target := TargetChat(recipient, chatId);
    if |message| > MaxMessageLength then
      SendOutcome(None, Err(DeliveryFailure(DeliveryMessageTooLong,
                                            Some("Message too long: " + IntToString(|message|) + " chars"))))
    else
      var request := Request(SendMessageUrl(botToken), Payload(target, ConvertFormatting(message), "MarkdownV2", true));
      SendOutcome(Some(request), ReadResponse(post(request)))
  }
}
