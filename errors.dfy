/** The error codes of the pipeline, their human-readable descriptions and
    the message and rendering rules of the pipeline's exception family. */
module Errors {
  import opened Wrappers

  /** One constructor per member of the `ErrorCode` enumeration. */
  datatype ErrorCode =
    ConfigFileNotFound
    | ConfigInvalidJson
    | ConfigVersionMismatch
    | ConfigMissingRequiredField
    | ConfigInvalidValue
    | BirdAuthFailed
    | BirdRateLimited
    | BirdNetworkError
    | BirdInvalidListId
    | BirdCommandFailed
    | BirdJsonParseError
    | LlmApiAuth
    | LlmRateLimited
    | LlmTimeout
    | LlmEmptyResponse
    | LlmInvalidResponse
    | LlmQuotaExceeded
    | ImageDownloadFailed
    | ImageEncodingFailed
    | ImageTooLarge
    | ImageInvalidFormat
    | DeliveryAuthFailed
    | DeliverySendFailed
    | DeliveryRateLimited
    | DeliveryMessageTooLong
    | DeliveryRecipientInvalid
    | DeliveryNetworkError
    | WhatsappGatewayUnavailable
    | WhatsappSessionExpired
    | WhatsappRecipientNotFound
    | TelegramBotBlocked
    | TelegramChatNotFound
    | StatusFileLocked
    | StatusFileCorrupt
    | WritePermissionDenied
    | ScriptException
    | DependencyMissing
    | EnvironmentInvalid

  /** The exception classes; they differ only in which handlers catch them. */
  datatype ErrorKind = Base | Config | Bird | Llm | Image | Delivery | Status

  /** An exception of the family: its class, its code and its message. */
  datatype XDigestError = XDigestError(kind: ErrorKind, code: ErrorCode, message: string)

  /** How an operation can end abnormally: one of the family's exceptions, or a
      built-in Python exception (named) that no handler catches. */
  datatype Failure = Raised(error: XDigestError) | Uncaught(exception: string)

  /** The enumeration value of a code, the string written in the enumeration. */
  function Value(c: ErrorCode): (r: string)
    ensures |r| > 0
  {
    match c
    case ConfigFileNotFound => "CONFIG_FILE_NOT_FOUND"
    case ConfigInvalidJson => "CONFIG_INVALID_JSON"
    case ConfigVersionMismatch => "CONFIG_VERSION_MISMATCH"
    case ConfigMissingRequiredField => "CONFIG_MISSING_REQUIRED_FIELD"
    case ConfigInvalidValue => "CONFIG_INVALID_VALUE"
    case BirdAuthFailed => "BIRD_AUTH_FAILED"
    case BirdRateLimited => "BIRD_RATE_LIMITED"
    case BirdNetworkError => "BIRD_NETWORK_ERROR"
    case BirdInvalidListId => "BIRD_INVALID_LIST_ID"
    case BirdCommandFailed => "BIRD_COMMAND_FAILED"
    case BirdJsonParseError => "BIRD_JSON_PARSE_ERROR"
    case LlmApiAuth => "LLM_API_AUTH"
    case LlmRateLimited => "LLM_RATE_LIMITED"
    case LlmTimeout => "LLM_TIMEOUT"
    case LlmEmptyResponse => "LLM_EMPTY_RESPONSE"
    case LlmInvalidResponse => "LLM_INVALID_RESPONSE"
    case LlmQuotaExceeded => "LLM_QUOTA_EXCEEDED"
    case ImageDownloadFailed => "IMAGE_DOWNLOAD_FAILED"
    case ImageEncodingFailed => "IMAGE_ENCODING_FAILED"
    case ImageTooLarge => "IMAGE_TOO_LARGE"
    case ImageInvalidFormat => "IMAGE_INVALID_FORMAT"
    case DeliveryAuthFailed => "DELIVERY_AUTH_FAILED"
    case DeliverySendFailed => "DELIVERY_SEND_FAILED"
    case DeliveryRateLimited => "DELIVERY_RATE_LIMITED"
    case DeliveryMessageTooLong => "DELIVERY_MESSAGE_TOO_LONG"
    case DeliveryRecipientInvalid => "DELIVERY_RECIPIENT_INVALID"
    case DeliveryNetworkError => "DELIVERY_NETWORK_ERROR"
    case WhatsappGatewayUnavailable => "WHATSAPP_GATEWAY_UNAVAILABLE"
    case WhatsappSessionExpired => "WHATSAPP_SESSION_EXPIRED"
    case WhatsappRecipientNotFound => "WHATSAPP_RECIPIENT_NOT_FOUND"
    case TelegramBotBlocked => "TELEGRAM_BOT_BLOCKED"
    case TelegramChatNotFound => "TELEGRAM_CHAT_NOT_FOUND"
    case StatusFileLocked => "STATUS_FILE_LOCKED"
    case StatusFileCorrupt => "STATUS_FILE_CORRUPT"
    case WritePermissionDenied => "WRITE_PERMISSION_DENIED"
    case ScriptException => "SCRIPT_EXCEPTION"
    case DependencyMissing => "DEPENDENCY_MISSING"
    case EnvironmentInvalid => "ENVIRONMENT_INVALID"
  }

  /** The entry of `ERROR_DESCRIPTIONS`; every code has one and none is empty. */
  function Description(c: ErrorCode): (r: string)
    ensures |r| > 0
  {
    match c
    case ConfigFileNotFound => "Configuration file not found in search paths"
    case ConfigInvalidJson => "Configuration file contains invalid JSON"
    case ConfigVersionMismatch => "Configuration version not supported"
    case ConfigMissingRequiredField => "Required configuration field missing"
    case ConfigInvalidValue => "Configuration field has invalid value"
    case BirdAuthFailed => "Twitter authentication failed (cookies expired)"
    case BirdRateLimited => "Twitter rate limit exceeded"
    case BirdNetworkError => "Network error fetching tweets"
    case BirdInvalidListId => "Twitter list ID not found or not accessible"
    case BirdCommandFailed => "bird CLI command failed"
    case BirdJsonParseError => "Failed to parse bird CLI output"
    case LlmApiAuth => "LLM API authentication failed"
    case LlmRateLimited => "LLM API rate limit exceeded"
    case LlmTimeout => "LLM API request timed out"
    case LlmEmptyResponse => "LLM returned empty response"
    case LlmInvalidResponse => "LLM response format invalid"
    case LlmQuotaExceeded => "LLM API quota exceeded"
    case ImageDownloadFailed => "Failed to download image(s)"
    case ImageEncodingFailed => "Failed to encode image for LLM"
    case ImageTooLarge => "Image file too large"
    case ImageInvalidFormat => "Unsupported image format"
    case DeliveryAuthFailed => "Message delivery authentication failed"
    case DeliverySendFailed => "Failed to send message"
    case DeliveryRateLimited => "Message delivery rate limited"
    case DeliveryMessageTooLong => "Message exceeds length limit"
    case DeliveryRecipientInvalid => "Invalid recipient identifier"
    case DeliveryNetworkError => "Network error during delivery"
    case WhatsappGatewayUnavailable => "WhatsApp gateway service unavailable"
    case WhatsappSessionExpired => "WhatsApp session expired (re-link needed)"
    case WhatsappRecipientNotFound => "Phone number not on WhatsApp"
    case TelegramBotBlocked => "Bot blocked by user"
    case TelegramChatNotFound => "Telegram chat not found"
    case StatusFileLocked => "Status file locked by another process"
    case StatusFileCorrupt => "Status file corrupted"
    case WritePermissionDenied => "Permission denied writing to file"
    case ScriptException => "Unhandled exception in script"
    case DependencyMissing => "Required dependency missing"
    case EnvironmentInvalid => "Invalid environment configuration"
  }

  /** `XDigestError(code, message)`: a missing or empty message is replaced by the
      code's description, any other message is kept verbatim. */
  function NewError(kind: ErrorKind, code: ErrorCode, message: Option<string>): (e: XDigestError)
    ensures e.kind == kind && e.code == code
    ensures message.Some? && message.value != "" ==> e.message == message.value
    ensures message.None? || message.value == "" ==> e.message == Description(code)
    ensures e.message != ""
  {
    XDigestError(kind, code, if message.Some? && message.value != "" then message.value else Description(code))
  }

  /** `str(err)`: the code's value in brackets, a space, the message. */
  function Str(e: XDigestError): (r: string)
    ensures var tag := "[" + Value(e.code) + "] ";
      |r| == |tag| + |e.message| && r[..|tag|] == tag && r[|tag|..] == e.message
  {
    var tag := "[" + Value(e.code) + "] ";
    assert (tag + e.message)[..|tag|] == tag;
    assert (tag + e.message)[|tag|..] == e.message;
    tag + e.message
  }
}
