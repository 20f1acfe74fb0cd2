/**
 * The bot's exception hierarchy: a message, an optional error code, and the string form
 * `[code] message` that every subclass shares.
 */
module Exceptions {
  import opened Wrappers

  /** `BaseBotException(message, error_code=None)`: both arguments are stored as given. */
  datatype BotException = BotException(message: string, errorCode: Option<string>)

  /** The constructor, with `error_code` defaulting to `None`. */
  function NewBotException(message: string, errorCode: Option<string> := None): (e: BotException)
    ensures e.message == message && e.errorCode == errorCode
  {
    BotException(message, errorCode)
  }

  /** Python truthiness of the optional code: `None` and `""` are false. */
  predicate HasCode(e: BotException) {
    e.errorCode.Some? && e.errorCode.value != ""
  }

  /** `str(e)`. */
  function Str(e: BotException): (s: string)
    ensures HasCode(e) ==> |s| == |e.errorCode.value| + 3 + |e.message|
    ensures !HasCode(e) ==> s == e.message
  {
    if HasCode(e) then "[" + e.errorCode.value + "] " + e.message else e.message
  }

  // The subclasses only fix the code.
  function TelegramApiException(message: string): BotException { BotException(message, Some("TELEGRAM_API_ERROR")) }
  function SessionException(message: string): BotException { BotException(message, Some("SESSION_ERROR")) }
  function ChannelAccessException(message: string): BotException { BotException(message, Some("CHANNEL_ACCESS_ERROR")) }
  function ValidationException(message: string): BotException { BotException(message, Some("VALIDATION_ERROR")) }
  function TrafficLimitException(message: string): BotException { BotException(message, Some("TRAFFIC_LIMIT_ERROR")) }

  /** A coded exception prints as its code in brackets, one space, then the message, and both can be read back. */
  lemma StrWithCode(e: BotException)
    requires HasCode(e)
    ensures Str(e)[0] == '[' && Str(e)[|e.errorCode.value| + 1..|e.errorCode.value| + 3] == "] "
    ensures Str(e)[1..|e.errorCode.value| + 1] == e.errorCode.value
    ensures Str(e)[|e.errorCode.value| + 3..] == e.message
  {
  }

  /** Without a code (the default, or an empty one) the string is exactly the message. */
  lemma StrWithoutCode(message: string, code: Option<string>)
    requires code == None || code == Some("")
    ensures Str(NewBotException(message)) == message
    ensures Str(NewBotException(message, code)) == message
  {
  }

  /** Every subclass carries a non-empty code, so its string form is bracketed. */
  lemma SubclassesCoded(message: string)
    ensures HasCode(TelegramApiException(message)) && HasCode(SessionException(message))
    ensures HasCode(ChannelAccessException(message)) && HasCode(ValidationException(message))
    ensures HasCode(TrafficLimitException(message))
  {
  }
}
