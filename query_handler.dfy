/** Answers a press of an inline button (src/message_handler/query_handler.rs). */
module QueryHandler {
  import opened Common
  import opened Telegram

  const INVALID_BUTTON := "Invalid Button"

  /**
   * The single answer to `query`. The first data byte selects the kind of button:
   * `downloadIdQuery` marks a cancel button, whose answer is what `cancelDownload`
   * (not part of this model, hence a parameter) returns for the whole payload.
   * Empty data and every other first byte are answered "Invalid Button".
   */
  function HandleQuery(query: CallbackQuery, downloadIdQuery: byte, cancelDownload: seq<byte> -> string): (e: Effect)
    ensures e.AnswerQuery? && e.query == query.id && e.answer.Some?
    ensures |query.data| == 0 ==> e.answer.value == INVALID_BUTTON
    ensures |query.data| > 0 && query.data[0] == downloadIdQuery ==> e.answer.value == cancelDownload(query.data)
    ensures |query.data| > 0 && query.data[0] != downloadIdQuery ==> e.answer.value == INVALID_BUTTON
  {
    var response := if |query.data| > 0 && query.data[0] == downloadIdQuery then cancelDownload(query.data) else INVALID_BUTTON;
    AnswerQuery(query.id, Some(response))
  }
}
