/** Routes one update to the handler that deals with it (src/message_handler/default_handler.rs). */
module DefaultHandler {
  import opened Common
  import opened Telegram
  import Helper
  import CommandHandler

  const FALLBACK_TEXT := "Please Send a Message Media"

  /** The one thing `handle_update` does with an update. */
  datatype Dispatch =
    | Ignored                                         // not a new message, or one the bot sent
    | ToDocument(chat: Chat, document: Document)      // handed to `handle_document`
    | ToCommand(reply: Effect)                        // handled by `handle_command`, which sends `reply`
    | Fallback(reply: Effect)                         // any other incoming message

  /** An incoming message: a new message the bot did not send itself. */
  predicate Incoming(u: Update)
  {
    u.NewMessage? && !u.message.outgoing
  }

  /**
   * Exactly one branch per update. A document wins over a leading "/"; a
   * non-document text starting with "/" is a command; every other incoming
   * message gets the fallback reply; everything else is ignored.
   */
  function HandleUpdate(u: Update): (d: Dispatch)
    ensures d.Ignored? <==> !Incoming(u)
    ensures d.ToDocument? <==> Incoming(u) && Helper.GetDocument(u.message).Some?
    ensures d.ToDocument? ==> d.chat == u.message.chat && d.document == Helper.GetDocument(u.message).value
    ensures d.ToCommand? <==> Incoming(u) && Helper.GetDocument(u.message).None? && "/" <= u.message.text
    ensures d.ToCommand? ==> d.reply == CommandHandler.HandleCommand(u.message.chat, u.message)
    ensures d.Fallback? <==> Incoming(u) && Helper.GetDocument(u.message).None? && !("/" <= u.message.text)
    ensures d.Fallback? ==> d.reply == SendMessage(u.message.chat.id, FALLBACK_TEXT)
  {
    match u
    case NewMessage(message) =>
      if message.outgoing then Ignored
      else
        var chat := message.chat;
        var document := Helper.GetDocument(message);
        if document.Some? then ToDocument(chat, document.value)
        else if "/" <= message.text then ToCommand(CommandHandler.HandleCommand(chat, message))
        else Fallback(SendMessage(chat.id, FALLBACK_TEXT))
    case _ => Ignored
  }
}
