/**
 * The part of the chat client that the handlers see, as plain values.
 * Client calls that send, reply, edit, delete or answer are not performed:
 * each one is recorded as an `Effect`, and a handler returns its effects in order.
 */
module Telegram {
  import opened Common

  datatype Chat = Chat(id: int, name: string)

  datatype Document = Document(name: string, size: nat)

  /** The media a message may carry; only documents matter to the bot. */
  datatype Media = DocumentMedia(document: Document) | OtherMedia

  datatype Message = Message(id: int, chat: Chat, text: string, outgoing: bool, media: Option<Media>)

  datatype CallbackQuery = CallbackQuery(id: int, chat: Chat, data: seq<byte>)

  datatype Update =
    | NewMessage(message: Message)
    | CallbackQueryUpdate(query: CallbackQuery)
    | OtherUpdate

  /** What one call of `next_update` yields: an update, or a stream error. */
  datatype StreamItem = Delivered(update: Update) | StreamError

  /** One result of `next_update`, with the abstract clock reading at which it arrives. */
  datatype Arrival = Arrival(at: int, item: StreamItem)

  /** An inline keyboard button: its label and its callback payload. */
  datatype Button = Button(text: string, data: seq<byte>)

  /** One client call. `buttons` is the inline keyboard passed with the call ([] for none);
      `answer` is the popup text of a callback answer (None for a plain answer). */
  datatype Effect =
    | SendMessage(chat: int, text: string)
    | ReplyTo(message: int, text: string, buttons: seq<seq<Button>>)
    | EditMessage(target: int, text: string, buttons: seq<seq<Button>>)
    | DeleteMessage(target: int)
    | AnswerQuery(query: int, answer: Option<string>)
}
