/**
 * Request/response helpers over the single update stream (src/utils/helper.rs).
 * The stream is a finite sequence of arrivals read from a cursor; the timeout
 * is a deadline on the same abstract clock as the arrivals. An arrival at or
 * after the deadline is never read: the wait has timed out by then.
 */
module Helper {
  import opened Common
  import opened Telegram

  const QUERY_TIMEOUT: nat := 30
  const FILE_NAME_TIMEOUT: nat := 60
  const TIMEOUT_TEXT := "Timeout, please try again"
  const DIRECTORY_PROMPT := "Choose a download directory:"
  const FILE_NAME_PROMPT := "Send File Name"

  /** A panic of the source, made visible as an outcome. */
  datatype HelperError = Panicked(reason: string)

  /** The outcome of a wait, and how many arrivals it read from the stream. */
  datatype Wait<T> = Matched(value: T, consumed: nat) | TimedOut(consumed: nat)

  function AsWait<T>(r: Option<T>, consumed: nat): Wait<T>
  {
    match r
    case Some(v) => Matched(v, consumed)
    case None => TimedOut(consumed)
  }

  function Later<T>(w: Wait<T>, k: nat): Wait<T>
  {
    match w
    case Matched(v, n) => Matched(v, n + k)
    case TimedOut(n) => TimedOut(n + k)
  }

  /** What an arrival offers to a waiter; stream errors offer nothing. */
  function Pick<T>(a: Arrival, select: Update -> Option<T>): Option<T>
  {
    match a.item
    case Delivered(u) => select(u)
    case StreamError => None
  }

  /**
   * Reference definition of waiting: read arrivals until one is selected,
   * stopping when the stream is exhausted or the next arrival is too late.
   */
  function AwaitMatch<T>(stream: seq<Arrival>, deadline: int, select: Update -> Option<T>): Wait<T>
    decreases |stream|
  {
    if stream == [] || stream[0].at >= deadline then TimedOut(0)
    else match Pick(stream[0], select)
      case Some(v) => Matched(v, 1)
      case None => Later(AwaitMatch(stream[1..], deadline, select), 1)
  }

  /**
   * A wait returns the FIRST selected arrival before the deadline, having read
   * everything before it; it times out exactly when nothing read was selected and
   * the stream ran out or the next arrival came at or after the deadline.
   */
  lemma {:induction false} AwaitMatchIsFirst<T>(stream: seq<Arrival>, deadline: int, select: Update -> Option<T>)
    ensures var w := AwaitMatch(stream, deadline, select);
      w.consumed <= |stream|
      && (forall j :: 0 <= j < w.consumed ==> stream[j].at < deadline)
      && (w.Matched? ==>
            0 < w.consumed && Pick(stream[w.consumed - 1], select) == Some(w.value)
            && forall j :: 0 <= j < w.consumed - 1 ==> Pick(stream[j], select).None?)
      && (w.TimedOut? ==>
            (w.consumed == |stream| || stream[w.consumed].at >= deadline)
            && forall j :: 0 <= j < w.consumed ==> Pick(stream[j], select).None?)
    decreases |stream|
  {
    if stream == [] || stream[0].at >= deadline {
    } else if Pick(stream[0], select).None? {
      var rest := stream[1..];
      AwaitMatchIsFirst(rest, deadline, select);
      assert forall j :: 1 <= j < |stream| ==> stream[j] == rest[j - 1];
    }
  }

  /** A callback query from chat `chatId`. */
  function SelectQuery(chatId: int, u: Update): Option<CallbackQuery>
  {
    match u
    case CallbackQueryUpdate(q) => if q.chat.id == chatId then Some(q) else None
    case _ => None
  }

  function QueryFrom(chatId: int): Update -> Option<CallbackQuery>
  {
    u => SelectQuery(chatId, u)
  }

  /** A new message from chat `chatId` that the bot did not send itself. */
  function SelectMessage(chatId: int, u: Update): Option<Message>
  {
    match u
    case NewMessage(m) => if !m.outgoing && m.chat.id == chatId then Some(m) else None
    case _ => None
  }

  function MessageFrom(chatId: int): Update -> Option<Message>
  {
    u => SelectMessage(chatId, u)
  }

  /** The cursor may move past `from` to `from + 1` when the arrival there is read and not selected. */
  lemma SkipArrival<T>(stream: seq<Arrival>, deadline: int, select: Update -> Option<T>, from: nat)
    requires from < |stream| && stream[from].at < deadline && Pick(stream[from], select).None?
    ensures Later(AwaitMatch(stream[from..], deadline, select), from)
            == Later(AwaitMatch(stream[from + 1..], deadline, select), from + 1)
  {
    assert stream[from..][1..] == stream[from + 1..];
  }

  /** Waits for the first callback query from `chatId` (helper.rs `get_callback_query_response`). */
  method GetCallbackQueryResponse(stream: seq<Arrival>, chatId: int, start: int, timeoutSeconds: nat)
    returns (r: Option<CallbackQuery>, consumed: nat)
    ensures AsWait(r, consumed) == AwaitMatch(stream, start + timeoutSeconds, QueryFrom(chatId))
    ensures r.Some? ==> r.value.chat.id == chatId
  {
    var deadline := start + timeoutSeconds;
    ghost var select := QueryFrom(chatId);
    r, consumed := None, 0;
    while consumed < |stream| && stream[consumed].at < deadline
      invariant consumed <= |stream|
      invariant AwaitMatch(stream, deadline, select) == Later(AwaitMatch(stream[consumed..], deadline, select), consumed)
      decreases |stream| - consumed
    {
      var arrival := stream[consumed];
      if arrival.item.Delivered? && arrival.item.update.CallbackQueryUpdate? {
        var query := arrival.item.update.query;
        if query.chat.id == chatId {
          r, consumed := Some(query), consumed + 1;
          return;
        }
      }
      SkipArrival(stream, deadline, select, consumed);
      consumed := consumed + 1;
    }
  }

  /** Waits for the next incoming message from `chatId` (helper.rs `get_next_message`). */
  method GetNextMessage(stream: seq<Arrival>, chatId: int, start: int, timeoutSeconds: nat)
    returns (r: Option<Message>, consumed: nat)
    ensures AsWait(r, consumed) == AwaitMatch(stream, start + timeoutSeconds, MessageFrom(chatId))
    ensures r.Some? ==> !r.value.outgoing && r.value.chat.id == chatId
  {
    var deadline := start + timeoutSeconds;
    ghost var select := MessageFrom(chatId);
    r, consumed := None, 0;
    while consumed < |stream| && stream[consumed].at < deadline
      invariant consumed <= |stream|
      invariant AwaitMatch(stream, deadline, select) == Later(AwaitMatch(stream[consumed..], deadline, select), consumed)
      decreases |stream| - consumed
    {
      var arrival := stream[consumed];
      if arrival.item.Delivered? && arrival.item.update.NewMessage? {
        var message := arrival.item.update.message;
        if !message.outgoing && message.chat.id == chatId {
          r, consumed := Some(message), consumed + 1;
          return;
        }
      }
      SkipArrival(stream, deadline, select, consumed);
      consumed := consumed + 1;
    }
  }

  /** The callback payload of the button for option `index`: `[index as u8]`, which wraps past 255. */
  function IndexPayload(index: nat): seq<byte>
  {
    [(index % 256) as byte]
  }

  /** One keyboard row per option, in order, each holding one button labelled with the option. */
  method BuildButtons(options: seq<string>) returns (buttons: seq<seq<Button>>)
    ensures |buttons| == |options|
    ensures forall k :: 0 <= k < |options| ==>
      buttons[k] == [Button(options[k], [(k % 256) as byte])]
  {
    buttons := [];
    var index := 0;
    while index < |options|
      invariant index <= |options| && |buttons| == index
      invariant forall k :: 0 <= k < index ==> buttons[k] == [Button(options[k], IndexPayload(k))]
    {
      buttons := buttons + [[Button(options[index], IndexPayload(index))]];
      index := index + 1;
    }
  }

  /**
   * What asking a query sends: the reply with one button per option, whose payload is the
   * option's index; then the timeout edit, or the answer and the deletion of the reply,
   * or nothing more when the press carries no payload.
   */
  predicate QueryEffects(message: Message, title: string, options: seq<string>, replyId: int,
                         w: Wait<CallbackQuery>, effects: seq<Effect>)
  {
    |effects| >= 1
    && effects[0].ReplyTo? && effects[0].message == message.id && effects[0].text == title
    && |effects[0].buttons| == |options|
    && (forall k :: 0 <= k < |options| ==> effects[0].buttons[k] == [Button(options[k], [(k % 256) as byte])])
    && match w
       case TimedOut(_) => effects[1..] == [EditMessage(replyId, TIMEOUT_TEXT, [])]
       case Matched(q, _) =>
         if q.data == [] then effects[1..] == []
         else effects[1..] == [AnswerQuery(q.id, None), DeleteMessage(replyId)]
  }

  /**
   * Replies to `message` with `title` and one button per option, then waits 30 s for a
   * button press in that chat (helper.rs `ask_query`). `replyId` is the id the client
   * gives the reply. On timeout the reply is edited to "Timeout, please try again" and
   * the answer is None; otherwise the press is answered, the reply deleted, and the
   * answer is the first payload byte. A press with an empty payload panics in the source.
   */
  method AskQuery(message: Message, title: string, options: seq<string>, replyId: int,
                  stream: seq<Arrival>, start: int)
    returns (r: Result<Option<byte>, HelperError>, effects: seq<Effect>, consumed: nat)
    ensures var w := AwaitMatch(stream, start + QUERY_TIMEOUT, QueryFrom(message.chat.id));
      consumed == w.consumed && QueryEffects(message, title, options, replyId, w, effects)
      && match w
         case TimedOut(_) => r == Ok(None)
         case Matched(q, _) => if q.data == [] then r.Err? else r == Ok(Some(q.data[0]))
  {
    var buttons := BuildButtons(options);
    effects := [ReplyTo(message.id, title, buttons)];
    var queryResult;
    queryResult, consumed := GetCallbackQueryResponse(stream, message.chat.id, start, QUERY_TIMEOUT);
    if queryResult.None? {
      effects := effects + [EditMessage(replyId, TIMEOUT_TEXT, [])];
      return Ok(None), effects, consumed;
    }
    var query := queryResult.value;
    if query.data == [] {
      return Err(Panicked("index out of bounds: the len is 0 but the index is 0")), effects, consumed;
    }
    var chosenOption := query.data[0];
    effects := effects + [AnswerQuery(query.id, None), DeleteMessage(replyId)];
    r := Ok(Some(chosenOption));
  }

  /**
   * The download directory (helper.rs `get_directory`): the only one when exactly one is
   * configured, without asking; otherwise the one whose button is pressed, None on timeout.
   * A payload byte past the end of the list panics in the source.
   */
  method GetDirectory(message: Message, directories: seq<string>, replyId: int,
                      stream: seq<Arrival>, start: int)
    returns (r: Result<Option<string>, HelperError>, effects: seq<Effect>, consumed: nat)
    ensures |directories| == 1 ==> r == Ok(Some(directories[0])) && effects == [] && consumed == 0
    ensures |directories| != 1 ==>
      var w := AwaitMatch(stream, start + QUERY_TIMEOUT, QueryFrom(message.chat.id));
      consumed == w.consumed && QueryEffects(message, DIRECTORY_PROMPT, directories, replyId, w, effects)
      && match w
         case TimedOut(_) => r == Ok(None)
         case Matched(q, _) =>
           if q.data == [] || q.data[0] as int >= |directories| then r.Err?
           else r == Ok(Some(directories[q.data[0]]))
  {
    if |directories| == 1 {
      return Ok(Some(directories[0])), [], 0;
    }
    var chosen;
    chosen, effects, consumed := AskQuery(message, DIRECTORY_PROMPT, directories, replyId, stream, start);
    if chosen.Err? {
      return Err(chosen.error), effects, consumed;
    }
    if chosen.value.None? {
      return Ok(None), effects, consumed;
    }
    var index := chosen.value.value;
    if index as int >= |directories| {
      return Err(Panicked("index out of bounds")), effects, consumed;
    }
    r := Ok(Some(directories[index]));
  }

  /**
   * Asks for a file name (helper.rs `get_custom_file_name`): replies "Send File Name",
   * waits 60 s for the next incoming message of the chat, and returns its text after
   * deleting both that message and the prompt; on timeout returns None and the prompt stays.
   */
  method GetCustomFileName(message: Message, promptId: int, stream: seq<Arrival>, start: int)
    returns (r: Option<string>, effects: seq<Effect>, consumed: nat)
    ensures var w := AwaitMatch(stream, start + FILE_NAME_TIMEOUT, MessageFrom(message.chat.id));
      consumed == w.consumed
      && match w
         case TimedOut(_) => r == None && effects == [ReplyTo(message.id, FILE_NAME_PROMPT, [])]
         case Matched(m, _) =>
           r == Some(m.text)
           && effects == [ReplyTo(message.id, FILE_NAME_PROMPT, []), DeleteMessage(m.id), DeleteMessage(promptId)]
  {
    effects := [ReplyTo(message.id, FILE_NAME_PROMPT, [])];
    var response;
    response, consumed := GetNextMessage(stream, message.chat.id, start, FILE_NAME_TIMEOUT);
    if response.None? {
      return None, effects, consumed;
    }
    effects := effects + [DeleteMessage(response.value.id), DeleteMessage(promptId)];
    r := Some(response.value.text);
  }

  /** The document a message carries, if its media is a document (helper.rs and default_handler.rs `get_document`). */
  function GetDocument(message: Message): (d: Option<Document>)
    ensures d.Some? <==> message.media.Some? && message.media.value.DocumentMedia?
    ensures d.Some? ==> d.value == message.media.value.document
  {
    match message.media
    case Some(media) =>
      (match media
       case DocumentMedia(document) => Some(document)
       case _ => None)
    case None => None
  }
}
