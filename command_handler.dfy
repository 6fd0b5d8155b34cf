/** Replies to a text that starts with "/" (src/message_handler/command_handler.rs). */
module CommandHandler {
  import opened Telegram

  const START_COMMAND := "/start"

  /** The welcome text: "Welcom " (sic), the chat's name, then the invitation to send files. */
  function HandleStart(chat: Chat): (s: string)
    ensures |s| > 7 + |chat.name|
    ensures s[..7] == "Welcom " && s[7..7 + |chat.name|] == chat.name
  {
    "Welcom " + chat.name + ", Send me files to download"
  }

  /** The help text: it greets the chat by name and says to send "/start". */
  function HandleHelp(chat: Chat): (s: string)
    ensures |s| >= 4 + |chat.name| + 7 + |START_COMMAND|
    ensures s[..4] == "Hey " && s[4..4 + |chat.name|] == chat.name
    ensures s[4 + |chat.name| + 7..4 + |chat.name| + 7 + |START_COMMAND|] == START_COMMAND
  {
    var head := "Hey " + chat.name;
    var send := " \nsend ";
    var tail := send + START_COMMAND + " to start the bot \nsend files to download";
    assert |send| == 7;
    assert tail[|send|..|send| + |START_COMMAND|] == START_COMMAND;
    assert (head + tail)[|head| + 7..|head| + 7 + |START_COMMAND|] == tail[7..7 + |START_COMMAND|];
    head + tail
  }

  /**
   * One message to the chat the command came from: the welcome text exactly
   * when the text is "/start" (so "/start x" gets the help text), else the help text.
   */
  function HandleCommand(chat: Chat, message: Message): (e: Effect)
    ensures e.SendMessage? && e.chat == chat.id
    ensures e.text == HandleStart(chat) <==> message.text == START_COMMAND
    ensures message.text != START_COMMAND ==> e.text == HandleHelp(chat)
  {
    var response := if message.text == START_COMMAND then HandleStart(chat) else HandleHelp(chat);
    assert HandleStart(chat)[0] != HandleHelp(chat)[0];
    SendMessage(chat.id, response)
  }
}
