/**
 * The parts of the Telegram client library's update types that the bot reads.
 * A message's text is kept as its sequence of text elements (grapheme
 * clusters, as .NET's StringInfo segments it); the raw text is their
 * concatenation.
 */
module Telegram {
  import opened Base

  datatype User = User(id: int, languageCode: Option<string>)

  datatype Message = Message(
    messageId: int,
    chatId: int,
    from: Option<User>,
    text: Option<seq<string>>,
    photo: Option<seq<string>>)  // file ids of the photo sizes, smallest first

  datatype CallbackQuery = CallbackQuery(
    id: string,
    from: User,
    message: Option<Message>,
    data: Option<string>)

  /** An update carries a message, a callback query, or something the bot ignores. */
  datatype Update =
    | MessageUpdate(message: Message)
    | CallbackQueryUpdate(query: CallbackQuery)
    | OtherUpdate

  datatype BotCommand = BotCommand(command: string, description: string)

  datatype Button = Button(text: string, callbackData: string)

  /** Rows of inline keyboard buttons. */
  type Rows = seq<seq<Button>>

  /** The raw text: the concatenation of the text elements. */
  function Flatten(elements: seq<string>): (s: string)
    ensures elements == [] ==> s == ""
    ensures |elements| == 1 ==> s == elements[0]
  {
    if elements == [] then "" else elements[0] + Flatten(elements[1..])
  }

  /** `update.Message?.Text`, as raw text. */
  function MessageText(u: Update): Option<string>
  {
    if u.MessageUpdate? && u.message.text.Some? then Some(Flatten(u.message.text.value)) else None
  }
}
