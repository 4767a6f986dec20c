/**
 * What a user sees over one or several updates: the commands, the colour
 * choice, the text or photo that follows, and what the bot does with
 * updates it has no handler for.
 */
module Conversation {
  import opened Base
  import opened Telegram
  import opened CommandGrammar
  import opened Router
  import opened Strings
  import opened Keyboard
  import opened Renderer
  import opened QrFlow

  /** A message update from a known sender. */
  predicate FromSender(u: Update)
  {
    u.MessageUpdate? && u.message.from.Some?
  }

  /** `/start` lists the commands and drops whatever the sender was asked for before. */
  lemma StartListsCommands(s: BotState, botUsername: string, u: Update, io: Io)
    requires FromSender(u) && Spells(CommandText(u), "start", botUsername)
    ensures var m := u.message;
            HandleUpdateStep(s, botUsername, u, io) ==
              Step(BotState(s.pending - {m.from.value.id},
                            s.log + [SendCommandList(m.chatId, CommandListText(LangOf(m)), m.messageId)],
                            s.keyboard), Pass)
  {
    ParseCommandComplete(QrCommands(), botUsername, u, "start");
  }

  /**
   * `/gen_qr` leaves the sender awaiting a colour, whatever they awaited
   * before, and sends the colour keyboard once it is built.
   */
  lemma GenQrAwaitsColour(s: BotState, botUsername: string, u: Update, io: Io)
    requires FromSender(u) && Spells(CommandText(u), "gen_qr", botUsername) && s.keyboard.Some?
    ensures var m := u.message;
            HandleUpdateStep(s, botUsername, u, io) ==
              Step(BotState(s.pending[m.from.value.id := GetQrCodeData],
                            s.log + [SendKeyboard(m.chatId, ColorSchemeRequest, m.from.value.languageCode, s.keyboard.value)],
                            s.keyboard), Pass)
  {
    ParseCommandComplete(QrCommands(), botUsername, u, "gen_qr");
    RemoveThenSet(s.pending, u.message.from.value.id, GetQrCodeData);
  }

  /**
   * The first `/gen_qr` still leaves the sender awaiting a colour, but
   * building the keyboard fails on the button without a text: the failure is
   * swallowed, nothing is sent, and the partial keyboard stays cached.
   */
  lemma FirstGenQrSendsNothing(s: BotState, botUsername: string, u: Update, io: Io)
    requires FromSender(u) && Spells(CommandText(u), "gen_qr", botUsername) && s.keyboard.None?
    ensures var m := u.message;
            HandleUpdateStep(s, botUsername, u, io) ==
              Step(BotState(s.pending[m.from.value.id := GetQrCodeData], s.log,
                            MarkupGet(None, m.from.value.languageCode).cache), Pass)
  {
    var id := u.message.from.value.id;
    ParseCommandComplete(QrCommands(), botUsername, u, "gen_qr");
    var s1 := s.(pending := s.pending - {id});
    FirstKeyboardRaises(s1, u);
    RemoveThenSet(s.pending, id, GetQrCodeData);
  }

  /** The `gen_qr` handler on an empty cache: the pending entry and the partial keyboard stay, and it raises. */
  lemma FirstKeyboardRaises(s: BotState, u: Update)
    requires FromSender(u) && s.keyboard.None?
    ensures var user := u.message.from.value;
            GenerateCommandStep(s, u) ==
              Step(s.(pending := s.pending[user.id := GetQrCodeData], keyboard := MarkupGet(None, user.languageCode).cache),
                   Fail(KeyNotFoundException(Pink)))
  {
    FirstRequestRaises(u.message.from.value.languageCode);
  }

  /**
   * A message from a sender who awaits nothing and that spells no command
   * gets the command list, and nothing else changes.
   */
  lemma InvalidInputListsCommands(s: BotState, botUsername: string, u: Update, io: Io)
    requires FromSender(u) && u.message.from.value.id !in s.pending
    requires forall name :: name in QrCommands() ==> !Spells(CommandText(u), name, botUsername)
    ensures var m := u.message;
            HandleUpdateStep(s, botUsername, u, io) ==
              Step(Send(s, SendCommandList(m.chatId, CommandListText(LangOf(m)), m.messageId)), Pass)
  {
    if ParseCommand(QrCommands(), botUsername, u).Some? {
      var name := ParseCommandSound(QrCommands(), botUsername, u);
      assert false;
    }
  }

  /** `/scan` leaves the sender awaiting a photo, whatever they awaited before. */
  lemma ScanAwaitsPhoto(s: BotState, botUsername: string, u: Update, io: Io)
    requires FromSender(u) && Spells(CommandText(u), "scan", botUsername)
    ensures var m := u.message;
            HandleUpdateStep(s, botUsername, u, io) ==
              Step(BotState(s.pending[m.from.value.id := ScanBarcode],
                            s.log + [SendText(m.chatId, ScanRequest, m.from.value.languageCode, m.messageId)],
                            s.keyboard), Pass)
  {
    ParseCommandComplete(QrCommands(), botUsername, u, "scan");
    RemoveThenSet(s.pending, u.message.from.value.id, ScanBarcode);
  }

  /** A message from a sender that spells no registered command. */
  predicate Plain(botUsername: string, u: Update)
  {
    FromSender(u) && ParseCommand(QrCommands(), botUsername, u).None?
  }

  /**
   * While the sender awaits a colour, a plain message does nothing: the
   * continuation wants the colour the keyboard carries, which only a
   * button press supplies.
   */
  lemma TextWhileAwaitingColourIsIgnored(s: BotState, botUsername: string, u: Update, io: Io)
    requires Plain(botUsername, u) && u.message.from.value.id in s.pending
    requires s.pending[u.message.from.value.id] == GetQrCodeData
    ensures HandleUpdateStep(s, botUsername, u, io) == Step(s, Pass)
  {
  }

  /**
   * The text a sender awaiting a text sends is encoded with the colour
   * chosen, up to 512 text elements; a longer one is refused. Either way the
   * wait is over.
   */
  lemma TextIsEncoded(s: BotState, botUsername: string, u: Update, io: Io, color: string)
    requires Plain(botUsername, u) && u.message.text.Some?
    requires u.message.from.value.id in s.pending && s.pending[u.message.from.value.id] == GenerateBarcode(color)
    ensures var r, m := HandleUpdateStep(s, botUsername, u, io), u.message;
            var lang := m.from.value.languageCode;
            && r.outcome == Pass
            && r.state.pending == s.pending - {m.from.value.id}
            && r.state.keyboard == s.keyboard
            && (|m.text.value| <= MaxTextElements ==>
                  r.state.log == s.log + [SendPhoto(m.chatId, Flatten(m.text.value), GetRendererByColorName(color), lang, m.messageId)])
            && (|m.text.value| > MaxTextElements ==>
                  r.state.log == s.log + [SendText(m.chatId, TextTooLong, lang, m.messageId)])
  {
  }

  /** A message without text does not end the wait for a text. */
  lemma NonTextKeepsAwaitingText(s: BotState, botUsername: string, u: Update, io: Io, color: string)
    requires FromSender(u) && u.message.text.None?
    requires u.message.from.value.id in s.pending && s.pending[u.message.from.value.id] == GenerateBarcode(color)
    ensures var m := u.message;
            HandleUpdateStep(s, botUsername, u, io) ==
              Step(Send(s, SendText(m.chatId, TextMessageExpected, m.from.value.languageCode, m.messageId)), Pass)
  {
  }

  /** A message without a photo does not end the wait for a photo. */
  lemma NonPhotoKeepsAwaitingPhoto(s: BotState, botUsername: string, u: Update, io: Io)
    requires Plain(botUsername, u) && u.message.photo.None?
    requires u.message.from.value.id in s.pending && s.pending[u.message.from.value.id] == ScanBarcode
    ensures var m := u.message;
            HandleUpdateStep(s, botUsername, u, io) ==
              Step(Send(s, SendText(m.chatId, InvalidQrCodeImage, m.from.value.languageCode, m.messageId)), Pass)
  {
  }

  /**
   * A photo ends the wait for a photo. The bot answers with the decoded text,
   * or that it could not decode the image, unless the file has no path; a
   * photo message without sizes raises, and the failure is swallowed.
   */
  lemma PhotoIsScanned(s: BotState, botUsername: string, u: Update, io: Io)
    requires Plain(botUsername, u) && u.message.photo.Some?
    requires u.message.from.value.id in s.pending && s.pending[u.message.from.value.id] == ScanBarcode
    ensures var r, m := HandleUpdateStep(s, botUsername, u, io), u.message;
            var lang := m.from.value.languageCode;
            && r.outcome == Pass
            && r.state.pending == s.pending - {m.from.value.id}
            && r.state.keyboard == s.keyboard
            && (m.photo.value == [] || io.filePath.None? ==> r.state.log == s.log)
            && (m.photo.value != [] && io.filePath.Some? && io.decoded.None? ==>
                  r.state.log == s.log + [SendText(m.chatId, UnableToDecode, lang, m.messageId)])
            && (m.photo.value != [] && io.filePath.Some? && io.decoded.Some? ==>
                  r.state.log == s.log + [SendDecoded(m.chatId, io.decoded.value, lang, m.messageId)])
  {
  }

  /** A button press the router hands to the callback hook, on a text message, with colour data. */
  predicate ColourPress(u: Update)
  {
    IsRoutedCallback(u) && u.query.message.value.text.Some? && StartsWith(u.query.data.value, Prefix)
  }

  /**
   * Pressing a colour button answers the press, removes the keyboard,
   * confirms the colour, and leaves the CHAT awaiting the text, with that
   * colour. The presser's own entry is not touched unless the chat is the
   * presser's private chat.
   */
  lemma ColourChoice(s: BotState, botUsername: string, u: Update, io: Io)
    requires ColourPress(u) && u.query.data.value in Map
    ensures var q, m, data := u.query, u.query.message.value, u.query.data.value;
            var lang := q.from.languageCode;
            HandleUpdateStep(s, botUsername, u, io) ==
              Step(BotState(s.pending[m.chatId := GenerateBarcode(data)],
                            s.log + [AnswerCallback(q.id), ClearReplyMarkup(m.chatId, m.messageId),
                                     EditSelectedColor(m.chatId, m.messageId, data, lang),
                                     SendText(m.chatId, QrCodeDataRequest, lang, m.messageId)],
                            s.keyboard), Pass)
  {
  }

  /**
   * Colour data without a text in the table (the pink button) raises out of
   * the update handler, after the press was answered and the keyboard removed.
   */
  lemma UnknownColourRaises(s: BotState, botUsername: string, u: Update, io: Io)
    requires ColourPress(u) && u.query.data.value !in Map
    ensures var q, m := u.query, u.query.message.value;
            HandleUpdateStep(s, botUsername, u, io) ==
              Step(s.(log := s.log + [AnswerCallback(q.id), ClearReplyMarkup(m.chatId, m.messageId)]),
                   Fail(KeyNotFoundException(q.data.value)))
  {
  }

  /**
   * In a group chat the colour choice is stored under the chat, while the
   * router looks continuations up by sender: the presser still awaits a
   * colour, so the text they send next is ignored.
   */
  lemma {:induction false} GroupChatTextIsLost(s: BotState, botUsername: string, press: Update, text: Update, io: Io)
    requires ColourPress(press) && press.query.data.value in Map
    requires press.query.message.value.chatId != press.query.from.id
    requires press.query.from.id in s.pending && s.pending[press.query.from.id] == GetQrCodeData
    requires Plain(botUsername, text) && text.message.from.value.id == press.query.from.id
    ensures var s1 := HandleUpdateStep(s, botUsername, press, io).state;
            && s1.pending[press.query.message.value.chatId] == GenerateBarcode(press.query.data.value)
            && HandleUpdateStep(s1, botUsername, text, io) == Step(s1, Pass)
  {
    ColourChoice(s, botUsername, press, io);
    var s1 := HandleUpdateStep(s, botUsername, press, io).state;
    assert s1.pending[press.query.from.id] == GetQrCodeData;
    TextWhileAwaitingColourIsIgnored(s1, botUsername, text, io);
  }

  predicate EndsWith(log: seq<Reply>, last: Reply)
  {
    |log| > 0 && log[|log| - 1] == last
  }

  /**
   * In a private chat (chat id and user id coincide), `/gen_qr`, a colour
   * button and a short text produce the QR image in that colour, and the
   * user awaits nothing afterwards.
   */
  lemma {:induction false} PrivateChatRoundTrip(s: BotState, botUsername: string, gen: Update, press: Update, text: Update, io: Io)
    requires FromSender(gen) && Spells(CommandText(gen), "gen_qr", botUsername) && s.keyboard.Some?
    requires gen.message.chatId == gen.message.from.value.id
    requires ColourPress(press) && press.query.data.value in Map
    requires press.query.from.id == gen.message.from.value.id && press.query.message.value.chatId == gen.message.chatId
    requires Plain(botUsername, text) && text.message.from.value.id == gen.message.from.value.id
    requires text.message.text.Some? && |text.message.text.value| <= MaxTextElements
    ensures var s1 := HandleUpdateStep(s, botUsername, gen, io).state;
            var s2 := HandleUpdateStep(s1, botUsername, press, io).state;
            var r := HandleUpdateStep(s2, botUsername, text, io);
            var m := text.message;
            && r.outcome == Pass
            && r.state.pending == s.pending - {m.from.value.id}
            && EndsWith(r.state.log, SendPhoto(m.chatId, Flatten(m.text.value), GetRendererByColorName(press.query.data.value),
                                               m.from.value.languageCode, m.messageId))
  {
    var id := gen.message.from.value.id;
    GenQrThenColour(s, botUsername, gen, press, io);
    var s2 := HandleUpdateStep(HandleUpdateStep(s, botUsername, gen, io).state, botUsername, press, io).state;
    TextIsEncoded(s2, botUsername, text, io, press.query.data.value);
    SetThenRemove(s.pending, id, GenerateBarcode(press.query.data.value));
  }

  /** The first two updates of the round trip: the chat then awaits the text for the chosen colour. */
  lemma GenQrThenColour(s: BotState, botUsername: string, gen: Update, press: Update, io: Io)
    requires FromSender(gen) && Spells(CommandText(gen), "gen_qr", botUsername) && s.keyboard.Some?
    requires gen.message.chatId == gen.message.from.value.id
    requires ColourPress(press) && press.query.data.value in Map
    requires press.query.from.id == gen.message.from.value.id && press.query.message.value.chatId == gen.message.chatId
    ensures var s1 := HandleUpdateStep(s, botUsername, gen, io).state;
            HandleUpdateStep(s1, botUsername, press, io).state.pending ==
              s.pending[gen.message.from.value.id := GenerateBarcode(press.query.data.value)]
  {
    var id := gen.message.from.value.id;
    GenQrAwaitsColour(s, botUsername, gen, io);
    var s1 := HandleUpdateStep(s, botUsername, gen, io).state;
    ColourChoice(s1, botUsername, press, io);
  }

  /** Pressing the same colour button twice leaves the same continuations as pressing it once. */
  lemma {:induction false} RepeatedPressSettlesPending(s: BotState, botUsername: string, press: Update, io: Io)
    requires ColourPress(press) && press.query.data.value in Map
    ensures var s1 := HandleUpdateStep(s, botUsername, press, io).state;
            HandleUpdateStep(s1, botUsername, press, io).state.pending == s1.pending
  {
    ColourChoice(s, botUsername, press, io);
    var s1 := HandleUpdateStep(s, botUsername, press, io).state;
    ColourChoice(s1, botUsername, press, io);
  }

  /** Updates the router hands to nobody change nothing. */
  lemma UnroutedUpdateChangesNothing(s: BotState, botUsername: string, u: Update, io: Io)
    requires !IsRoutedCallback(u) && Sender(u).None?
    ensures HandleUpdateStep(s, botUsername, u, io) == Step(s, Pass)
  {
  }

  /**
   * The only exception that leaves the update handler is the missing text
   * of colour-prefixed callback data, raised by the callback hook.
   */
  lemma OnlyUnknownColoursRaise(s: BotState, botUsername: string, u: Update, io: Io)
    ensures var r := HandleUpdateStep(s, botUsername, u, io);
            r.outcome.Fail? <==> ColourPress(u) && u.query.data.value !in Map
    ensures var r := HandleUpdateStep(s, botUsername, u, io);
            r.outcome.Fail? ==> r.outcome == Fail(KeyNotFoundException(u.query.data.value))
  {
  }

  /**
   * A continuation the pending table may hold: a colour wait, a photo wait,
   * or a text wait for a colour key that has a text (not necessarily one on
   * the keyboard: the callback hook checks only the prefix and the table).
   */
  predicate Awaiting(a: Action)
  {
    || a == GetQrCodeData
    || a == ScanBarcode
    || (a.GenerateBarcode? && a.color in Map && StartsWith(a.color, Prefix))
  }

  predicate PendingWellFormed(pending: map<int, Action>)
  {
    forall k :: k in pending ==> Awaiting(pending[k])
  }

  /** Running a stored or command action, as the router does (without data), keeps the continuations well formed. */
  lemma InvokeKeepsPendingWellFormed(s: BotState, a: Action, u: Update, io: Io)
    requires PendingWellFormed(s.pending)
    ensures PendingWellFormed(InvokeStep(s, a, u, None, io).state.pending)
  {
  }

  /** A colour press stores a text wait only for colour-prefixed data that has a text. */
  lemma CallbackKeepsPendingWellFormed(s: BotState, u: Update, handler: Option<Action>)
    requires PendingWellFormed(s.pending)
    ensures PendingWellFormed(CallbackStep(s, u, handler).state.pending)
  {
  }

  /** Handling any update keeps every continuation one the bot can await. */
  lemma HandleUpdateKeepsPendingWellFormed(s: BotState, botUsername: string, u: Update, io: Io)
    requires PendingWellFormed(s.pending)
    ensures PendingWellFormed(HandleUpdateStep(s, botUsername, u, io).state.pending)
  {
    match Classify(QrCommands(), s.pending, botUsername, u)
    case CallbackRoute(_, handler) =>
      CallbackKeepsPendingWellFormed(s, u, handler);
    case CommandRoute(id, a) =>
      InvokeKeepsPendingWellFormed(s.(pending := s.pending - {id}), a, u, io);
    case PendingRoute(_, a) =>
      InvokeKeepsPendingWellFormed(s, a, u, io);
    case InvalidRoute =>
    case NoRoute =>
  }

  /** The colour of a text wait is one of the colour keys that have a text. */
  lemma {:induction false} AwaitedColourIsAColourKey(a: Action)
    requires Awaiting(a) && a.GenerateBarcode?
    ensures a.color in ColorKeys
  {
    MapHasOnlyKnownKeys();
    MessageKeysLackPrefix();
  }
}
