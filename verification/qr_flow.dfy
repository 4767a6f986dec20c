/**
 * The QR bot built on the router: the commands `start`, `gen_qr` and `scan`,
 * and the conversation that follows them. Handlers are the defunctionalised
 * `Action`s the router stores; each handler is specified by a step function
 * on the bot's state (the pending table, the log of replies sent, and the
 * cached colour keyboard), and the class below runs them in place.
 */
module QrFlow {
  import opened Base
  import opened Telegram
  import opened CommandGrammar
  import opened Router
  import opened Strings
  import opened Keyboard
  import opened Renderer

  /** The longest text, in text elements, that the bot encodes. */
  const MaxTextElements := 512

  /** The handlers, with the colour that the text-awaiting continuation captures. */
  datatype Action =
    | ListCommands
    | GenerateCommand
    | ScanCommand
    | GetQrCodeData
    | GenerateBarcode(color: string)
    | ScanBarcode

  /** A call to the chat platform, with string-table keys standing for the texts sent. */
  datatype Reply =
    | SendText(chatId: int, key: string, lang: Option<string>, replyTo: int)
    | SendDecoded(chatId: int, decoded: string, lang: Option<string>, replyTo: int)  // DecodedText with the result filled in
    | SendKeyboard(chatId: int, key: string, lang: Option<string>, keyboard: Rows)
    | SendCommandList(chatId: int, text: string, replyTo: int)
    | SendPhoto(chatId: int, encoded: string, renderer: BitmapRenderer, captionLang: Option<string>, replyTo: int)
    | AnswerCallback(queryId: string)
    | ClearReplyMarkup(chatId: int, messageId: int)
    | EditSelectedColor(chatId: int, messageId: int, colorKey: string, lang: Option<string>)
    | SetMyCommands(commands: seq<BotCommand>, languageCode: Option<string>)

  /** What the platform's file service and the barcode decoder answer while a photo is scanned. */
  datatype Io = Io(filePath: Option<string>, decoded: Option<string>)

  datatype BotState = BotState(pending: map<int, Action>, log: seq<Reply>, keyboard: Option<Rows>)

  datatype Step = Step(state: BotState, outcome: Outcome<Exception>)

  /** The command table the bot registers at construction. */
  function QrCommands(): map<string, Command<Action>>
  {
    map[
      "start" := Command(StartCommandDescription, ListCommands),
      "gen_qr" := Command(GenerateCommandDescription, GenerateCommand),
      "scan" := Command(ScanCommandDescription, ScanCommand)]
  }

  const CommandNames: seq<string> := ["start", "gen_qr", "scan"]

  /** The command list with description keys, in registration order. */
  function CommandListing(): seq<BotCommand>
  {
    [BotCommand("start", StartCommandDescription),
     BotCommand("gen_qr", GenerateCommandDescription),
     BotCommand("scan", ScanCommandDescription)]
  }

  /** Whether every description of `items` is a key of the string table. */
  predicate DescriptionsKnown(items: seq<BotCommand>)
  {
    forall i :: 0 <= i < |items| ==> items[i].description in Map
  }

  /** Each description key replaced by its text in the language of `lang`. */
  function Localize(items: seq<BotCommand>, lang: Option<string>): seq<BotCommand>
    requires DescriptionsKnown(items)
  {
    seq(|items|, i requires 0 <= i < |items| => BotCommand(items[i].command, Localized(items[i].description, lang)))
  }

  /** The command list as published for the language of `lang`. */
  function LocalizedListing(lang: Option<string>): seq<BotCommand>
  {
    ListingKnown();
    Localize(CommandListing(), lang)
  }

  /** The descriptions and the heading the command list uses are all in the string table. */
  lemma ListingKnown()
    ensures DescriptionsKnown(CommandListing())
    ensures AvailableCommandsInfo in Map
  {
    MapKeys();
  }

  /**
   * The published list names the three commands in registration order, each
   * with its description in the requested language.
   */
  lemma PublishedListing(lang: Option<string>)
    ensures var r := LocalizedListing(lang);
            && |r| == |CommandNames|
            && (forall i :: 0 <= i < |r| ==> r[i].command == CommandNames[i])
            && (forall i :: 0 <= i < |r| ==> GetLocalizedString(CommandListing()[i].description, lang) == Success(r[i].description))
  {
    ListingKnown();
    var r := LocalizedListing(lang);
    forall i | 0 <= i < |r|
      ensures GetLocalizedString(CommandListing()[i].description, lang) == Success(r[i].description)
    {
      assert r[i] == BotCommand(CommandListing()[i].command, Localized(CommandListing()[i].description, lang));
    }
  }

  /** An example of the Russian list: a client with code "ru" reads the /gen_qr description in Russian. */
  lemma RussianListing()
    ensures LocalizedListing(Some("ru"))[1].description == "Сгенерировать новый QR-код"
  {
    ListingKnown();
  }

  /** Every language but "ru" gets the English list. */
  lemma OtherLanguagesListing(lang: Option<string>)
    requires lang != Some("ru")
    ensures LocalizedListing(lang) == LocalizedListing(None)
  {
    ListingKnown();
    var r, e := LocalizedListing(lang), LocalizedListing(None);
    forall i | 0 <= i < |r|
      ensures r[i] == e[i]
    {
      assert GetLangIndex(lang) == GetLangIndex(None);
    }
  }

  /** The router's command list, read back from the registered table, is the listing. */
  lemma ListingOfTable(items: seq<BotCommand>, commands: map<string, Command<Action>>, names: seq<string>)
    requires commands == QrCommands() && names == CommandNames && |items| == |names|
    requires forall i :: 0 <= i < |items| ==> items[i].command == names[i]
    requires forall i :: 0 <= i < |items| ==> items[i].command in commands && items[i].description == commands[items[i].command].description
    ensures items == CommandListing()
  {
    assert items[0] == CommandListing()[0];
    assert items[1] == CommandListing()[1];
    assert items[2] == CommandListing()[2];
  }

  lemma CommandNamesAreLowercase()
    ensures Lower("start") == "start" && Lower("gen_qr") == "gen_qr" && Lower("scan") == "scan"
  {
  }

  /** One line per command, `/name - description`, in order. */
  function CommandLines(items: seq<BotCommand>): string
  {
    if items == [] then ""
    else CommandLines(items[..|items| - 1]) + "/" + items[|items| - 1].command + " - " + items[|items| - 1].description + "\n"
  }

  /** The string builder's loop: one `/name - description` line per command appended to `heading`, in order. */
  method AppendCommandLines(heading: string, items: seq<BotCommand>) returns (text: string)
    ensures text == heading + CommandLines(items)
  {
    text := heading;
    var i := 0;
    while i < |items|
      invariant 0 <= i <= |items|
      invariant text == heading + CommandLines(items[..i])
    {
      assert items[..i + 1][..i] == items[..i];
      text := text + "/" + items[i].command + " - " + items[i].description + "\n";
      i := i + 1;
    }
    assert items[..i] == items;
  }

  /** The reply to `start` and to unmatched input: a heading, a blank line, and the command lines. */
  function CommandListText(lang: Option<string>): string
  {
    ListingKnown();
    Localized(AvailableCommandsInfo, lang) + "\n" + "\n" + CommandLines(LocalizedListing(lang))
  }

  /** `update.Message.From?.LanguageCode`. */
  function LangOf(m: Message): Option<string>
  {
    if m.from.Some? then m.from.value.languageCode else None
  }

  function Send(s: BotState, r: Reply): BotState
  {
    s.(log := s.log + [r])
  }

  // ---- The handlers, as steps on the bot state ----

  /** `start` and the unmatched-input hook: reply to a message with the command list. */
  function ListCommandsStep(s: BotState, u: Update): (r: Step)
    ensures r.outcome == Pass && r.state.pending == s.pending && r.state.keyboard == s.keyboard
  {
    if !u.MessageUpdate? then Step(s, Pass)
    else
      var m := u.message;
      Step(Send(s, SendCommandList(m.chatId, CommandListText(LangOf(m)), m.messageId)), Pass)
  }

  /**
   * `gen_qr`: the sender now awaits a colour; the reply carries the colour
   * keyboard. Building the keyboard may raise, after the pending entry is set.
   */
  function GenerateCommandStep(s: BotState, u: Update): (r: Step)
  {
    if !(u.MessageUpdate? && u.message.from.Some?) then Step(s, Pass)
    else
      var m, user := u.message, u.message.from.value;
      var pending := s.pending[user.id := GetQrCodeData];
      var c := MarkupGet(s.keyboard, user.languageCode);
      match c.result
      case Failure(e) => Step(s.(pending := pending, keyboard := c.cache), Fail(e))
      case Success(rows) =>
        Step(BotState(pending, s.log + [SendKeyboard(m.chatId, ColorSchemeRequest, user.languageCode, rows)], c.cache), Pass)
  }

  /** The colour-awaiting continuation: with a colour, the chat now awaits the text to encode. */
  function GetQrCodeDataStep(s: BotState, u: Update, data: Option<string>): (r: Step)
  {
    if data.Some? && u.MessageUpdate? then
      var m := u.message;
      Step(Send(s.(pending := s.pending[m.chatId := GenerateBarcode(data.value)]),
                SendText(m.chatId, QrCodeDataRequest, LangOf(m), m.messageId)), Pass)
    else Step(s, Pass)
  }

  /** `scan`: the sender now awaits a photo. */
  function ScanCommandStep(s: BotState, u: Update): (r: Step)
  {
    if u.MessageUpdate? && u.message.from.Some? then
      var m, user := u.message, u.message.from.value;
      Step(Send(s.(pending := s.pending[user.id := ScanBarcode]),
                SendText(m.chatId, ScanRequest, user.languageCode, m.messageId)), Pass)
    else Step(s, Pass)
  }

  /**
   * The photo-awaiting continuation: a photo ends the wait and is decoded;
   * anything else is refused and the wait goes on.
   */
  function ScanBarcodeStep(s: BotState, u: Update, io: Io): (r: Step)
  {
    if !u.MessageUpdate? then Step(s, Pass)
    else
      var m := u.message;
      if m.from.Some? && m.photo.Some? then
        var s1 := s.(pending := s.pending - {m.from.value.id});
        var lang := m.from.value.languageCode;
        if m.photo.value == [] then Step(s1, Fail(InvalidOperationException))
        else if io.filePath.None? then Step(s1, Pass)
        else match io.decoded
          case None => Step(Send(s1, SendText(m.chatId, UnableToDecode, lang, m.messageId)), Pass)
          case Some(t) => Step(Send(s1, SendDecoded(m.chatId, t, lang, m.messageId)), Pass)
      else Step(Send(s, SendText(m.chatId, InvalidQrCodeImage, LangOf(m), m.messageId)), Pass)
  }

  /**
   * The text-awaiting continuation, with the colour it captured: a text
   * message ends the sender's wait and is encoded, unless it is longer than
   * 512 text elements; a message without text is refused and the wait goes on.
   */
  function GenerateBarcodeStep(s: BotState, u: Update, color: string): (r: Step)
  {
    if u.MessageUpdate? && u.message.text.Some? && u.message.from.Some? then
      var m, user := u.message, u.message.from.value;
      var s1 := s.(pending := s.pending - {user.id});
      if |m.text.value| > MaxTextElements then
        Step(Send(s1, SendText(m.chatId, TextTooLong, user.languageCode, m.messageId)), Pass)
      else
        Step(Send(s1, SendPhoto(m.chatId, Flatten(m.text.value), GetRendererByColorName(color),
                                user.languageCode, m.messageId)), Pass)
    else if !u.MessageUpdate? then Step(s, Pass)
    else
      var m := u.message;
      Step(Send(s, SendText(m.chatId, TextMessageExpected, LangOf(m), m.messageId)), Pass)
  }

  /**
   * The callback hook. A colour button on a text message: answer it, clear
   * the keyboard, confirm the colour, then run the colour-awaiting
   * continuation on the button's message as if the presser had sent it. The
   * pending handler the router passes in is not used.
   */
  function CallbackStep(s: BotState, u: Update, pendingHandler: Option<Action>): (r: Step)
  {
    if !(u.CallbackQueryUpdate? && u.query.message.Some? && u.query.data.Some?) then Step(s, Pass)
    else
      var q, m, data := u.query, u.query.message.value, u.query.data.value;
      if m.text.Some? && StartsWith(data, Prefix) then
        var lang := q.from.languageCode;
        var s1 := Send(Send(s, AnswerCallback(q.id)), ClearReplyMarkup(m.chatId, m.messageId));
        match GetLocalizedString(data, lang)
        case Failure(e) => Step(s1, Fail(e))
        case Success(_) =>
          var s2 := Send(s1, EditSelectedColor(m.chatId, m.messageId, data, lang));
          GetQrCodeDataStep(s2, MessageUpdate(m.(from := Some(q.from))), Some(data))
      else Step(s, Pass)
  }

  function InvokeStep(s: BotState, a: Action, u: Update, data: Option<string>, io: Io): Step
  {
    match a
    case ListCommands => ListCommandsStep(s, u)
    case GenerateCommand => GenerateCommandStep(s, u)
    case ScanCommand => ScanCommandStep(s, u)
    case GetQrCodeData => GetQrCodeDataStep(s, u, data)
    case GenerateBarcode(color) => GenerateBarcodeStep(s, u, color)
    case ScanBarcode => ScanBarcodeStep(s, u, io)
  }

  /**
   * Handling one update. Exceptions of a command or a pending continuation
   * are caught (what they changed before raising stays); those of the
   * callback hook are not.
   */
  function HandleUpdateStep(s: BotState, botUsername: string, u: Update, io: Io): Step
  {
    match Classify(QrCommands(), s.pending, botUsername, u)
    case CallbackRoute(_, handler) => CallbackStep(s, u, handler)
    case CommandRoute(id, a) => Step(InvokeStep(s.(pending := s.pending - {id}), a, u, None, io).state, Pass)
    case PendingRoute(_, a) => Step(InvokeStep(s, a, u, None, io).state, Pass)
    case InvalidRoute => ListCommandsStep(s, u)
    case NoRoute => Step(s, Pass)
  }

  /**
   * The QR bot: the router with the three commands registered, the shared
   * colour keyboard, and the replies sent so far. Each handler is a method
   * whose effect on `State()` is its step function.
   */
  class QrBotHandler {
    const router: BotUpdateHandler<Action>
    const colorSelection: ColorSelectionMarkup
    /** The calls made to the chat platform so far, oldest first. */
    var log: seq<Reply>

    ghost predicate Valid()
      reads router
    {
      router.Valid() && router.commands == QrCommands() && router.names == CommandNames
    }

    ghost function State(): BotState
      reads this, router, colorSelection, colorSelection.markup
    {
      BotState(router.pending, log, colorSelection.View())
    }

    /** Registers the commands, then publishes the command list in English (the default) and in Russian. */
    constructor(botUsername: string, colorSelection: ColorSelectionMarkup)
      ensures Valid() && router.botUsername == botUsername && router.pending == map[]
      ensures this.colorSelection == colorSelection && fresh(router)
      ensures log == [SetMyCommands(LocalizedListing(Some("en")), None),
                      SetMyCommands(LocalizedListing(Some("ru")), Some("ru"))]
    {
      router := new BotUpdateHandler<Action>(botUsername);
      this.colorSelection := colorSelection;
      log := [];
      new;
      RegisterCommands();
      PublishCommands();
    }

    /** The three `DefineCommand` calls of the constructor; none of them can fail. */
    method RegisterCommands()
      requires router.Valid() && router.commands == map[] && router.names == []
      modifies router
      ensures Valid() && router.pending == old(router.pending)
    {
      CommandNamesAreLowercase();
      var o := router.DefineCommand("start", StartCommandDescription, ListCommands);
      o := router.DefineCommand("gen_qr", GenerateCommandDescription, GenerateCommand);
      o := router.DefineCommand("scan", ScanCommandDescription, ScanCommand);
    }

    method PublishCommands()
      requires Valid()
      modifies this
      ensures log == old(log) + [SetMyCommands(LocalizedListing(Some("en")), None),
                                 SetMyCommands(LocalizedListing(Some("ru")), Some("ru"))]
    {
      var en := GetCommands(Some("en"));
      log := log + [SetMyCommands(en, None)];
      var ru := GetCommands(Some("ru"));
      log := log + [SetMyCommands(ru, Some("ru"))];
    }

    /** The registered commands, each description in the language of `lang`. */
    method GetCommands(lang: Option<string>) returns (r: seq<BotCommand>)
      requires Valid()
      ensures r == LocalizedListing(lang)
    {
      var items := router.Commands();
      ListingOfTable(items, router.commands, router.names);
      ListingKnown();
      r := Localize(items, lang);
    }

    /** The heading, a blank line, and one line per registered command, in the language of `lang`. */
    method ComposeCommandList(lang: Option<string>) returns (text: string)
      requires Valid()
      ensures text == CommandListText(lang)
    {
      ListingKnown();
      var heading := Localized(AvailableCommandsInfo, lang) + "\n" + "\n";
      var items := GetCommands(lang);
      text := AppendCommandLines(heading, items);
    }

    method ListCommandsHandler(u: Update) returns (o: Outcome<Exception>)
      requires Valid()
      modifies this
      ensures Valid()
      ensures Step(State(), o) == ListCommandsStep(old(State()), u)
    {
      if !u.MessageUpdate? {
        return Pass;
      }
      var m := u.message;
      var text := ComposeCommandList(LangOf(m));
      log := log + [SendCommandList(m.chatId, text, m.messageId)];
      o := Pass;
    }

    method GenerateCommandHandler(u: Update) returns (o: Outcome<Exception>)
      requires Valid()
      modifies this, router, colorSelection
      ensures Valid()
      ensures Step(State(), o) == GenerateCommandStep(old(State()), u)
    {
      if !(u.MessageUpdate? && u.message.from.Some?) {
        return Pass;
      }
      var m, user := u.message, u.message.from.value;
      router.AddPendingRequest(user.id, Action.GetQrCodeData);
      var markup := colorSelection.Get(user.languageCode);
      match markup
      case Failure(e) =>
        o := Fail(e);
      case Success(k) =>
        log := log + [SendKeyboard(m.chatId, ColorSchemeRequest, user.languageCode, k.rows)];
        o := Pass;
    }

    method GetQrCodeData(u: Update, data: Option<string>) returns (o: Outcome<Exception>)
      requires Valid()
      modifies this, router
      ensures Valid()
      ensures Step(State(), o) == GetQrCodeDataStep(old(State()), u, data)
    {
      if data.Some? && u.MessageUpdate? {
        var m := u.message;
        router.AddPendingRequest(m.chatId, Action.GenerateBarcode(data.value));
        log := log + [SendText(m.chatId, QrCodeDataRequest, LangOf(m), m.messageId)];
      }
      o := Pass;
    }

    method ScanCommandHandler(u: Update) returns (o: Outcome<Exception>)
      requires Valid()
      modifies this, router
      ensures Valid()
      ensures Step(State(), o) == ScanCommandStep(old(State()), u)
    {
      if u.MessageUpdate? && u.message.from.Some? {
        var m, user := u.message, u.message.from.value;
        router.AddPendingRequest(user.id, Action.ScanBarcode);
        log := log + [SendText(m.chatId, ScanRequest, user.languageCode, m.messageId)];
      }
      o := Pass;
    }

    method ScanBarcode(u: Update, io: Io) returns (o: Outcome<Exception>)
      requires Valid()
      modifies this, router
      ensures Valid()
      ensures Step(State(), o) == ScanBarcodeStep(old(State()), u, io)
    {
      if !u.MessageUpdate? {
        return Pass;
      }
      var m := u.message;
      if m.from.Some? && m.photo.Some? {
        router.RemovePendingRequest(m.from.value.id);
        if m.photo.value == [] {
          // taking the largest size of an empty photo list
          return Fail(InvalidOperationException);
        }
        if io.filePath.None? {
          return Pass;
        }
        var lang := m.from.value.languageCode;
        match io.decoded {
          case None =>
            log := log + [SendText(m.chatId, UnableToDecode, lang, m.messageId)];
          case Some(t) =>
            log := log + [SendDecoded(m.chatId, t, lang, m.messageId)];
        }
        return Pass;
      }
      log := log + [SendText(m.chatId, InvalidQrCodeImage, LangOf(m), m.messageId)];
      o := Pass;
    }

    method GenerateBarcode(u: Update, color: string) returns (o: Outcome<Exception>)
      requires Valid()
      modifies this, router
      ensures Valid()
      ensures Step(State(), o) == GenerateBarcodeStep(old(State()), u, color)
    {
      if u.MessageUpdate? && u.message.text.Some? && u.message.from.Some? {
        var m, user := u.message, u.message.from.value;
        router.RemovePendingRequest(user.id);
        if |m.text.value| > MaxTextElements {
          log := log + [SendText(m.chatId, TextTooLong, user.languageCode, m.messageId)];
          return Pass;
        }
        var renderer := GetRendererByColorName(color);
        log := log + [SendPhoto(m.chatId, Flatten(m.text.value), renderer, user.languageCode, m.messageId)];
        return Pass;
      }
      if !u.MessageUpdate? {
        return Pass;
      }
      var m := u.message;
      log := log + [SendText(m.chatId, TextMessageExpected, LangOf(m), m.messageId)];
      o := Pass;
    }

    method OnCallbackQuery(u: Update, pendingHandler: Option<Action>) returns (o: Outcome<Exception>)
      requires Valid()
      modifies this, router
      ensures Valid()
      ensures Step(State(), o) == CallbackStep(old(State()), u, pendingHandler)
    {
      if !(u.CallbackQueryUpdate? && u.query.message.Some? && u.query.data.Some?) {
        return Pass;
      }
      var q, m, data := u.query, u.query.message.value, u.query.data.value;
      if m.text.Some? && StartsWith(data, Prefix) {
        var lang := q.from.languageCode;
        log := log + [AnswerCallback(q.id)];
        log := log + [ClearReplyMarkup(m.chatId, m.messageId)];
        var colorName := GetLocalizedString(data, lang);
        match colorName
        case Failure(e) =>
          o := Fail(e);
        case Success(_) =>
          log := log + [EditSelectedColor(m.chatId, m.messageId, data, lang)];
          o := GetQrCodeData(MessageUpdate(m.(from := Some(q.from))), Some(data));
      } else {
        o := Pass;
      }
    }

    method HandleInvalidCommand(u: Update) returns (o: Outcome<Exception>)
      requires Valid()
      modifies this
      ensures Valid()
      ensures Step(State(), o) == ListCommandsStep(old(State()), u)
    {
      o := ListCommandsHandler(u);
    }

    /** Runs the handler an action stands for. */
    method Invoke(a: Action, u: Update, data: Option<string>, io: Io) returns (o: Outcome<Exception>)
      requires Valid()
      modifies this, router, colorSelection
      ensures Valid()
      ensures Step(State(), o) == InvokeStep(old(State()), a, u, data, io)
    {
      match a
      case ListCommands => o := ListCommandsHandler(u);
      case GenerateCommand => o := GenerateCommandHandler(u);
      case ScanCommand => o := ScanCommandHandler(u);
      case GetQrCodeData => o := GetQrCodeData(u, data);
      case GenerateBarcode(color) => o := GenerateBarcode(u, color);
      case ScanBarcode => o := ScanBarcode(u, io);
    }

    /**
     * Handles one update: the router's decision, then the hook or handler it
     * names. Exceptions of commands and continuations are caught here.
     */
    method HandleUpdate(u: Update, io: Io) returns (o: Outcome<Exception>)
      requires Valid()
      modifies this, router, colorSelection
      ensures Valid()
      ensures Step(State(), o) == HandleUpdateStep(old(State()), router.botUsername, u, io)
    {
      var route := router.Dispatch(u);
      match route
      case CallbackRoute(_, handler) =>
        o := OnCallbackQuery(u, handler);
      case CommandRoute(_, a) =>
        var caught := Invoke(a, u, None, io);
        o := Pass;
      case PendingRoute(_, a) =>
        var caught := Invoke(a, u, None, io);
        o := Pass;
      case InvalidRoute =>
        o := HandleInvalidCommand(u);
      case NoRoute =>
        o := Pass;
    }
  }
}
