# QrBot core, modelled in Dafny

QrBot is a Telegram bot that makes QR codes from text and reads QR codes and
barcodes from photos. This project models the part of it that decides what
happens to each incoming update:

- **The router** (`BotUpdateHandler`):
  - the command table and its command list;
  - the per-user table of pending continuations ("what this user's next message means");
  - the command matcher `(?<=^/)\w+((?=@<botUsername>$)|$)` applied to the lower-cased text;
  - the order in which an update is classified: callback query, command, pending continuation, unmatched input, ignored.
- **The QR conversation** (`QrBotHandler`):
  - the commands `/start`, `/gen_qr` and `/scan`;
  - the colour-keyboard callback;
  - the continuations that wait for a colour, a text or a photo.
- **The shared colour keyboard** (`ColorSelectionMarkup`), built once and cached.
- **The string table** (`QrBotStrings`), with its English/Russian fallback.
- **The colour-to-renderer choice** (`ImageRenderer.GetRendererByColorName`).
- **The bot registry** (`BotFactory`).

Modules:

- `Base`: `Option`, `Result` and `Outcome`, plus the exceptions the core raises.
- `Telegram`: the parts of updates, messages, callback queries and buttons the core reads.
- `CommandGrammar`: the command matcher.
- `Router`: the pure classification `Classify` and the class `BotUpdateHandler<A>`. Its fields are the command table, the registration order and the pending table. Handlers are kept abstract as the type `A`.
- `Registry`: the class `BotFactory`.
- `Strings`: message keys, colour keys, the table `Map`, and `GetLocalizedString`. `Map` holds the same entries as the source's dictionary. It is written as its key set plus one English and one Russian lookup per key.
- `Renderer`: the foreground and background colours for each colour key.
- `Keyboard`:
  - the classes `InlineKeyboard` and `ColorSelectionMarkup` (the cached keyboard);
  - their specification `MarkupGet`.
- `QrFlow`:
  - the handlers as the datatype `Action` (a stored continuation is one of its values);
  - one pure step function per handler, on `BotState`, which is the pending table, the log of calls made to Telegram, and the cached keyboard;
  - `HandleUpdateStep` for a whole update;
  - the class `QrBotHandler`, whose methods update the router, the keyboard cache and the reply log in place, each proved to do what its step function says.
- `Conversation`: what users see over one or several updates.

The QR bot holds its router as a field and does not inherit from it.
`BotUpdateHandler.Dispatch` makes the router's decision, including clearing a
sender's continuation before a command runs. `QrBotHandler.HandleUpdate` then
runs the hook or handler that the decision names.

Texts sent to users are logged as their string-table key together with the
language code. What that key stands for in each language is given by
`GetLocalizedString`.

## Model

| member | source | states |
|---|---|---|
| CommandGrammar.Lower | Architecture/BotUpdateHandler.cs:130 | Lower-casing keeps the length, leaves no capital letter, turns each capital into its own small letter, and keeps every other character. |
| CommandGrammar.LowerIdempotent | Architecture/BotUpdateHandler.cs:147-152 | A command name lower-cased once is already a stored key: lower-casing it again changes nothing. |
| CommandGrammar.WordRunEnd | Architecture/BotUpdateHandler.cs:44 | `\w+` is greedy: the run covers only word characters and ends at the text's end or at a non-word character. |
| CommandGrammar.MatchCommand | Architecture/BotUpdateHandler.cs:44 | A match is non-empty, is shorter than the text, and is found only in text that starts with `/`. |
| CommandGrammar.MatchCommandSound | Architecture/BotUpdateHandler.cs:44 | Whatever the matcher returns is a word-character name that the whole text spells: `/name`, optionally followed by `@botUsername`, optionally followed by one final newline. |
| CommandGrammar.MatchCommandComplete | Architecture/BotUpdateHandler.cs:44 | Every text that spells a name in that form is matched, and the match is exactly that name. |
| CommandGrammar.UpperCaseUsernameNeverMatches | Architecture/BotUpdateHandler.cs:44 | The username is compiled into the pattern as given, but the pattern is applied to lower-cased text. So `/name@User` never matches when the bot's username has an upper-case letter. |
| Router.ParseCommand | Architecture/BotUpdateHandler.cs:126-143 | A handler is returned only for a message update whose lower-cased text matches, and it is the handler registered under the matched name. |
| Router.ParseCommandComplete | Architecture/BotUpdateHandler.cs:126-143 | A message that spells a registered command yields that command's handler. |
| Router.ParseCommandSound | Architecture/BotUpdateHandler.cs:126-143 | A handler is yielded only for a message that spells a registered name. |
| Router.Classify | Architecture/BotUpdateHandler.cs:63-112 | Each route holds if and only if its guard holds: a callback with a message that has a sender, and with data, goes to the hook with the presser's continuation, which is not removed; a message whose sender spells a command runs the command; otherwise the sender's continuation runs; otherwise the unmatched-input hook runs; anything else is ignored. |
| Router.CommandPreemptsPending | Architecture/BotUpdateHandler.cs:76-94 | For a command, the decision does not depend on whether the sender had a continuation, nor on which one. |
| Router.BotUpdateHandler.constructor | Architecture/BotUpdateHandler.cs:41-46 | A new router has no commands and no continuations. |
| Router.BotUpdateHandler.DefineCommand | Architecture/BotUpdateHandler.cs:145-153 | A command is added under its lower-cased name if and only if that name is new, and it is appended to the registration order. A name already present raises BotUpdateHandlerException when given in lower case, and ArgumentException (from the dictionary) otherwise. On failure nothing changes. |
| Router.BotUpdateHandler.AddPendingRequest | Architecture/BotUpdateHandler.cs:155-159 | The user's continuation is replaced. The commands stay the same. |
| Router.BotUpdateHandler.RemovePendingRequest | Architecture/BotUpdateHandler.cs:161-164 | The user's continuation is gone, whether or not there was one. |
| Router.BotUpdateHandler.Commands | Architecture/BotUpdateHandler.cs:21-39 | One entry per registered command, with its description, with no repeats, in registration order. |
| Router.BotUpdateHandler.DistinctNamesCount | Architecture/BotUpdateHandler.cs:25 | The list has as many entries as the table has commands. |
| Router.BotUpdateHandler.Dispatch | Architecture/BotUpdateHandler.cs:63-112 | The decision is `Classify` of the state before the update. The sender's continuation is removed for a command and for nothing else. |
| Registry.BotFactory.constructor | Architecture/BotFactory.cs:5 | The registry starts empty. |
| Registry.BotFactory.Get | Architecture/BotFactory.cs:7 | The result is null exactly when the token is not registered. Otherwise it is the bot registered under that token. |
| Registry.BotFactory.Register | Architecture/BotFactory.cs:8-14 | A bot is added if and only if its token is new. A known token raises BotFactoryException and leaves the registry as it was. Every bot stays stored under its own token. |
| Registry.BotFactory.Unregister | Architecture/BotFactory.cs:16 | Whatever bot is stored under that token is removed. The result says whether one was there. |
| Strings.GetLangIndex | Core/QrBotStrings.cs:30-37 | Russian is chosen exactly for the code "ru". Every other code, and no code, falls back to English. |
| Strings.GetLocalizedString | Core/QrBotStrings.cs:39-42 | The lookup succeeds exactly for keys in the table and returns the text for the chosen language. Any other key raises KeyNotFoundException carrying that key. |
| Strings.Localized | Core/QrBotStrings.cs:39-42 | Applies to keys known to be in the table; the result is what the lookup returns. |
| Strings.MapShape | Core/QrBotStrings.cs:44-208 | Every entry has exactly two texts, English then Russian. |
| Strings.MessageKeysKnown | Core/QrBotStrings.cs:44-208 | Every message key has texts. |
| Strings.ColorKeysKnown | Core/QrBotStrings.cs:44-208 | Every colour key has texts. |
| Strings.PinkUnknown | Core/QrBotStrings.cs:44-208 | Pink has no texts. |
| Strings.MapKeys | Core/QrBotStrings.cs:44-208 | Every message key and every colour key has texts. Pink has none. |
| Strings.MapHasOnlyKnownKeys | Core/QrBotStrings.cs:44-208 | The table holds message keys and colour keys and nothing else. |
| Strings.MessageKeysLackPrefix | Core/QrBotStrings.cs:10-28 | No message key starts with the colour prefix `SelectColor:`. |
| Strings.ColorKeysCarryPrefix | Core/QrColor.cs:5-14 | Every colour key, Pink included, starts with `SelectColor:`. |
| Renderer.GetRendererByColorName | Core/ImageRenderer.cs:34-61 | Foreground and background always differ. White on a dark background is chosen exactly for white-on-black, red, green and blue. Black is the foreground exactly when white is the background. |
| Renderer.ColoredSchemes | Core/ImageRenderer.cs:36-55 | The four named schemes give white on black, dark red, dark green and dark blue. |
| Renderer.DefaultScheme | Core/ImageRenderer.cs:56-60 | Every other colour name, known or not, gives black on white. |
| Keyboard.Layout | Core/ColorSelectionMarkup.cs:15-55 | Three rows of colour keys: 2, 3 and 3 buttons. |
| Keyboard.LayoutCarriesPrefix | Core/ColorSelectionMarkup.cs:15-55 | Every button's callback data is a colour key with the colour prefix. |
| Keyboard.LabelRow | Core/ColorSelectionMarkup.cs:15-23 | The buttons of one `AddButtons` call: when every label is found, one button per key, in order, each carrying its key as callback data. |
| Keyboard.LabelRowSucceeds | Core/ColorSelectionMarkup.cs:15-23 | A row labels if and only if every key has a text. Otherwise it raises KeyNotFoundException carrying the first key that has none. |
| Keyboard.LabelRowLabels | Core/ColorSelectionMarkup.cs:15-23 | Each button of a labelled row shows its key's text in the language asked for. |
| Keyboard.AddButtonsToNewRow | Core/ColorSelectionMarkup.cs:25-27 | Buttons added after a new row go into that row only. |
| Keyboard.AddButtonsKeepsLabels | Core/ColorSelectionMarkup.cs:15-23 | Adding labelled buttons keeps every button correctly labelled. |
| Keyboard.BuildLabels | Core/ColorSelectionMarkup.cs:13-57 | However far the build gets, every button it placed shows the text of its own callback data. |
| Keyboard.BuildFirstRow | Core/ColorSelectionMarkup.cs:15-23 | The first row goes into the keyboard's first row. If it raises, the keyboard has no rows. |
| Keyboard.BuildNextRow | Core/ColorSelectionMarkup.cs:25-41 | A later row goes into the new row that `AddNewRow` opened. If it raises, that new row stays empty and the build stops. |
| Keyboard.BuildComplete | Core/ColorSelectionMarkup.cs:13-57 | When no row raises, the build passes with one keyboard row per layout row, each holding that row's buttons. |
| Keyboard.LayoutComplete | Core/ColorSelectionMarkup.cs:13-57 | If every key of a layout has a text, the build passes, with one keyboard row per layout row, each the labelled buttons of that row. |
| Keyboard.BuildFromLabels | Core/ColorSelectionMarkup.cs:13-57 | If every labelled row holds correctly labelled buttons, so does every row the build keeps. |
| Keyboard.BuildStopsAtPink | Core/ColorSelectionMarkup.cs:43-55 | Building the real layout raises KeyNotFoundException(Pink). It leaves the first two rows and an empty third row. |
| Keyboard.BuildStopsAtThirdRow | Core/ColorSelectionMarkup.cs:15-55 | Two rows that label and a third that raises give the two rows, an empty third row, and the third row's exception. |
| Keyboard.LayoutRows | Core/ColorSelectionMarkup.cs:15-55 | The first two rows of the real layout label correctly. The third fails on Pink. |
| Keyboard.FirstRowsHaveTexts | Core/ColorSelectionMarkup.cs:15-39 | The first row (black on white, white on black) and the second (red, green, blue) label. |
| Keyboard.ThirdRowStopsAtPink | Core/ColorSelectionMarkup.cs:43-55 | The third row raises KeyNotFoundException(Pink). |
| Keyboard.MarkupGet | Core/ColorSelectionMarkup.cs:9-58 | A cached keyboard is returned as it is. Otherwise a keyboard is built and cached whether or not the build raised. |
| Keyboard.FirstRequestFails | Core/ColorSelectionMarkup.cs:11-55 | The first request raises KeyNotFoundException(Pink) and caches the partial keyboard. |
| Keyboard.FirstRequestRaises | Core/ColorSelectionMarkup.cs:11-55 | The first request raises KeyNotFoundException(Pink). |
| Keyboard.CachedIgnoresLanguage | Core/ColorSelectionMarkup.cs:11 | Once a keyboard is cached, every language gets the same keyboard. |
| Keyboard.InlineKeyboard.constructor | Core/ColorSelectionMarkup.cs:13 | A new keyboard has no rows. |
| Keyboard.InlineKeyboard.AddButtons | Core/ColorSelectionMarkup.cs:15 | The buttons are appended to the last row. |
| Keyboard.InlineKeyboard.AddNewRow | Core/ColorSelectionMarkup.cs:25 | An empty row is appended. |
| Keyboard.InlineKeyboard.AddLabelledButtons | Core/ColorSelectionMarkup.cs:15-23 | Labels are looked up before anything is added. The keyboard changes only if every lookup succeeds. |
| Keyboard.ColorSelectionMarkup.constructor | Core/ColorSelectionMarkup.cs:8 | Nothing is cached at first. |
| Keyboard.ColorSelectionMarkup.Get | Core/ColorSelectionMarkup.cs:9-58 | The new cache and the result are those of `MarkupGet`. A cached keyboard is returned unchanged. Otherwise the keyboard is new, and it stays cached even when building it raised. |
| Keyboard.ColorSelectionMarkup.AddLayoutRows | Core/ColorSelectionMarkup.cs:15-55 | The rows the method adds to a new keyboard, and its outcome, are those of `Build` on the layout. |
| Keyboard.ColorSelectionMarkup.AddFirstRows | Core/ColorSelectionMarkup.cs:15-39 | The first two `AddButtons` calls and the `AddNewRow` between them leave the first two labelled rows. |
| QrFlow.ListingKnown | Core/QrBotHandler.cs:17-19 | The three description keys and the list heading all have texts. |
| QrFlow.PublishedListing | Core/QrBotHandler.cs:17-22 | The published list names start, gen_qr and scan, in that order, each with the text of its description key. |
| QrFlow.RussianListing | Core/QrBotHandler.cs:22 | An example of the Russian list: it describes /gen_qr as "Сгенерировать новый QR-код". |
| QrFlow.OtherLanguagesListing | Core/QrBotHandler.cs:21 | Every language code other than "ru", and no code, gets the English list. |
| QrFlow.ListingOfTable | Core/QrBotHandler.cs:17-19 | Read back in registration order, the router's command table is the listing. |
| QrFlow.CommandNamesAreLowercase | Core/QrBotHandler.cs:17-19 | The three command names are already lower case, so they are stored as given. |
| QrFlow.AppendCommandLines | Core/QrBotHandler.cs:34-37 | The loop appends one `/name - description` line per command to the heading, in order. |
| QrFlow.QrBotHandler.constructor | Core/QrBotHandler.cs:15-23 | The three commands are registered, in order, none awaiting anything. The English list is published without a language code, then the Russian list under "ru". |
| QrFlow.QrBotHandler.RegisterCommands | Core/QrBotHandler.cs:17-19 | All three registrations succeed, and the router's table is exactly the bot's command table. |
| QrFlow.QrBotHandler.PublishCommands | Core/QrBotHandler.cs:21-22 | Two command-list calls are made: English with no language code, then Russian with "ru". |
| QrFlow.QrBotHandler.GetCommands | Core/QrBotHandler.cs:34 | The router's command list, with each description key replaced by its text in the user's language. |
| QrFlow.QrBotHandler.ComposeCommandList | Core/QrBotHandler.cs:29-37 | The text is the heading, a blank line, and one line per registered command, in the sender's language. |
| QrFlow.QrBotHandler.ListCommandsHandler | Core/QrBotHandler.cs:25-44 | Updates without a message are ignored. Otherwise the command list is sent to the message's chat as a reply to it. |
| QrFlow.QrBotHandler.GenerateCommandHandler | Core/QrBotHandler.cs:53-68 | The sender awaits a colour. The keyboard is sent when it can be had. A failure to build it raises after the continuation is set. |
| QrFlow.QrBotHandler.GetQrCodeData | Core/QrBotHandler.cs:70-84 | With colour data, the chat (not the sender) awaits a text in that colour, and the user is asked for it. Without colour data nothing happens. |
| QrFlow.QrBotHandler.ScanCommandHandler | Core/QrBotHandler.cs:86-99 | The sender awaits a photo and is asked for one. |
| QrFlow.QrBotHandler.ScanBarcode | Core/QrBotHandler.cs:101-160 | A photo ends the wait. An empty size list raises. No file path means no reply. Otherwise the reply is the decoded text, or a message that the image could not be decoded. A message without a photo gets a refusal and the wait goes on. |
| QrFlow.QrBotHandler.GenerateBarcode | Core/QrBotHandler.cs:198-241 | A text ends the wait. Texts over 512 text elements are refused. Otherwise the image is sent with the renderer chosen for the colour. A message without text gets a refusal and the wait goes on. |
| QrFlow.QrBotHandler.OnCallbackQuery | Core/QrBotHandler.cs:167-196 | A colour press on a text message is answered, its keyboard is removed, and then the colour is confirmed, or a colour without a text raises. The colour continuation then runs on the button's message, as sent by the presser. |
| QrFlow.QrBotHandler.HandleInvalidCommand | Core/QrBotHandler.cs:162-165 | Unmatched input gets the command list. |
| QrFlow.QrBotHandler.Invoke | Architecture/BotUpdateHandler.cs:84-107 | Running a stored action does what that action's handler does. |
| QrFlow.QrBotHandler.HandleUpdate | Architecture/BotUpdateHandler.cs:63-112 | An update does what `HandleUpdateStep` says: the router's decision, then the hook or handler. Exceptions of commands and continuations are swallowed, and what they changed before raising stays. Exceptions of the callback hook escape. |
| Conversation.StartListsCommands | Core/QrBotHandler.cs:25-44 | `/start` sends the command list and ends whatever the sender was waiting for. |
| Conversation.GenQrAwaitsColour | Core/QrBotHandler.cs:53-68 | After `/gen_qr` the sender awaits a colour, whatever they awaited before. When the keyboard is cached, it is sent. |
| Conversation.FirstGenQrSendsNothing | Core/QrBotHandler.cs:53-68 | On the first request the sender still awaits a colour, nothing is sent, the failure is swallowed, and the partial keyboard stays cached. |
| Conversation.FirstKeyboardRaises | Core/QrBotHandler.cs:53-68 | The `/gen_qr` handler with nothing cached sets the continuation, caches the partial keyboard, and raises KeyNotFoundException(Pink). |
| Conversation.InvalidInputListsCommands | Core/QrBotHandler.cs:162-165 | A message from a sender who awaits nothing and that spells no command gets the command list as a reply, and nothing else changes. |
| Conversation.ScanAwaitsPhoto | Core/QrBotHandler.cs:86-99 | After `/scan` the sender awaits a photo and is asked for one. |
| Conversation.TextWhileAwaitingColourIsIgnored | Core/QrBotHandler.cs:70-84 | While a user awaits a colour, a plain message changes nothing and gets no reply. |
| Conversation.TextIsEncoded | Core/QrBotHandler.cs:198-231 | A text sent while a text is awaited is encoded in the chosen colour when it is at most 512 text elements, and refused when longer. Either way the wait is over. |
| Conversation.NonTextKeepsAwaitingText | Core/QrBotHandler.cs:233-240 | A message without text is refused and the text is still awaited. |
| Conversation.NonPhotoKeepsAwaitingPhoto | Core/QrBotHandler.cs:151-158 | A message without a photo is refused and the photo is still awaited. |
| Conversation.PhotoIsScanned | Core/QrBotHandler.cs:105-149 | A photo ends the wait. The reply is the decoded text, or that decoding failed, or nothing when the photo has no sizes or the file has no path. |
| Conversation.ColourChoice | Core/QrBotHandler.cs:167-196 | A known colour press answers the press, clears the keyboard and confirms the colour. The chat then awaits a text in that colour. |
| Conversation.UnknownColourRaises | Core/QrBotHandler.cs:184-189 | A press on a colour without a text (Pink) raises KeyNotFoundException out of the update handler, after the press was answered and the keyboard cleared. |
| Conversation.GroupChatTextIsLost | Core/QrBotHandler.cs:74-75 | In a group chat the chosen colour is stored under the chat id while the presser still awaits a colour, so their next text is ignored. |
| Conversation.GenQrThenColour | Core/QrBotHandler.cs:53-84 | In a private chat, `/gen_qr` then a press on a colour with a text leave the user awaiting a text in that colour. |
| Conversation.PrivateChatRoundTrip | Core/QrBotHandler.cs:53-231 | In a private chat, `/gen_qr`, a colour press and a short text end with the image in that colour, and the user awaits nothing. |
| Conversation.RepeatedPressSettlesPending | Core/QrBotHandler.cs:167-196 | Delivering the same colour press twice leaves the same continuations as delivering it once. |
| Conversation.UnroutedUpdateChangesNothing | Architecture/BotUpdateHandler.cs:76-111 | An update that is neither a routed callback nor a message with a sender changes nothing. |
| Conversation.OnlyUnknownColoursRaise | Architecture/BotUpdateHandler.cs:63-112 | Handling an update raises if and only if it is a colour press whose colour has no text, and then it raises KeyNotFoundException for that colour. |
| Conversation.InvokeKeepsPendingWellFormed | Core/QrBotHandler.cs:53-99 | Running a command or a stored continuation, without callback data, keeps every continuation one the bot can await. |
| Conversation.CallbackKeepsPendingWellFormed | Core/QrBotHandler.cs:167-196 | A colour press stores a text wait only for colour-prefixed data that has a text. |
| Conversation.HandleUpdateKeepsPendingWellFormed | Core/QrBotHandler.cs:53-99 | Every stored continuation awaits a colour, a photo, or a text in a colour key that has a text (Orange qualifies, although the keyboard has no Orange button). Every update keeps this true. |
| Conversation.AwaitedColourIsAColourKey | Core/QrBotHandler.cs:175 | A colour a text is awaited in is one of the colour keys that have a text. |

## Left out

- **Transport and process.** I/O, asynchrony, cancellation, logging, and the error hooks that only log are not modelled. That covers `HandlePollingErrorAsync` and `HandleErrorAsync`. Program start-up and the webhook controller are not part of this model either.
- **Bot construction.** Building a `Bot` asks Telegram for its username and checks the handler type. Neither is modelled: a bot is its token, and the router is given the username.
- **Image rendering and decoding.** ZXing and SkiaSharp pixel work is not modelled. The sent photo records the text encoded, the renderer and the caption language; encoder exceptions are not modelled.
- **File and decoder results.** The file path that Telegram returns for the largest photo size, and the decoder's result, are inputs to the model (`Io`). Which file id is fetched is not recorded.
- **Concurrency.** The pending table is concurrent in the source. Two updates racing, or two first requests racing on the static keyboard cache, are not modelled: updates are handled one at a time.
- **Character set and usernames.** `\w` and `ToLower` are modelled on ASCII only. The colour-prefix test on callback data is modelled as an ordinal prefix check, while the source's one-argument `StartsWith(string)` compares culture-sensitively (so, for instance, a leading soft hyphen is ignored there and not here). The bot's username is treated as literal text, although it is inserted into the pattern unescaped. Telegram usernames hold only word characters.
- **Text elements.** Splitting text into text elements is not modelled. Message text is a sequence of text elements as given, and the raw text is their concatenation.
- **Message formatting.** Reply texts are recorded as a string-table key and a language. The `DecodedText` and `SelectedColor` placeholders, the lower-casing of the colour name in the confirmation, and Markdown parse modes are not expanded.
- **Line ends.** `StringBuilder.AppendLine` is taken to end lines with "\n".
- **Updates rewritten in place.** The callback hook sets the update's message, and that message's sender, to the button's message and the presser. Here a new message value is built instead, so the mutation of the shared message object is not captured.
- **Pink.** The keyboard uses a Pink colour that the colour constants do not define. It is modelled as "SelectColor:pink", with no text in the table. Hence the first keyboard request raises and caches a partial keyboard.
- **API version mismatch.** The QR bot calls `DefineCommand(name, QrBotCommand)` and `GetCommands(code)`, which this version of the router does not have:
  - Registration is modelled as the router's `DefineCommand` with the description key.
  - `GetCommands` is modelled as the router's command list with each description localized, as `QrBotCommand.GetDescription` does.
- **Behaviours modelled as the code has them:**
  - A text over 512 text elements ends the wait for a text, because the continuation is removed before the length check. The refusal text itself asks the user to send /gen_qr to try again.
  - A non-photo message keeps the wait for a photo: ScanBarcode removes the continuation only when a photo arrives, and the router does not remove a continuation it runs.
  - Exceptions of the callback hook escape the update handler. Only commands and continuations are guarded.
  - The colour continuation is keyed by chat id and looked up by sender id. It is modelled as written, and `GroupChatTextIsLost` shows its effect.
