/**
 * The bot's string table: message keys, colour keys and their English and
 * Russian texts, and the language-index fallback.
 */
module Strings {
  import opened Base

  const EnglishLangIndex: nat := 0
  const RussianLangIndex: nat := 1

  // Message keys: each constant is its own name.
  const InvalidQrCodeImage := "InvalidQrCodeImage"
  const TextTooLong := "TextTooLong"
  const TextMessageExpected := "TextMessageExpected"
  const UnableToDecode := "UnableToDecode"
  const DecodedText := "DecodedText"
  const SelectedColor := "SelectedColor"
  const ImageCaption := "ImageCaption"
  const ScanRequest := "ScanRequest"
  const QrCodeDataRequest := "QrCodeDataRequest"
  const ColorSchemeRequest := "ColorSchemeRequest"
  const AvailableCommandsInfo := "AvailableCommandsInfo"
  const StartCommandDescription := "StartCommandDescription"
  const GenerateCommandDescription := "GenerateCommandDescription"
  const ScanCommandDescription := "ScanCommandDescription"
  const ContactInformation := "ContactInformation"

  // Colour keys: the callback data of the colour buttons.
  const Prefix := "SelectColor:"
  const WhiteOnBlack := "SelectColor:whiteOnBlack"
  const BlackOnWhite := "SelectColor:blackOnWhite"
  const Red := "SelectColor:red"
  const Green := "SelectColor:green"
  const Blue := "SelectColor:blue"
  const Yellow := "SelectColor:yellow"
  const Orange := "SelectColor:orange"
  const Purple := "SelectColor:purple"
  /** Used by the colour keyboard but not defined with the other colours; its value is assumed. */
  const Pink := "SelectColor:pink"

  const MessageKeys: seq<string> := [
    InvalidQrCodeImage, TextTooLong, TextMessageExpected, UnableToDecode, DecodedText,
    SelectedColor, ImageCaption, ScanRequest, QrCodeDataRequest, ColorSchemeRequest,
    AvailableCommandsInfo, StartCommandDescription, GenerateCommandDescription,
    ScanCommandDescription, ContactInformation]

  const ColorKeys: seq<string> := [WhiteOnBlack, BlackOnWhite, Red, Green, Blue, Yellow, Orange, Purple]

  /** Key to [English, Russian]: the texts of every key of the table. */
  const Map: map<string, seq<string>> := map key | key in TableKeys :: [English(key), Russian(key)]

  /** The keys of the table. */
  const TableKeys: set<string> := {
    InvalidQrCodeImage, TextTooLong, TextMessageExpected, ScanRequest, QrCodeDataRequest, ColorSchemeRequest, AvailableCommandsInfo, UnableToDecode, StartCommandDescription, GenerateCommandDescription, ScanCommandDescription, DecodedText, SelectedColor, WhiteOnBlack, BlackOnWhite, Red, Blue, Green, Yellow, Orange, Purple, ContactInformation, ImageCaption}

  /** The English text of each key of the table (keys outside it have none). */
  function English(key: string): string {
    if key == InvalidQrCodeImage then "A single *compressed* image is expected. Try again"
    else if key == TextTooLong then "The text length must not exceed 512 characters. Send /gen_qr to try again"
    else if key == TextMessageExpected then "A text message is expected. Try again"
    else if key == ScanRequest then "Send me an image containing QR code or barcode"
    else if key == QrCodeDataRequest then "Enter QR code data"
    else if key == ColorSchemeRequest then "Select color scheme"
    else if key == AvailableCommandsInfo then "Here is the list of all available commands"
    else if key == UnableToDecode then "Sorry, I'm unable to decode this image. Send /scan to try another one"
    else if key == StartCommandDescription then "List available commands"
    else if key == GenerateCommandDescription then "Generate a new QR code image"
    else if key == ScanCommandDescription then "Scan QR code or barcode image"
    else if key == DecodedText then "Decoded text\n\n{0}"
    else if key == SelectedColor then "Selected color: *{0}*"
    else if key == WhiteOnBlack then "\U{1F532} White on black"
    else if key == BlackOnWhite then "\U{1F533} Black on white"
    else if key == Red then "\U{1F7E5} Red"
    else if key == Blue then "\U{1F7E6} Blue"
    else if key == Green then "\U{1F7E9} Green"
    else if key == Yellow then "\U{1F7E8} Yellow"
    else if key == Orange then "\U{1F7E7} Orange"
    else if key == Purple then "\U{1F7EA} Purple"
    else if key == ContactInformation then "Contact the developer: @uthef"
    else if key == ImageCaption then "Your QR code is ready!"
    else ""
  }

  /** The Russian text of each key of the table (keys outside it have none). */
  function Russian(key: string): string {
    if key == InvalidQrCodeImage then "Принимается только сжатое изображение. Попробуйте снова."
    else if key == TextTooLong then "Длина текста не должна превышать 512 символов. Отправьте /gen_qr, чтобы попробовать снова"
    else if key == TextMessageExpected then "Принимается только текстовое сообщение. Попробуйте ещё раз"
    else if key == ScanRequest then "Отправьте изображение с QR-кодом или штрих-кодом"
    else if key == QrCodeDataRequest then "Введите текст"
    else if key == ColorSchemeRequest then "Выберите цветовую схему"
    else if key == AvailableCommandsInfo then "Вот список всех доступных команд"
    else if key == UnableToDecode then "Извините, считать данные с этого изображения не получилоось. Отправьте /scan, чтобы попробовать отсканировать другое"
    else if key == StartCommandDescription then "Вывести список доступных команд"
    else if key == GenerateCommandDescription then "Сгенерировать новый QR-код"
    else if key == ScanCommandDescription then "Считать данные с QR-кода или штрих-кода"
    else if key == DecodedText then "Раскодированный текст\n\n{0}"
    else if key == SelectedColor then "Выбранный цвет: *{0}*"
    else if key == WhiteOnBlack then "\U{1F532} Белый на чёрном"
    else if key == BlackOnWhite then "\U{1F533} Чёрный на белом"
    else if key == Red then "\U{1F7E5} Красный"
    else if key == Blue then "\U{1F7E6} Синий"
    else if key == Green then "\U{1F7E9} Зелёный"
    else if key == Yellow then "\U{1F7E8} Жёлтый"
    else if key == Orange then "\U{1F7E7} Оранжевый"
    else if key == Purple then "\U{1F7EA} Фиолетовый"
    else if key == ContactInformation then "Связаться с разработчиком: @uthef"
    else if key == ImageCaption then "Ваш QR-код готов!"
    else ""
  }

  /** The language index: Russian for "ru", English for every other code and for none. */
  function GetLangIndex(code: Option<string>): (i: nat)
    ensures i == RussianLangIndex <==> code == Some("ru")
    ensures i == EnglishLangIndex <==> code != Some("ru")
    ensures i < 2
  {
    match code
    case Some(c) => if c == "ru" then RussianLangIndex else EnglishLangIndex
    case None => EnglishLangIndex
  }

  /** `s.StartsWith(prefix)`, compared character by character. */
  predicate StartsWith(s: string, prefix: string)
  {
    |s| >= |prefix| && s[..|prefix|] == prefix
  }

  /** No message key carries the colour prefix, so callback data never names a message. */
  lemma MessageKeysLackPrefix()
    ensures forall i :: 0 <= i < |MessageKeys| ==> !StartsWith(MessageKeys[i], Prefix)
  {
    forall i | 0 <= i < |MessageKeys|
      ensures !StartsWith(MessageKeys[i], Prefix)
    {
      var k := MessageKeys[i];
      // Only "SelectedColor" begins like the prefix, and it parts from it at index 6.
      assert |k| > 6 && (k[0] != 'S' || k[1] != 'e' || k[6] != 'C');
      if |k| >= |Prefix| {
        assert k[..|Prefix|][0] == k[0] && k[..|Prefix|][1] == k[1] && k[..|Prefix|][6] == k[6];
      }
    }
  }

  /** Every entry of the table holds exactly one English and one Russian text. */
  lemma MapShape()
    ensures forall k :: k in Map ==> |Map[k]| == 2
  {
  }

  /** Every message key has an entry. */
  lemma MessageKeysKnown()
    ensures forall i :: 0 <= i < |MessageKeys| ==> MessageKeys[i] in Map
  {
  }

  /** Every colour key has an entry. */
  lemma ColorKeysKnown()
    ensures forall i :: 0 <= i < |ColorKeys| ==> ColorKeys[i] in Map
  {
  }

  /** The undefined Pink has no entry. */
  lemma PinkUnknown()
    ensures Pink !in Map
  {
  }

  /** Every message key and every colour key has an entry; the undefined Pink has none. */
  lemma MapKeys()
    ensures forall i :: 0 <= i < |MessageKeys| ==> MessageKeys[i] in Map
    ensures forall i :: 0 <= i < |ColorKeys| ==> ColorKeys[i] in Map
    ensures Pink !in Map
  {
    MessageKeysKnown();
    ColorKeysKnown();
    PinkUnknown();
  }

  /** The table holds nothing but the message and colour keys. */
  lemma MapHasOnlyKnownKeys()
    ensures forall k :: k in Map ==> k in MessageKeys || k in ColorKeys
  {
  }

  /** Every colour key, the undefined Pink included, carries the callback prefix. */
  lemma ColorKeysCarryPrefix()
    ensures forall i :: 0 <= i < |ColorKeys| ==> StartsWith(ColorKeys[i], Prefix)
    ensures StartsWith(Pink, Prefix)
  {
  }

  /**
   * The text of `key` in the language of `code`; a key outside the table
   * raises KeyNotFoundException. The index is always in bounds.
   */
  function GetLocalizedString(key: string, code: Option<string>): (r: Result<string, Exception>)
    ensures r.Success? <==> key in Map
    ensures r.Failure? ==> r.error == KeyNotFoundException(key)
    ensures r.Success? ==> r.value == Map[key][if code == Some("ru") then 1 else 0]
  {
    if key !in Map then Failure(KeyNotFoundException(key))
    else
      MapShape();
      Success(Map[key][GetLangIndex(code)])
  }

  /** The text of a key known to be in the table. */
  function Localized(key: string, code: Option<string>): (s: string)
    requires key in Map
    ensures GetLocalizedString(key, code) == Success(s)
  {
    MapShape();
    Map[key][GetLangIndex(code)]
  }
}
