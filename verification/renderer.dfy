/** The colour scheme of a generated QR code, chosen by the colour key of the button pressed. */
module Renderer {
  import Strings

  /** SkiaSharp colours, as 32-bit ARGB values. */
  type Argb = x: int | 0 <= x < 0x1_0000_0000

  const SkWhite: Argb := 0xFFFF_FFFF
  const SkBlack: Argb := 0xFF00_0000
  const SkDarkRed: Argb := 0xFF8B_0000
  const SkDarkGreen: Argb := 0xFF00_6400
  const SkDarkBlue: Argb := 0xFF00_008B

  datatype BitmapRenderer = BitmapRenderer(foreground: Argb, background: Argb)

  /**
   * White on black, or white on a dark red, green or blue, for those four
   * colour keys; black on white for every other string. The modules are
   * always distinguishable from the background.
   */
  function GetRendererByColorName(qrColor: string): (r: BitmapRenderer)
    ensures r.foreground != r.background
    ensures qrColor in {Strings.WhiteOnBlack, Strings.Red, Strings.Green, Strings.Blue} <==> r.foreground == SkWhite
    ensures r.foreground == SkBlack <==> r.background == SkWhite
  {
    if qrColor == Strings.WhiteOnBlack then BitmapRenderer(SkWhite, SkBlack)
    else if qrColor == Strings.Red then BitmapRenderer(SkWhite, SkDarkRed)
    else if qrColor == Strings.Green then BitmapRenderer(SkWhite, SkDarkGreen)
    else if qrColor == Strings.Blue then BitmapRenderer(SkWhite, SkDarkBlue)
    else BitmapRenderer(SkBlack, SkWhite)
  }

  /** The four coloured schemes, one per key. */
  lemma ColoredSchemes()
    ensures GetRendererByColorName(Strings.WhiteOnBlack) == BitmapRenderer(SkWhite, SkBlack)
    ensures GetRendererByColorName(Strings.Red) == BitmapRenderer(SkWhite, SkDarkRed)
    ensures GetRendererByColorName(Strings.Green) == BitmapRenderer(SkWhite, SkDarkGreen)
    ensures GetRendererByColorName(Strings.Blue) == BitmapRenderer(SkWhite, SkDarkBlue)
  {
  }

  /** Black on white, the explicit choice included, is the fallback for every other key and string. */
  lemma DefaultScheme(qrColor: string)
    requires qrColor !in {Strings.WhiteOnBlack, Strings.Red, Strings.Green, Strings.Blue}
    ensures GetRendererByColorName(qrColor) == BitmapRenderer(SkBlack, SkWhite)
  {
  }
}
