// `setup_document_styles`: the Normal style and the three heading styles the
// report uses, derived from the style settings. The heading colours go through
// `hex_to_rgb`, so a colour it cannot read makes the whole step raise.
module Styles {
  import opened Wrappers
  import opened Document
  import opened Schemas
  import opened Colors

  /**
   * What the step sets on one named style: font name and size in points, the
   * bold and italic switches and the colour when it sets them, the line
   * spacing factor when it sets it, and the paragraph formatting in order.
   */
  datatype StyleDef = StyleDef(
    font: string,
    sizePt: int,
    bold: Option<bool>,
    italic: Option<bool>,
    color: Option<Rgb>,
    lineSpacing: Option<real>,
    fmt: seq<ParaTag>)

  datatype StyleSheet = StyleSheet(normal: StyleDef, heading1: StyleDef, heading2: StyleDef, heading3: StyleDef)

  /** The Normal style: body font, first-line indent 1.25 cm, 6 pt after. */
  function NormalStyle(c: StyleConfig): StyleDef
  {
    StyleDef(c.fontFamily, c.fontSize, None, None, None, Some(c.lineSpacing),
      [FirstLineIndentCm(1.25), SpaceAfterPt(6)])
  }

  function Heading1Style(c: StyleConfig, rgb: Rgb): StyleDef
  {
    StyleDef(c.fontFamily, c.title1Size, Some(c.title1Bold), None, Some(rgb), None,
      [SpaceBeforePt(18), SpaceAfterPt(12), LeftIndentCm(0.0), NoIndent])
  }

  function Heading2Style(c: StyleConfig, rgb: Rgb): StyleDef
  {
    StyleDef(c.fontFamily, c.title2Size, Some(c.title2Bold), None, Some(rgb), None,
      [SpaceBeforePt(14), SpaceAfterPt(8), LeftIndentCm(0.75), NoIndent])
  }

  /** Level 3 is never bold; its italic switch comes from the settings. */
  function Heading3Style(c: StyleConfig, rgb: Rgb): StyleDef
  {
    StyleDef(c.fontFamily, c.title3Size, Some(false), Some(c.title3Italic), Some(rgb), None,
      [SpaceBeforePt(10), SpaceAfterPt(6), LeftIndentCm(1.5), NoIndent])
  }

  /**
   * The styles the step leaves, or None where it raises: it fails exactly
   * when one of the three heading colours is unreadable, and otherwise every
   * heading carries the colour its setting denotes.
   */
  function SetupDocumentStyles(c: StyleConfig): (r: Option<StyleSheet>)
    ensures r.None? <==> HexToRgb(c.title1Color).None? || HexToRgb(c.title2Color).None? || HexToRgb(c.title3Color).None?
    ensures r.Some? ==>
      r.value.normal.font == c.fontFamily && r.value.normal.sizePt == c.fontSize
      && r.value.heading1.color == HexToRgb(c.title1Color)
      && r.value.heading2.color == HexToRgb(c.title2Color)
      && r.value.heading3.color == HexToRgb(c.title3Color)
      && r.value.heading3.bold == Some(false)
  {
    match (HexToRgb(c.title1Color), HexToRgb(c.title2Color), HexToRgb(c.title3Color))
    case (Some(c1), Some(c2), Some(c3)) =>
      Some(StyleSheet(NormalStyle(c), Heading1Style(c, c1), Heading2Style(c, c2), Heading3Style(c, c3)))
    case _ => None
  }

  /** The default settings give Times New Roman 12 and headings in #1a365d, black and #333333. */
  lemma {:induction false} DefaultStyleSheet()
    ensures SetupDocumentStyles(DefaultStyle) == Some(StyleSheet(
      NormalStyle(DefaultStyle),
      StyleDef("Times New Roman", 16, Some(true), None, Some(Rgb(26, 54, 93)), None,
        [SpaceBeforePt(18), SpaceAfterPt(12), LeftIndentCm(0.0), NoIndent]),
      StyleDef("Times New Roman", 14, Some(true), None, Some(Rgb(0, 0, 0)), None,
        [SpaceBeforePt(14), SpaceAfterPt(8), LeftIndentCm(0.75), NoIndent]),
      StyleDef("Times New Roman", 12, Some(false), Some(true), Some(Rgb(51, 51, 51)), None,
        [SpaceBeforePt(10), SpaceAfterPt(6), LeftIndentCm(1.5), NoIndent])))
  {
    DefaultTitle1Colour();
    DefaultTitle2Colour();
    DefaultTitle3Colour();
  }

  /** A four-digit level 2 colour makes the step raise, whatever the rest says. */
  lemma {:induction false} ShortColourRaises(c: StyleConfig)
    requires c.title2Color == "#1234"
    ensures SetupDocumentStyles(c).None?
  {
    HexToRgbFourDigits();
  }
}
