/**
 * The editor's settings record (`EditorConfig`): two font families, four font sizes in
 * pixels and two panel background colours. Every field is always present.
 */
module EditorTypes {

  datatype FontFamily = FontFamily(english: string, chinese: string)
  datatype FontSize = FontSize(h1: int, h2: int, h3: int, body: int)
  datatype Colors = Colors(markdownBg: string, wordBg: string)
  datatype Config = Config(fontFamily: FontFamily, fontSize: FontSize, colors: Colors)

  /** The eight leaf fields of a configuration, `config[group][key]`. */
  datatype ConfigField = English | Chinese | H1 | H2 | H3 | Body | MarkdownBg | WordBg

  /** The value stored in a leaf field: the font and colour fields hold text, the sizes numbers. */
  datatype FieldValue = Text(text: string) | Number(number: int)

  predicate HoldsText(f: ConfigField)
  {
    f in {English, Chinese, MarkdownBg, WordBg}
  }

  /** `v` has the type of field `f` (a string for fonts and colours, a number for sizes). */
  predicate Fits(f: ConfigField, v: FieldValue)
  {
    HoldsText(f) <==> v.Text?
  }

  function Get(c: Config, f: ConfigField): (v: FieldValue)
    ensures Fits(f, v)
  {
    match f
    case English => Text(c.fontFamily.english)
    case Chinese => Text(c.fontFamily.chinese)
    case H1 => Number(c.fontSize.h1)
    case H2 => Number(c.fontSize.h2)
    case H3 => Number(c.fontSize.h3)
    case Body => Number(c.fontSize.body)
    case MarkdownBg => Text(c.colors.markdownBg)
    case WordBg => Text(c.colors.wordBg)
  }

  /** A configuration is determined by its eight fields. */
  lemma FieldsDetermineConfig(a: Config, b: Config)
    requires forall f :: Get(a, f) == Get(b, f)
    ensures a == b
  {
    assert Get(a, English) == Get(b, English) && Get(a, Chinese) == Get(b, Chinese);
    assert Get(a, H1) == Get(b, H1) && Get(a, H2) == Get(b, H2);
    assert Get(a, H3) == Get(b, H3) && Get(a, Body) == Get(b, Body);
    assert Get(a, MarkdownBg) == Get(b, MarkdownBg) && Get(a, WordBg) == Get(b, WordBg);
  }
}
