/**
 * The colour and symbol a feature indicator is drawn with: one Tailwind colour family per
 * status, in three shades (background, border, text), and one symbol per status.
 */
module Utils {
  import opened Wrappers
  import opened MockData

  datatype IndicatorStyles = IndicatorStyles(bg: string, border: string, text: string, symbol: string)

  /** The Tailwind colour family of a status. */
  function ColourFamily(status: IndicatorStatus): string {
    match status
    case Excellent => "emerald"
    case Fair => "amber"
    case Poor => "red"
  }

  /** The symbol of a status: a check mark, a warning sign, a cross. */
  function Symbol(status: IndicatorStatus): string {
    match status
    case Excellent => "\U{2713}"
    case Fair => "\U{26A0}\U{FE0F}"
    case Poor => "\U{2715}"
  }

  /**
   * The styles for a status. Every status has one: each class is the property prefix, the
   * status's colour family and the shade (100, 500, 700), and the symbol tells the status apart.
   */
  function GetIndicatorStyles(status: IndicatorStatus): (r: IndicatorStyles)
    ensures StatusOfSymbol(r.symbol) == Some(status)
    ensures ClassFamily(r.bg, "bg-", "-100") == Some(ColourFamily(status))
    ensures ClassFamily(r.border, "border-", "-500") == Some(ColourFamily(status))
    ensures ClassFamily(r.text, "text-", "-700") == Some(ColourFamily(status))
  {
    var family := ColourFamily(status);
    ClassFamilyOf("bg-", family, "-100");
    ClassFamilyOf("border-", family, "-500");
    ClassFamilyOf("text-", family, "-700");
    IndicatorStyles("bg-" + family + "-100", "border-" + family + "-500", "text-" + family + "-700", Symbol(status))
  }

  /**
   * Reads the colour family out of a class name made of `prefix`, the family and `shade`;
   * `None` when the name does not start with `prefix` and end with `shade`.
   */
  function ClassFamily(name: string, prefix: string, shade: string): Option<string> {
    if |prefix| + |shade| <= |name| && name[..|prefix|] == prefix && name[|name| - |shade|..] == shade
    then Some(name[|prefix|..|name| - |shade|])
    else None
  }

  /** A class name built from a prefix, a family and a shade reads back as that family. */
  lemma ClassFamilyOf(prefix: string, family: string, shade: string)
    ensures ClassFamily(prefix + family + shade, prefix, shade) == Some(family)
  {
    var name := prefix + family + shade;
    assert name[..|prefix|] == prefix;
    assert name[|name| - |shade|..] == shade;
    assert name[|prefix|..|name| - |shade|] == family;
  }

  /** Reads a status back from the symbol drawn for it; other text names no status. */
  function StatusOfSymbol(symbol: string): (r: Option<IndicatorStatus>)
    ensures r.Some? ==> Symbol(r.value) == symbol
  {
    if symbol == "\U{2713}" then Some(Excellent)
    else if symbol == "\U{26A0}\U{FE0F}" then Some(Fair)
    else if symbol == "\U{2715}" then Some(Poor)
    else None
  }

  /** Different statuses are drawn differently: in symbol and in every colour class. */
  lemma StylesInjective(s1: IndicatorStatus, s2: IndicatorStatus)
    requires s1 != s2
    ensures GetIndicatorStyles(s1).symbol != GetIndicatorStyles(s2).symbol
    ensures GetIndicatorStyles(s1).bg != GetIndicatorStyles(s2).bg
    ensures GetIndicatorStyles(s1).border != GetIndicatorStyles(s2).border
    ensures GetIndicatorStyles(s1).text != GetIndicatorStyles(s2).text
  {
  }
}
