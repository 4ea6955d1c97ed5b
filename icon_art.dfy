/**
 * The art catalog: each art variant is a fixed table of styled lines, and
 * its width is the visible width of the line that is longest as a raw
 * string (escape codes included). Variants are printed and parsed by name.
 */
module IconArtCatalog {

  import opened Wrappers
  import opened StyledText

  datatype IconArt = Windows | Arch | Unknown

  function BlueLine(s: string): Text {
    [Span(Normal(Blue), s)]
  }

  const WindowsText: seq<Text> := [
    BlueLine("################  ################"),
    BlueLine("################  ################"),
    BlueLine("################  ################"),
    BlueLine("################  ################"),
    BlueLine("################  ################"),
    BlueLine("################  ################"),
    BlueLine("################  ################"),
    PlainText("                                  "),
    BlueLine("################  ################"),
    BlueLine("################  ################"),
    BlueLine("################  ################"),
    BlueLine("################  ################"),
    BlueLine("################  ################"),
    BlueLine("################  ################"),
    BlueLine("################  ################")
  ]

  const ArchText: seq<Text> := [
    BlueLine("                   -`                 "),
    BlueLine("                  .o+`                "),
    BlueLine("                 `ooo/                "),
    BlueLine("                `+oooo:               "),
    BlueLine("               `+oooooo:              "),
    BlueLine("               -+oooooo+:             "),
    BlueLine("             `/:-:++oooo+:            "),
    BlueLine("            `/++++/+++++++:           "),
    BlueLine("           `/++++++++++++++:          "),
    BlueLine("          `/+++ooooooooooooo/`        "),
    BlueLine("         ./ooosssso++osssssso+`       "),
    BlueLine("        .oossssso-````/ossssss+`      "),
    BlueLine("       -osssssso.      :ssssssso.     "),
    BlueLine("      :osssssss/        osssso+++.    "),
    BlueLine("     /ossssssss/        +ssssooo/-    "),
    BlueLine("   `/ossssso+/:-        -:/+osssso+-  "),
    BlueLine("  `+sso+:-`                 `.-/+oso: "),
    BlueLine(" `++:.                           `-/+/"),
    BlueLine(".`                                 `  ")
  ]

  const UnknownText: seq<Text> := [
    PlainText("       ________       "),
    PlainText("   _jgN########Ngg_    "),
    PlainText(" _N##N@@\"\"  \"\"9NN##Np_ "),
    PlainText("d###P            N####p "),
    PlainText("\"^^\"              T####"),
    PlainText("                  d###P "),
    PlainText("               _g###@F  "),
    PlainText("            _gN##@P     "),
    PlainText("          gN###F\"       "),
    PlainText("         d###F          "),
    PlainText("        0###F           "),
    PlainText("        0###F           "),
    PlainText("        0###F           "),
    PlainText("        \"NN@'           "),
    PlainText("                        "),
    PlainText("         ___            "),
    PlainText("        q###            "),
    PlainText("         \"\"             ")
  ]

  /** The art table of each variant; every table has lines and none holds a column separator. */
  function ToLines(v: IconArt): (lines: seq<Text>)
    ensures |lines| == match v case Windows => 15 case Arch => 19 case Unknown => 18
    ensures forall i :: 0 <= i < |lines| ==> TabFree(lines[i])
  {
    match v
    case Windows => WindowsText
    case Arch => ArchText
    case Unknown => UnknownText
  }

  /**
   * The index `Iterator::max_by` picks when lines are compared by raw
   * length: a line of greatest raw length, the last one among equals.
   */
  function MaxByRawLength(lines: seq<Text>, esc: nat): (k: nat)
    requires |lines| > 0
    ensures k < |lines|
    ensures forall j :: 0 <= j < |lines| ==> RawLength(lines[j], esc) <= RawLength(lines[k], esc)
    ensures forall j :: k < j < |lines| ==> RawLength(lines[j], esc) < RawLength(lines[k], esc)
    decreases |lines|
  {
    if |lines| == 1 then 0
    else
      var last := |lines| - 1;
      var k := MaxByRawLength(lines[..last], esc);
      assert lines[..last][k] == lines[k];
      assert forall j :: 0 <= j < last ==> lines[..last][j] == lines[j];
      if RawLength(lines[k], esc) > RawLength(lines[last], esc) then k else last
  }

  /**
   * The visible width of the line that is longest as a raw string, where
   * each styled span adds `esc` escape characters; 0 for no lines.
   */
  function TableWidth(lines: seq<Text>, esc: nat): (w: nat)
    ensures lines == [] ==> w == 0
    ensures lines != [] ==>
              exists k :: 0 <= k < |lines| && w == Width(lines[k])
                          && forall j :: 0 <= j < |lines| ==> RawLength(lines[j], esc) <= RawLength(lines[k], esc)
  {
    if lines == [] then 0 else Width(lines[MaxByRawLength(lines, esc)])
  }

  /** `get_length`: the width of the variant's table. */
  function GetLength(v: IconArt, esc: nat): nat {
    TableWidth(ToLines(v), esc)
  }

  /** The greatest visible width among the lines. */
  function MaxWidth(lines: seq<Text>): (w: nat)
    ensures forall i :: 0 <= i < |lines| ==> Width(lines[i]) <= w
    ensures lines != [] ==> exists i :: 0 <= i < |lines| && w == Width(lines[i])
    decreases |lines|
  {
    if lines == [] then 0
    else
      var rest := MaxWidth(lines[1..]);
      assert forall i :: 1 <= i < |lines| ==> lines[i] == lines[1..][i - 1];
      if Width(lines[0]) >= rest then Width(lines[0]) else rest
  }

  /** A wider line is never shorter as a raw string. */
  predicate RawOrdersWidth(lines: seq<Text>, esc: nat) {
    forall i, j :: 0 <= i < |lines| && 0 <= j < |lines| && Width(lines[i]) > Width(lines[j])
                   ==> RawLength(lines[i], esc) > RawLength(lines[j], esc)
  }

  /** When raw length orders lines as width does, the raw-longest line is a widest one. */
  lemma RawLongestIsWidest(lines: seq<Text>, esc: nat)
    requires |lines| > 0
    requires RawOrdersWidth(lines, esc)
    ensures Width(lines[MaxByRawLength(lines, esc)]) == MaxWidth(lines)
  {
    var k := MaxByRawLength(lines, esc);
    var i :| 0 <= i < |lines| && MaxWidth(lines) == Width(lines[i]);
  }

  lemma OneSpanWidth(sp: Span)
    ensures Width([sp]) == |sp.text|
    ensures StyledSpans([sp]) == if sp.style == Plain then 0 else 1
  {
    assert [sp][1..] == [];
    assert Strip([sp]) == sp.text + Strip([]);
  }

  /** Lines that all carry the same number of styled spans are ordered by raw length as by width. */
  lemma SameStylingOrdersWidth(lines: seq<Text>, esc: nat)
    requires forall i, j :: 0 <= i < |lines| && 0 <= j < |lines| ==> StyledSpans(lines[i]) == StyledSpans(lines[j])
    ensures RawOrdersWidth(lines, esc)
  {
  }

  /** Lines that all have the same width are trivially ordered by raw length as by width. */
  lemma SameWidthOrdersWidth(lines: seq<Text>, esc: nat)
    requires forall i, j :: 0 <= i < |lines| && 0 <= j < |lines| ==> Width(lines[i]) == Width(lines[j])
    ensures RawOrdersWidth(lines, esc)
  {
  }

  lemma WindowsShape()
    ensures forall i :: 0 <= i < |WindowsText| ==> Width(WindowsText[i]) == 34
  {
    OneSpanWidth(Span(Normal(Blue), "################  ################"));
    OneSpanWidth(Span(Plain, "                                  "));
  }

  lemma ArchShape()
    ensures forall i :: 0 <= i < |ArchText| ==> Width(ArchText[i]) == 38 && StyledSpans(ArchText[i]) == 1
  {
    forall i | 0 <= i < |ArchText|
      ensures Width(ArchText[i]) == 38 && StyledSpans(ArchText[i]) == 1
    {
      OneSpanWidth(ArchText[i][0]);
    }
  }

  lemma UnknownShape()
    ensures forall i :: 0 <= i < |UnknownText| ==> Width(UnknownText[i]) <= 24 && StyledSpans(UnknownText[i]) == 0
    ensures Width(UnknownText[17]) == 24
  {
    forall i | 0 <= i < |UnknownText|
      ensures Width(UnknownText[i]) <= 24 && StyledSpans(UnknownText[i]) == 0
    {
      OneSpanWidth(UnknownText[i][0]);
    }
  }

  /** A table whose widest line has width `w` and whose raw lengths order widths has width `w`. */
  lemma TableWidthIs(lines: seq<Text>, esc: nat, w: nat, widest: nat)
    requires widest < |lines| && Width(lines[widest]) == w
    requires forall i :: 0 <= i < |lines| ==> Width(lines[i]) <= w
    requires RawOrdersWidth(lines, esc)
    ensures TableWidth(lines, esc) == MaxWidth(lines) == w
  {
    RawLongestIsWidest(lines, esc);
  }

  lemma WindowsWidth(esc: nat)
    ensures GetLength(Windows, esc) == MaxWidth(WindowsText) == 34
  {
    WindowsShape();
    SameWidthOrdersWidth(WindowsText, esc);
    TableWidthIs(WindowsText, esc, 34, 0);
  }

  lemma ArchWidth(esc: nat)
    ensures GetLength(Arch, esc) == MaxWidth(ArchText) == 38
  {
    ArchShape();
    SameStylingOrdersWidth(ArchText, esc);
    TableWidthIs(ArchText, esc, 38, 0);
  }

  lemma UnknownWidth(esc: nat)
    ensures GetLength(Unknown, esc) == MaxWidth(UnknownText) == 24
  {
    UnknownShape();
    SameStylingOrdersWidth(UnknownText, esc);
    TableWidthIs(UnknownText, esc, 24, 17);
  }

  /**
   * Whatever the escape length, the art width is the widest visible line of
   * the table, so the padding of the info-only rows is never narrower than
   * an art line.
   */
  lemma GetLengthIsWidestLine(v: IconArt, esc: nat)
    ensures GetLength(v, esc) == MaxWidth(ToLines(v))
    ensures forall i :: 0 <= i < |ToLines(v)| ==> Width(ToLines(v)[i]) <= GetLength(v, esc)
  {
    var lines := ToLines(v);
    assert GetLength(v, esc) == MaxWidth(lines) by {
      match v
      case Windows => WindowsWidth(esc);
      case Arch => ArchWidth(esc);
      case Unknown => UnknownWidth(esc);
    }
  }

  // ---------------------------------------------------------------------------
  // Names: `Display`, the derived `FromStr`, and clap's `ValueEnum`.

  /** The variant's name, as `Display` writes it. */
  function Name(v: IconArt): string {
    match v
    case Windows => "Windows"
    case Arch => "Arch"
    case Unknown => "Unknown"
  }

  /**
   * The derived `FromStr`: the variant whose name is exactly `s` (case
   * matters), and nothing for any other string.
   */
  function ParseName(s: string): (r: Option<IconArt>)
    ensures r.Some? ==> Name(r.value) == s
    ensures r.None? ==> forall v :: Name(v) != s
  {
    if s == "Windows" then Some(Windows)
    else if s == "Arch" then Some(Arch)
    else if s == "Unknown" then Some(Unknown)
    else None
  }

  const ParseErrorMessage: string := "Failed to parse art icon"

  /**
   * `ValueEnum::from_str`: the derived parse, with its error replaced by a
   * fixed message. The case flag is not consulted.
   */
  function FromStr(input: string, ignoreCase: bool): (r: Result<IconArt, string>)
    ensures r.Ok? <==> exists v :: Name(v) == input
    ensures r.Ok? ==> Name(r.value) == input
    ensures r.Err? ==> r.error == ParseErrorMessage
  {
    match ParseName(input)
    case Some(v) => Ok(v)
    case None => Err(ParseErrorMessage)
  }

  /** Printing a variant and parsing the name gives the variant back. */
  lemma NameRoundTrip(v: IconArt, ignoreCase: bool)
    ensures FromStr(Name(v), ignoreCase) == Ok(v)
    ensures ParseName(Name(v)) == Some(v)
  {
  }

  /** Parsing is exact: changing the case of a name makes it fail. */
  lemma FromStrIsCaseSensitive(ignoreCase: bool)
    ensures FromStr("windows", ignoreCase) == Err(ParseErrorMessage)
    ensures FromStr("ARCH", ignoreCase) == Err(ParseErrorMessage)
    ensures FromStr("", ignoreCase) == Err(ParseErrorMessage)
  {
  }

  /** Position of a variant in the enum's declaration. */
  function DeclIndex(v: IconArt): nat {
    match v
    case Windows => 0
    case Arch => 1
    case Unknown => 2
  }

  /** `value_variants`: every variant, once each, in declaration order. */
  function ValueVariants(): (vs: seq<IconArt>)
    ensures |vs| == 3
    ensures forall i :: 0 <= i < |vs| ==> DeclIndex(vs[i]) == i
    ensures forall i, j :: 0 <= i < j < |vs| ==> vs[i] != vs[j]
  {
    [Windows, Arch, Unknown]
  }

  /** Every variant is offered by `value_variants`. */
  lemma ValueVariantsComplete(v: IconArt)
    ensures v in ValueVariants()
  {
    match v
    case Windows => assert ValueVariants()[0] == v;
    case Arch => assert ValueVariants()[1] == v;
    case Unknown => assert ValueVariants()[2] == v;
  }

  /** `to_possible_value`: the name clap offers for the variant. */
  function ToPossibleValue(v: IconArt): (name: Option<string>)
    ensures name.Some? && FromStr(name.value, false) == Ok(v)
  {
    Some(Name(v))
  }
}
