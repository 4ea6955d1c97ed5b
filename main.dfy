/**
 * The program's entry point: pick the art (the command-line override, or
 * the art named by the operating system), build the info lines, and lay
 * the two out side by side as two columns separated by a tab.
 */
module Renderer {

  import opened Wrappers
  import opened StyledText
  import opened IconArtCatalog
  import opened CliArgs
  import opened InfoBuilder

  /**
   * `get_system_icon_art`: the art whose name is exactly the operating
   * system's name, and `Unknown` for any other name or when the name cannot
   * be read (read as the empty string).
   */
  function SystemIconArt(osName: Option<string>): (v: IconArt)
    ensures forall w :: osName == Some(Name(w)) ==> v == w
    ensures (forall w :: osName != Some(Name(w))) ==> v == Unknown
  {
    ParseName(osName.GetOr("")).GetOr(Unknown)
  }

  /** The art `main` renders: an explicit choice on the command line always wins. */
  function ChooseArt(choice: Option<IconArt>, osName: Option<string>): (v: IconArt)
    ensures choice.Some? ==> v == choice.value
    ensures choice.None? ==> forall w :: osName == Some(Name(w)) ==> v == w
    ensures choice.None? && (forall w :: osName != Some(Name(w))) ==> v == Unknown
  {
    choice.GetOr(SystemIconArt(osName))
  }

  /** The two spaces every rendered line starts with. */
  const Indent: Text := PlainText("  ")

  function Max(a: nat, b: nat): nat {
    if a >= b then a else b
  }

  /**
   * Line `i + 1` of the layout: art and info joined by a tab, the art line
   * alone, or `width` spaces standing in for the art before the info line.
   */
  function Row(art: seq<Text>, width: nat, info: seq<Text>, i: nat): Text
    requires i < |art| || i < |info|
  {
    if i < |art| && i < |info| then Indent + art[i] + [TabSpan] + info[i]
    else if i < |art| then Indent + art[i]
    else Indent + Spaces(width) + [TabSpan] + info[i]
  }

  /** A blank line, then one row per line of the longer column. */
  predicate IsLayout(out: seq<Text>, art: seq<Text>, width: nat, info: seq<Text>) {
    && |out| == 1 + Max(|art|, |info|)
    && out[0] == []
    && forall i :: 0 <= i < |out| - 1 ==> out[i + 1] == Row(art, width, info, i)
  }

  /**
   * The loop of `render`: walk the two columns together up to the longer one,
   * emitting one row per step.
   */
  method ZipLongest(art: seq<Text>, width: nat, info: seq<Text>) returns (out: seq<Text>)
    ensures IsLayout(out, art, width, info)
  {
    out := [[]];
    for i := 0 to Max(|art|, |info|)
      invariant |out| == 1 + i && out[0] == []
      invariant forall k :: 0 <= k < i ==> out[k + 1] == Row(art, width, info, k)
    {
      if i < |art| && i < |info| {
        out := out + [Indent + art[i] + [TabSpan] + info[i]];
      } else if i < |art| {
        out := out + [Indent + art[i]];
      } else {
        out := out + [Indent + Spaces(width) + [TabSpan] + info[i]];
      }
    }
  }

  /** `render`: a blank line, then the art and the info lines zipped to the longer of the two. */
  method Render(icon: IconArt, info: seq<Text>, esc: nat) returns (out: seq<Text>)
    ensures IsLayout(out, ToLines(icon), GetLength(icon, esc), info)
  {
    var art := ToLines(icon);
    var width := GetLength(icon, esc);
    out := ZipLongest(art, width, info);
  }

  /** `main`: the info lines for the options and the system, rendered beside the chosen art. */
  method Run(args: Cli, sys: Snapshot, osName: Option<string>, esc: nat) returns (out: seq<Text>)
    requires CpuLookupsDefined(args, sys)
    ensures IsLayout(out, ToLines(ChooseArt(args.iconArt, osName)),
                     GetLength(ChooseArt(args.iconArt, osName), esc), InfoLines(args, sys))
  {
    var info := BuildInfoLines(args, sys);
    var icon := ChooseArt(args.iconArt, osName);
    out := Render(icon, info, esc);
  }

  // ---------------------------------------------------------------------------
  // What the layout promises.

  /** The text of each row as printed, escape codes aside. */
  lemma RowText(art: seq<Text>, width: nat, info: seq<Text>, i: nat)
    requires i < |art| || i < |info|
    ensures i < |art| && i < |info| ==>
              Strip(Row(art, width, info, i)) == "  " + Strip(art[i]) + "\t" + Strip(info[i])
    ensures i < |art| && i >= |info| ==> Strip(Row(art, width, info, i)) == "  " + Strip(art[i])
    ensures i >= |art| ==>
              Strip(Row(art, width, info, i)) == "  " + Repeat(' ', width) + "\t" + Strip(info[i])
  {
    OneSpan(Span(Plain, "  "));
    OneSpan(TabSpan);
    OneSpan(Span(Plain, Repeat(' ', width)));
    if i < |art| && i < |info| {
      StripAppend(Indent + art[i] + [TabSpan], info[i]);
      StripAppend(Indent + art[i], [TabSpan]);
      StripAppend(Indent, art[i]);
    } else if i < |art| {
      StripAppend(Indent, art[i]);
    } else {
      StripAppend(Indent + Spaces(width) + [TabSpan], info[i]);
      StripAppend(Indent + Spaces(width), [TabSpan]);
      StripAppend(Indent, Spaces(width));
    }
  }

  lemma OneSpan(sp: Span)
    ensures Strip([sp]) == sp.text
  {
    assert Strip([sp]) == sp.text + Strip([]);
  }

  /** The part of each row before its tab: the indented art line, or the indented padding. */
  lemma RowColumns(art: seq<Text>, width: nat, info: seq<Text>, i: nat)
    requires i < |art| || i < |info|
    requires forall j :: 0 <= j < |art| ==> TabFree(art[j])
    ensures i < |info| ==> AfterTab(Row(art, width, info, i)) == Some(info[i])
    ensures i >= |info| ==> AfterTab(Row(art, width, info, i)) == None
    ensures i < |art| ==> BeforeTab(Row(art, width, info, i)) == Indent + art[i]
    ensures i >= |art| ==> BeforeTab(Row(art, width, info, i)) == Indent + Spaces(width)
  {
    if i < |art| {
      assert TabFree(Indent + art[i]) by {
        forall k | 0 <= k < |Indent + art[i]| ensures (Indent + art[i])[k] != TabSpan {
          if k > 0 { assert (Indent + art[i])[k] == art[i][k - 1]; }
        }
      }
      if i < |info| {
        SplitAtTab(Indent + art[i], info[i]);
      } else {
        NoTab(Indent + art[i]);
      }
    } else {
      assert TabFree(Indent + Spaces(width)) by {
        forall k | 0 <= k < |Indent + Spaces(width)| ensures (Indent + Spaces(width))[k] != TabSpan {
          if k > 0 { assert (Indent + Spaces(width))[k] == Spaces(width)[k - 1]; }
        }
      }
      SplitAtTab(Indent + Spaces(width), info[i]);
    }
  }

  /** What follows the first tab of each row that has one, in row order. */
  function InfoColumn(rows: seq<Text>): seq<Text>
    decreases |rows|
  {
    if rows == [] then []
    else (match AfterTab(rows[0]) case Some(right) => [right] case None => []) + InfoColumn(rows[1..])
  }

  lemma {:induction false} InfoColumnFrom(out: seq<Text>, art: seq<Text>, width: nat, info: seq<Text>, k: nat)
    requires IsLayout(out, art, width, info)
    requires forall j :: 0 <= j < |art| ==> TabFree(art[j])
    requires k <= |out| - 1
    ensures InfoColumn(out[1 + k..]) == if k < |info| then info[k..] else []
    decreases |out| - k
  {
    if k < |out| - 1 {
      var rows := out[1 + k..];
      assert rows[0] == Row(art, width, info, k);
      assert rows[1..] == out[1 + (k + 1)..];
      RowColumns(art, width, info, k);
      InfoColumnFrom(out, art, width, info, k + 1);
      if k < |info| {
        assert InfoColumn(rows) == [info[k]] + InfoColumn(rows[1..]);
        assert info[k..] == [info[k]] + info[k + 1..];
      } else {
        assert InfoColumn(rows) == InfoColumn(rows[1..]);
      }
    }
  }

  /**
   * Removing the art and the tab from every row gives back the info lines
   * exactly and in order; the rows after the last info line carry no tab.
   */
  lemma RecoverInfo(out: seq<Text>, art: seq<Text>, width: nat, info: seq<Text>)
    requires IsLayout(out, art, width, info)
    requires forall j :: 0 <= j < |art| ==> TabFree(art[j])
    ensures InfoColumn(out[1..]) == info
    ensures forall j :: |info| < j < |out| ==> AfterTab(out[j]) == None
  {
    InfoColumnFrom(out, art, width, info, 0);
    forall j | |info| < j < |out| ensures AfterTab(out[j]) == None {
      RowColumns(art, width, info, j - 1);
    }
  }

  /**
   * Everything before the tab is the indent followed by the art line, in
   * order; the rows past the art hold only the indented padding.
   */
  lemma RecoverArt(out: seq<Text>, art: seq<Text>, width: nat, info: seq<Text>)
    requires IsLayout(out, art, width, info)
    requires forall j :: 0 <= j < |art| ==> TabFree(art[j])
    ensures forall j :: 0 < j <= |art| ==> BeforeTab(out[j]) == Indent + art[j - 1]
    ensures forall j :: |art| < j < |out| ==> BeforeTab(out[j]) == Indent + Spaces(width)
  {
    forall j | 0 < j < |out|
      ensures j <= |art| ==> BeforeTab(out[j]) == Indent + art[j - 1]
      ensures j > |art| ==> BeforeTab(out[j]) == Indent + Spaces(width)
    {
      RowColumns(art, width, info, j - 1);
    }
  }

  /** The program prints the built info lines, in order, whichever art is chosen. */
  lemma RunShowsInfo(args: Cli, sys: Snapshot, osName: Option<string>, esc: nat, out: seq<Text>)
    requires CpuLookupsDefined(args, sys)
    requires IsLayout(out, ToLines(ChooseArt(args.iconArt, osName)),
                      GetLength(ChooseArt(args.iconArt, osName), esc), InfoLines(args, sys))
    ensures InfoColumn(out[1..]) == InfoLines(args, sys)
  {
    var icon := ChooseArt(args.iconArt, osName);
    RecoverInfo(out, ToLines(icon), GetLength(icon, esc), InfoLines(args, sys));
  }
}
