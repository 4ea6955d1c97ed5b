/**
 * Terminal text as the colouring library builds it: a line is a sequence of
 * spans, each a piece of visible text under one style. Stripping the escape
 * codes keeps the visible text and drops the styles; the escape codes
 * themselves are not modelled, only how many characters they add.
 */
module StyledText {

  import opened Wrappers

  datatype Color = Black | Red | Green | Yellow | Blue | Magenta | Cyan | White

  /** Plain text, a normal foreground colour, or a bright foreground colour. */
  datatype Style = Plain | Normal(color: Color) | Bright(color: Color)

  datatype Span = Span(style: Style, text: string)

  type Text = seq<Span>

  function PlainText(s: string): Text {
    [Span(Plain, s)]
  }

  /** The column separator the renderer writes between the two columns. */
  const TabSpan: Span := Span(Plain, "\t")

  /** The visible characters of a line: what remains once escape codes are stripped. */
  function Strip(t: Text): string
    decreases |t|
  {
    if t == [] then "" else t[0].text + Strip(t[1..])
  }

  /** Visible width of a line. */
  function Width(t: Text): nat {
    |Strip(t)|
  }

  /** Number of spans the colouring library wraps in escape codes. */
  function StyledSpans(t: Text): nat
    decreases |t|
  {
    if t == [] then 0 else (if t[0].style == Plain then 0 else 1) + StyledSpans(t[1..])
  }

  /**
   * Length of the line as a string with its escape codes, where each styled
   * span adds `esc` characters (the length of its opening and reset codes;
   * zero when the colouring library emits none).
   */
  function RawLength(t: Text, esc: nat): (n: nat)
    ensures n >= Width(t)
    ensures StyledSpans(t) == 0 ==> n == Width(t)
  {
    Width(t) + esc * StyledSpans(t)
  }

  lemma {:induction false} StripAppend(a: Text, b: Text)
    ensures Strip(a + b) == Strip(a) + Strip(b)
    decreases |a|
  {
    if a == [] {
      assert a + b == b;
    } else {
      assert (a + b)[1..] == a[1..] + b;
      StripAppend(a[1..], b);
    }
  }

  /** `c` repeated `n` times (Rust's `str::repeat` on a one-character string). */
  function Repeat(c: char, n: nat): (s: string)
    ensures |s| == n
    ensures forall i :: 0 <= i < n ==> s[i] == c
  {
    seq(n, _ => c)
  }

  /** A plain run of `n` spaces. */
  function Spaces(n: nat): (t: Text)
    ensures Width(t) == n && StyledSpans(t) == 0
    ensures TabFree(t)
  {
    var s := Repeat(' ', n);
    assert s != "\t" by {
      if n == 1 { assert s[0] == ' '; }
    }
    assert Strip([Span(Plain, s)]) == s + Strip([]);
    [Span(Plain, s)]
  }

  /** The line contains no column separator. */
  predicate TabFree(t: Text) {
    forall k :: 0 <= k < |t| ==> t[k] != TabSpan
  }

  /** The part of a line after its first column separator, if it has one. */
  function AfterTab(t: Text): (r: Option<Text>)
    decreases |t|
  {
    if t == [] then None
    else if t[0] == TabSpan then Some(t[1..])
    else AfterTab(t[1..])
  }

  /** The part of a line before its first column separator (all of it if it has none). */
  function BeforeTab(t: Text): (r: Text)
    decreases |t|
  {
    if t == [] || t[0] == TabSpan then [] else [t[0]] + BeforeTab(t[1..])
  }

  lemma {:induction false} SplitAtTab(a: Text, b: Text)
    requires TabFree(a)
    ensures AfterTab(a + [TabSpan] + b) == Some(b)
    ensures BeforeTab(a + [TabSpan] + b) == a
    decreases |a|
  {
    if a == [] {
      assert a + [TabSpan] + b == [TabSpan] + b;
    } else {
      assert (a + [TabSpan] + b)[1..] == a[1..] + [TabSpan] + b;
      SplitAtTab(a[1..], b);
    }
  }

  lemma {:induction false} NoTab(a: Text)
    requires TabFree(a)
    ensures AfterTab(a) == None
    ensures BeforeTab(a) == a
    decreases |a|
  {
    if a != [] {
      NoTab(a[1..]);
    }
  }
}
