/**
 * How a template literal is laid out in each service. OpenAI's literals are
 * the template's lines joined by line breaks. Gemini's literals start with a
 * line break, indent every line by six spaces and end with a line break and
 * four spaces: the same as joining an empty first line, the indented lines and
 * a last line of four spaces.
 */
module Layout {
  import opened Text

  /** The service a template literal comes from. */
  datatype Provider = OpenAI | Gemini

  /** The indentation each line of a template literal carries. */
  function IndentOf(p: Provider): string {
    if p == Gemini then "      " else ""
  }

  /** Every line prefixed with the provider's indentation. */
  function Indented(p: Provider, lines: seq<string>): (r: seq<string>)
    ensures |r| == |lines|
    ensures forall i :: 0 <= i < |r| ==> r[i] == IndentOf(p) + lines[i]
  {
    seq(|lines|, i requires 0 <= i < |lines| => IndentOf(p) + lines[i])
  }

  /** The physical lines of the literal, framing included. */
  function Laid(p: Provider, lines: seq<string>): seq<string> {
    match p
    case OpenAI => lines
    case Gemini => [""] + Indented(p, lines) + ["    "]
  }

  /** The template literal built from the template's lines. */
  function Render(p: Provider, lines: seq<string>): string {
    Join(Laid(p, lines), "\n")
  }

  /** The physical lines up to a splice point: the opening frame and the indented head. */
  function LaidHead(p: Provider, head: seq<string>): seq<string> {
    match p
    case OpenAI => head
    case Gemini => [""] + Indented(p, head)
  }

  /** The physical lines from a splice point: the indented close and the closing frame. */
  function LaidClose(p: Provider, close: seq<string>): seq<string> {
    match p
    case OpenAI => close
    case Gemini => Indented(p, close) + ["    "]
  }

  /** The rendering of a template's first lines, up to where a line may be spliced in. */
  function StartOf(p: Provider, head: seq<string>): string {
    Join(LaidHead(p, head), "\n")
  }

  /** The rendering of a template's last lines, from where a line may be spliced in. */
  function EndOf(p: Provider, close: seq<string>): string {
    "\n" + Join(LaidClose(p, close), "\n")
  }

  /** Laying out a spliced template lays out its parts. */
  lemma LaidSplice(p: Provider, head: seq<string>, line: string, close: seq<string>)
    ensures Laid(p, head + close) == LaidHead(p, head) + LaidClose(p, close)
    ensures Laid(p, head + [line] + close) == LaidHead(p, head) + [IndentOf(p) + line] + LaidClose(p, close)
  {
    if p == Gemini {
      IndentedAppend(p, head, close);
      IndentedAppend(p, head + [line], close);
      IndentedAppend(p, head, [line]);
    } else {
      assert IndentOf(p) + line == line;
    }
  }

  /**
   * Rendering a template with one extra line between a non-empty head and a
   * non-empty close inserts a line break, the indentation and that line into
   * the rendering of head and close.
   */
  lemma RenderSplice(p: Provider, head: seq<string>, line: string, close: seq<string>)
    requires head != [] && close != []
    ensures Render(p, head + close) == StartOf(p, head) + EndOf(p, close)
    ensures Render(p, head + [line] + close) == StartOf(p, head) + "\n" + IndentOf(p) + line + EndOf(p, close)
  {
    LaidSplice(p, head, line, close);
    var h, c := LaidHead(p, head), LaidClose(p, close);
    JoinSplice(h, IndentOf(p) + line, c, "\n");
  }

  /** Indenting distributes over concatenation. */
  lemma IndentedAppend(p: Provider, a: seq<string>, b: seq<string>)
    ensures Indented(p, a + b) == Indented(p, a) + Indented(p, b)
  {
  }

  /** Joining with one element spliced between two non-empty lists. */
  lemma JoinSplice(head: seq<string>, line: string, close: seq<string>, sep: string)
    requires head != [] && close != []
    ensures Join(head + close, sep) == Join(head, sep) + (sep + Join(close, sep))
    ensures Join(head + [line] + close, sep) == Join(head, sep) + sep + line + (sep + Join(close, sep))
  {
    assert head + [line] + close == head + ([line] + close);
    JoinAppend(head, close, sep);
    JoinAppend([line], close, sep);
    JoinAppend(head, [line] + close, sep);
  }

  /** Every line of a template occurs in its rendering. */
  lemma RenderContainsLine(p: Provider, lines: seq<string>, k: nat)
    requires k < |lines|
    ensures Contains(Render(p, lines), lines[k])
  {
    var laid := Laid(p, lines);
    var at := if p == Gemini then k + 1 else k;
    assert laid[at] == IndentOf(p) + lines[k];
    JoinContainsElement(laid, "\n", at);
    ContainsSuffixPart(Join(laid, "\n"), IndentOf(p), lines[k]);
  }
}
