/** The chat widget's message markup: paragraphs separated by a blank line,
    lines, bullet lines (`- ` or `* `), numbered lines (`12. text`) and bold
    spans between `**` markers. The model returns the structure that the
    widget renders, without the markup around it. */
module Markup {
  import opened Common
  import opened Text

  const BoldMarker := "**"
  const ParagraphBreak := "\n\n"
  const LineBreak := "\n"

  /** A piece of text, rendered bold or plain. */
  datatype Span = Span(text: string, bold: bool)

  /** One rendered line of a message. */
  datatype Item =
    | Bullet(spans: seq<Span>)
    | Numbered(number: string, spans: seq<Span>)
    | Plain(spans: seq<Span>)

  function Texts(spans: seq<Span>): (r: seq<string>)
    ensures |r| == |spans| && forall i :: 0 <= i < |spans| ==> r[i] == spans[i].text
  {
    seq(|spans|, i requires 0 <= i < |spans| => spans[i].text)
  }

  /** The text a run of spans was cut from: the pieces joined by the marker. */
  function Source(spans: seq<Span>): string {
    Join(Texts(spans), BoldMarker)
  }

  /** `formatTextWithBold`: split on `**`; every odd-numbered piece is bold. */
  function FormatTextWithBold(text: string): (spans: seq<Span>)
    ensures |spans| == Occurrences(text, BoldMarker) + 1
    ensures forall i :: 0 <= i < |spans| ==> (spans[i].bold <==> i % 2 == 1)
    ensures forall i :: 0 <= i < |spans| ==> !Contains(spans[i].text, BoldMarker)
    ensures Source(spans) == text
    // the pieces are those of the leftmost split on the marker
    ensures Texts(spans) == Split(text, BoldMarker)
  {
    var parts := Split(text, BoldMarker);
    SplitCount(text, BoldMarker);
    SplitJoin(text, BoldMarker);
    SplitPiecesFree(text, BoldMarker);
    var spans := seq(|parts|, i requires 0 <= i < |parts| => Span(parts[i], i % 2 == 1));
    assert Texts(spans) == parts;
    spans
  }

  // ------------------------------------------------------------ line kinds

  /** The bullet test of a trimmed line. */
  predicate IsBullet(t: string) {
    StartsWith(t, "- ") || StartsWith(t, "* ")
  }

  /** The characters the regular-expression wildcard `.` does not match
      (their ASCII members). */
  predicate IsLineTerminator(c: char) {
    c == '\n' || c == '\r'
  }

  predicate NoTerminator(s: string) {
    forall i :: 0 <= i < |s| ==> !IsLineTerminator(s[i])
  }

  /** The longest run of digits at the start of `s` (what `\d+` takes). */
  function DigitPrefix(s: string): (d: string)
    ensures |d| <= |s| && d == s[..|d|] && AllDigits(d)
    ensures |d| == |s| || !IsDigit(s[|d|])
  {
    if |s| > 0 && IsDigit(s[0]) then [s[0]] + DigitPrefix(s[1..]) else []
  }

  /** The longest run at the start of `s` that `.+` can take. */
  function TakeLine(s: string): (r: string)
    ensures |r| <= |s| && r == s[..|r|] && NoTerminator(r)
    ensures |r| == |s| || IsLineTerminator(s[|r|])
  {
    if |s| > 0 && !IsLineTerminator(s[0]) then [s[0]] + TakeLine(s[1..]) else []
  }

  /** The last character of `s` that `.` matches, if there is one. */
  function LastNonTerminator(s: string): (r: Option<char>)
    ensures r.Some? ==> !IsLineTerminator(r.value)
    ensures r.None? ==> forall i :: 0 <= i < |s| ==> IsLineTerminator(s[i])
    ensures r.Some? ==> exists i :: 0 <= i < |s| && s[i] == r.value && forall k :: i < k < |s| ==> IsLineTerminator(s[k])
    decreases |s|
  {
    if s == [] then None
    else if !IsLineTerminator(s[|s| - 1]) then Some(s[|s| - 1])
    else LastNonTerminator(s[..|s| - 1])
  }

  /** What `\s*(.+)` captures at the start of `r`. The greedy `\s*` takes the
      whole leading whitespace when something follows it; when `r` is all
      whitespace it backs off until `.+` can take one character. */
  function MatchContent(r: string): (c: Option<string>)
    ensures c.Some? ==> c.value != [] && NoTerminator(c.value)
  {
    var after := TrimStart(r);
    if after != [] then
      assert !IsLineTerminator(after[0]);
      Some(TakeLine(after))
    else
      match LastNonTerminator(r)
      case None => None
      case Some(ch) => Some([ch])
  }

  /** `t.match(/^(\d+)\.\s*(.+)/)`: the digit run and the captured content. */
  function MatchNumbered(t: string): (m: Option<(string, string)>)
    ensures m.Some? ==> m.value.0 != [] && AllDigits(m.value.0) && StartsWith(t, m.value.0 + ".")
    ensures m.Some? ==> m.value.1 != [] && NoTerminator(m.value.1)
  {
    var d := DigitPrefix(t);
    if d == [] || |d| == |t| || t[|d|] != '.' then None
    else
      match MatchContent(t[|d| + 1..])
      case None => None
      case Some(c) =>
        PrefixThenDot(t, d);
        Some((d, c))
  }

  lemma PrefixThenDot(t: string, d: string)
    requires |d| < |t| && d == t[..|d|] && t[|d|] == '.'
    ensures StartsWith(t, d + ".")
  {
    assert t[..|d| + 1] == t[..|d|] + [t[|d|]];
  }

  /** The rendering of one line of a paragraph, `None` for a line that
      renders nothing. The bullet test comes first, then the numbered test;
      a plain line is rendered from the line as it was, not trimmed. */
  function FormatLine(line: string): (r: Option<Item>)
    ensures r.None? <==> IsBlank(line)
    ensures r.Some? && r.value.Bullet? ==>
      IsBullet(Trim(line)) && Source(r.value.spans) == Trim(line)[2..]
    ensures r.Some? && r.value.Numbered? ==>
      !IsBullet(Trim(line)) && MatchNumbered(Trim(line)) == Some((r.value.number, Source(r.value.spans)))
    ensures r.Some? && r.value.Plain? ==>
      !IsBullet(Trim(line)) && MatchNumbered(Trim(line)).None? && Source(r.value.spans) == line
    ensures r.Some? && IsBullet(Trim(line)) ==> r.value.Bullet?
    // every rendered text goes through the bold formatting
    ensures r.Some? && r.value.Bullet? ==> r.value.spans == FormatTextWithBold(Trim(line)[2..])
    ensures r.Some? && r.value.Numbered? ==>
      MatchNumbered(Trim(line)).Some? && r.value.spans == FormatTextWithBold(MatchNumbered(Trim(line)).value.1)
    ensures r.Some? && r.value.Plain? ==> r.value.spans == FormatTextWithBold(line)
  {
    var t := Trim(line);
    if t == [] then None
    else if IsBullet(t) then Some(Bullet(FormatTextWithBold(t[2..])))
    else
      match MatchNumbered(t)
      case Some((number, content)) => Some(Numbered(number, FormatTextWithBold(content)))
      case None => Some(Plain(FormatTextWithBold(line)))
  }

  function Paragraphs(text: string): seq<string> {
    Split(text, ParagraphBreak)
  }

  function Lines(paragraph: string): seq<string> {
    Split(paragraph, LineBreak)
  }

  /** `formatMessage`: one entry per paragraph, and in it one entry per line. */
  function FormatMessage(text: string): (r: seq<seq<Option<Item>>>)
    ensures |r| == |Paragraphs(text)|
    ensures forall p :: 0 <= p < |r| ==> |r[p]| == |Lines(Paragraphs(text)[p])|
    ensures forall p, l :: 0 <= p < |r| && 0 <= l < |r[p]| ==>
      (r[p][l].None? <==> IsBlank(Lines(Paragraphs(text)[p])[l]))
    // each entry is the rendering of its own line
    ensures forall p, l :: 0 <= p < |r| && 0 <= l < |r[p]| ==>
      r[p][l] == FormatLine(Lines(Paragraphs(text)[p])[l])
  {
    var paragraphs := Paragraphs(text);
    seq(|paragraphs|, p requires 0 <= p < |paragraphs| =>
      var lines := Lines(paragraphs[p]);
      seq(|lines|, l requires 0 <= l < |lines| => FormatLine(lines[l])))
  }

  // ------------------------------------------------------------ lemmas

  /** Each paragraph re-assembled from its lines. */
  function RejoinLines(paragraphs: seq<string>): (r: seq<string>)
    ensures |r| == |paragraphs|
  {
    seq(|paragraphs|, p requires 0 <= p < |paragraphs| => Join(Lines(paragraphs[p]), LineBreak))
  }

  /** The paragraphs and lines the renderer walks cover the whole message:
      re-joining the lines of each paragraph with a line break, and the
      paragraphs with a blank line, gives back the message. */
  lemma MessageStructureLossless(text: string)
    ensures Join(RejoinLines(Paragraphs(text)), ParagraphBreak) == text
  {
    var ps := Paragraphs(text);
    var joined := RejoinLines(ps);
    forall p | 0 <= p < |ps| ensures joined[p] == ps[p] {
      SplitJoin(ps[p], LineBreak);
    }
    assert joined == ps;
    SplitJoin(text, ParagraphBreak);
  }

  /** No line that the renderer looks at holds a line break. */
  lemma LinesHaveNoBreak(paragraph: string)
    ensures forall l, i :: 0 <= l < |Lines(paragraph)| && 0 <= i < |Lines(paragraph)[l]| ==>
      Lines(paragraph)[l][i] != '\n'
  {
    var ls := Lines(paragraph);
    SplitPiecesFree(paragraph, LineBreak);
    forall l, i | 0 <= l < |ls| && 0 <= i < |ls[l]| ensures ls[l][i] != '\n' {
      if ls[l][i] == '\n' {
        assert OccursAt(ls[l], LineBreak, i);
        assert false;
      }
    }
  }

  lemma TrimStartOfSpaces(ws: string, c: string)
    requires AllSpace(ws) && c != [] && !IsSpace(c[0])
    ensures TrimStart(ws + c) == c
    decreases |ws|
  {
    if ws != [] {
      assert (ws + c)[1..] == ws[1..] + c;
      TrimStartOfSpaces(ws[1..], c);
    } else {
      assert ws + c == c;
    }
  }

  lemma TakeLineWhole(c: string)
    requires NoTerminator(c)
    ensures TakeLine(c) == c
  {
    var r := TakeLine(c);
    assert |r| == |c|;
  }

  /** The digit run of a string that continues with a non-digit. */
  lemma {:induction false} DigitPrefixOf(n: string, rest: string)
    requires AllDigits(n) && rest != [] && !IsDigit(rest[0])
    ensures DigitPrefix(n + rest) == n
    decreases |n|
  {
    if n != [] {
      assert (n + rest)[1..] == n[1..] + rest;
      DigitPrefixOf(n[1..], rest);
    } else {
      assert n + rest == rest;
    }
  }

  /** A line made of a digit run, a dot, optional whitespace and a content
      that starts with a non-space and holds no line terminator is numbered
      with exactly that number and content. */
  lemma {:induction false} NumberedComplete(n: string, ws: string, c: string)
    requires n != [] && AllDigits(n) && AllSpace(ws)
    requires c != [] && !IsSpace(c[0]) && NoTerminator(c)
    ensures MatchNumbered(n + "." + ws + c) == Some((n, c))
  {
    var after := "." + ws + c;
    var t := n + after;
    assert n + "." + ws + c == t;
    DigitPrefixOf(n, after);
    assert t[|n|] == '.' && t[|n| + 1..] == ws + c;
    ContentAfterSpaces(ws, c);
    NumberedOf(t, n, c);
  }

  /** Unfolds the numbered-line match once its digit run and content are known. */
  lemma NumberedOf(t: string, n: string, c: string)
    requires n != [] && DigitPrefix(t) == n && |n| < |t| && t[|n|] == '.'
    requires MatchContent(t[|n| + 1..]) == Some(c)
    ensures MatchNumbered(t) == Some((n, c))
  {
  }

  /** What `\s*(.+)` captures from whitespace followed by a content that
      starts with a non-space and holds no line terminator. */
  lemma ContentAfterSpaces(ws: string, c: string)
    requires AllSpace(ws) && c != [] && !IsSpace(c[0]) && NoTerminator(c)
    ensures MatchContent(ws + c) == Some(c)
  {
    TrimStartOfSpaces(ws, c);
    TakeLineWhole(c);
  }

  /** A digit run and a dot with nothing after them (`"3."`) is not a
      numbered line. */
  lemma {:induction false} NumberedNeedsContent(n: string)
    requires AllDigits(n)
    ensures MatchNumbered(n + ".").None?
  {
    var t := n + ".";
    DigitPrefixOf(n, ".");
    assert t[|n| + 1..] == [];
  }
}
