/**
 * buildHighlightedHTML (src/components/NLP.js, and its copy in app.js): the
 * text of an insight with its entity spans wrapped in highlight tags, the text
 * between the spans HTML-escaped.
 */
module Highlight {
  import opened JsString

  /** An entity span as the server sends it: offsets into the text, end exclusive. */
  datatype Span = Span(start: int, end: int)

  // ---------------------------------------------------------------- escaping

  /** `s.replace(/c/g, r)`. */
  function ReplaceAll(s: string, c: char, r: string): string
  {
    if s == [] then [] else (if s[0] == c then r else [s[0]]) + ReplaceAll(s[1..], c, r)
  }

  /** The three replacements in the order the source chains them: & first, then <, then >. */
  function Escape(s: string): string
  {
    ReplaceAll(ReplaceAll(ReplaceAll(s, '&', "&amp;"), '<', "&lt;"), '>', "&gt;")
  }

  function EscapeChar(c: char): string
  {
    if c == '&' then "&amp;" else if c == '<' then "&lt;" else if c == '>' then "&gt;" else [c]
  }

  /** Escaping character by character: the reference the chained replacements are checked against. */
  function EscapeEach(s: string): string
  {
    if s == [] then [] else EscapeChar(s[0]) + EscapeEach(s[1..])
  }

  lemma {:induction false} ReplaceAllAppend(a: string, b: string, c: char, r: string)
    ensures ReplaceAll(a + b, c, r) == ReplaceAll(a, c, r) + ReplaceAll(b, c, r)
  {
    if a != [] {
      assert (a + b)[1..] == a[1..] + b;
      ReplaceAllAppend(a[1..], b, c, r);
    } else {
      assert a + b == b;
    }
  }

  lemma {:induction false} ReplaceAllAbsent(s: string, c: char, r: string)
    requires c !in s
    ensures ReplaceAll(s, c, r) == s
  {
    if s != [] {
      ReplaceAllAbsent(s[1..], c, r);
    }
  }

  lemma ReplaceAllOne(c: char, d: char, r: string)
    ensures ReplaceAll([c], d, r) == if c == d then r else [c]
  {
    assert [c][1..] == [];
  }

  lemma EscapeOneChar(c: char)
    ensures Escape([c]) == EscapeChar(c)
  {
    ReplaceAllOne(c, '&', "&amp;");
    if c == '&' {
      ReplaceAllAbsent("&amp;", '<', "&lt;");
      ReplaceAllAbsent("&amp;", '>', "&gt;");
    } else if c == '<' {
      ReplaceAllOne(c, '<', "&lt;");
      ReplaceAllAbsent("&lt;", '>', "&gt;");
    } else {
      ReplaceAllOne(c, '<', "&lt;");
      ReplaceAllOne(c, '>', "&gt;");
    }
  }

  /**
   * Replacing & before < and > escapes each character exactly once: the
   * ampersands the later replacements introduce are not escaped again.
   */
  lemma {:induction false} EscapeIsPerChar(s: string)
    ensures Escape(s) == EscapeEach(s)
  {
    if s != [] {
      EscapeIsPerChar(s[1..]);
      assert s == [s[0]] + s[1..];
      ReplaceAllAppend([s[0]], s[1..], '&', "&amp;");
      ReplaceAllAppend(ReplaceAll([s[0]], '&', "&amp;"), ReplaceAll(s[1..], '&', "&amp;"), '<', "&lt;");
      ReplaceAllAppend(ReplaceAll(ReplaceAll([s[0]], '&', "&amp;"), '<', "&lt;"),
        ReplaceAll(ReplaceAll(s[1..], '&', "&amp;"), '<', "&lt;"), '>', "&gt;");
      EscapeOneChar(s[0]);
    }
  }

  lemma {:induction false} EscapeEachHasNoAngles(s: string)
    ensures '<' !in EscapeEach(s) && '>' !in EscapeEach(s)
  {
    if s != [] {
      EscapeEachHasNoAngles(s[1..]);
    }
  }

  /** Escaped text holds no angle bracket, so it cannot open or close a tag. */
  lemma EscapedHasNoAngles(s: string)
    ensures '<' !in Escape(s) && '>' !in Escape(s)
  {
    EscapeIsPerChar(s);
    EscapeEachHasNoAngles(s);
  }

  /** Decoding the three entities the escaping produces. */
  function Unescape(s: string): string
    decreases |s|
  {
    if |s| >= 5 && s[..5] == "&amp;" then "&" + Unescape(s[5..])
    else if |s| >= 4 && s[..4] == "&lt;" then "<" + Unescape(s[4..])
    else if |s| >= 4 && s[..4] == "&gt;" then ">" + Unescape(s[4..])
    else if s == [] then []
    else [s[0]] + Unescape(s[1..])
  }

  /** Escaping loses nothing: decoding the escaped text gives the text back. */
  lemma {:induction false} EscapeRoundTrip(s: string)
    ensures Unescape(Escape(s)) == s
  {
    EscapeIsPerChar(s);
    EachRoundTrip(s);
  }

  lemma {:induction false} EachRoundTrip(s: string)
    ensures Unescape(EscapeEach(s)) == s
  {
    if s != [] {
      EachRoundTrip(s[1..]);
      UnescapeStep(s[0], EscapeEach(s[1..]));
      assert s == [s[0]] + s[1..];
    }
  }

  /** Decoding undoes the escaping of one character, whatever follows it. */
  lemma UnescapeStep(c: char, rest: string)
    ensures Unescape(EscapeChar(c) + rest) == [c] + Unescape(rest)
  {
    var e := EscapeChar(c) + rest;
    if c == '&' {
      assert e[..5] == "&amp;" && e[5..] == rest;
    } else if c == '<' {
      assert e[1] == 'l';
      assert |e| >= 5 ==> e[..5][1] == 'l';
      assert e[..4] == "&lt;" && e[4..] == rest;
    } else if c == '>' {
      assert e[1] == 'g';
      assert |e| >= 5 ==> e[..5][1] == 'g';
      assert e[..4][1] == 'g';
      assert e[..4] == "&gt;" && e[4..] == rest;
    } else {
      assert e[0] == c && e[1..] == rest;
      assert |e| >= 4 ==> e[..4][0] == c;
      assert |e| >= 5 ==> e[..5][0] == c;
    }
  }

  // ---------------------------------------------------------------- marking

  /** The markup around one highlighted term; the term itself is inserted as it is. */
  function Tag(term: string): string
  {
    "<span class=\"highlight\" data-term=\"" + term + "\">" + term + "</span>"
  }

  /** A piece of the output: text to escape, or a term to mark. */
  datatype Chunk = Plain(text: string) | Mark(term: string)

  function ChunkHtml(c: Chunk): string
  {
    match c
    case Plain(t) => Escape(t)
    case Mark(t) => Tag(t)
  }

  function Render(cs: seq<Chunk>): string
  {
    if cs == [] then [] else Render(cs[..|cs| - 1]) + ChunkHtml(cs[|cs| - 1])
  }

  /** Where the cursor stands after the given spans: the end of the last one, or 0. */
  function CursorAfter(spans: seq<Span>): int
  {
    if spans == [] then 0 else spans[|spans| - 1].end
  }

  /** For each span, the text from the cursor to its start, then the text it covers. */
  function SpanChunks(text: string, spans: seq<Span>): (r: seq<Chunk>)
    ensures |r| == 2 * |spans|
  {
    if spans == [] then []
    else
      var n := |spans| - 1;
      var s := spans[n];
      SpanChunks(text, spans[..n]) + [Plain(Slice(text, CursorAfter(spans[..n]), s.start)), Mark(Slice(text, s.start, s.end))]
  }

  /** The span chunks, then the text after the last span. */
  function Chunks(text: string, spans: seq<Span>): seq<Chunk>
  {
    SpanChunks(text, spans) + [Plain(Slice(text, CursorAfter(spans), |text|))]
  }

  /** The output of buildHighlightedHTML: the text itself, unescaped, when there is no span. */
  function HighlightedHtml(text: string, spans: seq<Span>): string
  {
    if spans == [] then text else Render(Chunks(text, spans))
  }

  lemma RenderSnoc(cs: seq<Chunk>, c: Chunk)
    ensures Render(cs + [c]) == Render(cs) + ChunkHtml(c)
  {
    assert (cs + [c])[..|cs|] == cs;
  }

  method BuildHighlightedHtml(text: string, spans: seq<Span>) returns (html: string)
    ensures html == HighlightedHtml(text, spans)
  {
    if |spans| == 0 {
      return text;
    }
    html := "";
    var cursor := 0;
    for i := 0 to |spans|
      invariant html == Render(SpanChunks(text, spans[..i]))
      invariant cursor == CursorAfter(spans[..i])
    {
      var s := spans[i];
      var pre := Slice(text, cursor, s.start);
      var term := Slice(text, s.start, s.end);
      SpanStep(text, spans, i);
      html := html + Escape(pre);
      html := html + Tag(term);
      cursor := s.end;
    }
    assert spans[..|spans|] == spans;
    RenderSnoc(SpanChunks(text, spans), Plain(Slice(text, cursor, |text|)));
    html := html + Escape(Slice(text, cursor, |text|));
  }

  /** One more span adds the escaped text since the cursor and the marked term. */
  lemma SpanStep(text: string, spans: seq<Span>, i: nat)
    requires i < |spans|
    ensures Render(SpanChunks(text, spans[..i + 1])) == Render(SpanChunks(text, spans[..i]))
      + Escape(Slice(text, CursorAfter(spans[..i]), spans[i].start)) + Tag(Slice(text, spans[i].start, spans[i].end))
    ensures CursorAfter(spans[..i + 1]) == spans[i].end
  {
    var cs := SpanChunks(text, spans[..i]);
    var pre := Plain(Slice(text, CursorAfter(spans[..i]), spans[i].start));
    var mark := Mark(Slice(text, spans[i].start, spans[i].end));
    assert spans[..i + 1][..i] == spans[..i];
    RenderSnoc(cs, pre);
    RenderSnoc(cs + [pre], mark);
    assert SpanChunks(text, spans[..i + 1]) == cs + [pre] + [mark];
  }

  /** The i-th span becomes the (2i+1)-th chunk, a mark of exactly the text it covers, after the text since the previous span. */
  lemma {:induction false} SpanChunkAt(text: string, spans: seq<Span>, i: nat)
    requires i < |spans|
    ensures SpanChunks(text, spans)[2 * i + 1] == Mark(Slice(text, spans[i].start, spans[i].end))
    ensures SpanChunks(text, spans)[2 * i] == Plain(Slice(text, CursorAfter(spans[..i]), spans[i].start))
  {
    var n := |spans| - 1;
    if i < n {
      SpanChunkAt(text, spans[..n], i);
      assert spans[..n][i] == spans[i];
      assert spans[..n][..i] == spans[..i];
    }
  }

  /** Well-formed spans: inside the text, each starting at or after the end of the one before. */
  predicate Ordered(text: string, spans: seq<Span>)
  {
    spans == []
    || (var n := |spans| - 1;
        Ordered(text, spans[..n]) && CursorAfter(spans[..n]) <= spans[n].start <= spans[n].end <= |text|)
  }

  /** The text a chunk sequence stands for: plain text and marked terms, in order. */
  function Recover(cs: seq<Chunk>): string
  {
    if cs == [] then []
    else
      var c := cs[|cs| - 1];
      Recover(cs[..|cs| - 1]) + (match c case Plain(t) => t case Mark(t) => t)
  }

  lemma RecoverSnoc(cs: seq<Chunk>, c: Chunk)
    ensures Recover(cs + [c]) == Recover(cs) + (match c case Plain(t) => t case Mark(t) => t)
  {
    assert (cs + [c])[..|cs|] == cs;
  }

  lemma AdjacentSlices(t: string, a: nat, b: nat, c: nat)
    requires a <= b <= c <= |t|
    ensures t[..a] + t[a..b] + t[b..c] == t[..c]
  {
  }

  lemma {:induction false} RecoverSpanChunks(text: string, spans: seq<Span>)
    requires Ordered(text, spans)
    ensures 0 <= CursorAfter(spans) <= |text|
    ensures Recover(SpanChunks(text, spans)) == text[..CursorAfter(spans)]
  {
    if spans != [] {
      var n := |spans| - 1;
      var init := spans[..n];
      var s := spans[n];
      RecoverSpanChunks(text, init);
      var c := CursorAfter(init);
      var pre, term := text[c..s.start], text[s.start..s.end];
      SliceInBounds(text, c, s.start);
      SliceInBounds(text, s.start, s.end);
      var cs := SpanChunks(text, init);
      assert SpanChunks(text, spans) == cs + [Plain(pre), Mark(term)];
      assert cs + [Plain(pre), Mark(term)] == (cs + [Plain(pre)]) + [Mark(term)];
      RecoverSnoc(cs, Plain(pre));
      RecoverSnoc(cs + [Plain(pre)], Mark(term));
      AdjacentSlices(text, c, s.start, s.end);
    }
  }

  /**
   * For well-formed spans, the plain pieces and the marked terms put back
   * together give the whole text: nothing is dropped or repeated.
   */
  lemma HighlightKeepsText(text: string, spans: seq<Span>)
    requires Ordered(text, spans)
    ensures Recover(Chunks(text, spans)) == text
  {
    RecoverSpanChunks(text, spans);
    var c := CursorAfter(spans);
    SliceInBounds(text, c, |text|);
    RecoverSnoc(SpanChunks(text, spans), Plain(text[c..]));
    assert text[..c] + text[c..] == text;
  }

  /** A span that starts before the cursor adds no plain text in front of its mark: the slice backwards is empty. */
  lemma BackwardSliceIsEmpty(text: string, cursor: int, start: int)
    requires 0 <= start <= cursor
    ensures Slice(text, cursor, start) == []
  {
  }

  /** Outside the marks the output holds no angle bracket: every tag in it is a highlight tag or comes from a term. */
  lemma {:induction false} PlainChunksAreInert(cs: seq<Chunk>)
    requires forall c :: c in cs ==> c.Plain?
    ensures '<' !in Render(cs) && '>' !in Render(cs)
  {
    if cs != [] {
      var n := |cs| - 1;
      assert forall c :: c in cs[..n] ==> c in cs;
      PlainChunksAreInert(cs[..n]);
      assert cs[n] in cs;
      EscapedHasNoAngles(cs[n].text);
      assert Render(cs) == Render(cs[..n]) + Escape(cs[n].text);
    }
  }
}
