/**
 * The exact-message view of a SIWE message: every code unit that could be
 * misread is spelled `\uXXXX`, and the view can be read back.
 */
module SiweLiteral {
  import opened Bytes

  const LF: Unit := 0x0A
  const SPACE: Unit := 0x20
  const BACKSLASH: Unit := 0x5C
  const LETTER_U: Unit := 0x75

  // ---- one line ----

  /** The backslash has an upper-case `C`; every other escape is lower-case. */
  function EscapeUnit(code: Unit): seq<Unit> {
    if code == BACKSLASH then [BACKSLASH, LETTER_U, 0x30, 0x30, 0x35, 0x43]
    else if code < 0x20 || code > 0x7E then HexEscape(code)
    else [code]
  }

  function EscapedLine(line: seq<Unit>): seq<Unit> {
    if line == [] then [] else EscapeUnit(line[0]) + EscapedLine(line[1..])
  }

  method EscapeExactLine(line: seq<Unit>) returns (out: seq<Unit>)
    ensures out == EscapedLine(line)
  {
    out := [];
    assert line[0..] == line;
    for i := 0 to |line|
      invariant out + EscapedLine(line[i..]) == EscapedLine(line)
    {
      assert line[i..][1..] == line[i + 1..];
      assert out + (EscapeUnit(line[i]) + EscapedLine(line[i + 1..])) == out + EscapeUnit(line[i]) + EscapedLine(line[i + 1..]);
      out := out + EscapeUnit(line[i]);
    }
  }

  /** How many spaces `line` starts with. */
  function Run(line: seq<Unit>): (n: nat)
    ensures n <= |line|
    ensures forall i :: 0 <= i < n ==> line[i] == SPACE
    ensures n < |line| ==> line[n] != SPACE
  {
    if line == [] || line[0] != SPACE then 0 else 1 + Run(line[1..])
  }

  function EscapedSpaces(n: nat): seq<Unit> {
    if n == 0 then [] else HexEscape(SPACE) + EscapedSpaces(n - 1)
  }

  /** Runs of two or more spaces, and the run at the end of the line, are escaped space by space. */
  function SpaceEscaped(line: seq<Unit>): seq<Unit> {
    if line == [] then []
    else
      var n := Run(line);
      if n == 0 then [line[0]] + SpaceEscaped(line[1..])
      else if n >= 2 || n == |line| then EscapedSpaces(n) + SpaceEscaped(line[n..])
      else [SPACE] + SpaceEscaped(line[1..])
  }

  // ---- the message ----

  function Split(text: seq<Unit>): (lines: seq<seq<Unit>>)
    ensures lines != []
  {
    if text == [] then [[]]
    else
      var rest := Split(text[1..]);
      if text[0] == LF then [[]] + rest else [[text[0]] + rest[0]] + rest[1..]
  }

  function Join(lines: seq<seq<Unit>>): seq<Unit>
    requires lines != []
  {
    if |lines| == 1 then lines[0] else lines[0] + [LF] + Join(lines[1..])
  }

  function RenderLines(lines: seq<seq<Unit>>): (r: seq<seq<Unit>>)
    ensures |r| == |lines|
    ensures forall i :: 0 <= i < |r| ==> r[i] == SpaceEscaped(EscapedLine(lines[i]))
  {
    seq(|lines|, i requires 0 <= i < |lines| => SpaceEscaped(EscapedLine(lines[i])))
  }

  predicate EndsWithLineFeed(text: seq<Unit>) {
    text != [] && text[|text| - 1] == LF
  }

  function RenderSiweLiteral(text: seq<Unit>): seq<Unit> {
    var body := if EndsWithLineFeed(text) then text[..|text| - 1] else text;
    Join(RenderLines(Split(body))) + if EndsWithLineFeed(text) then HexEscape(LF) else []
  }

  // ---- reading the view back ----

  function EscapeValue(e: seq<Unit>): Unit
    requires |e| == 6
  {
    HexValue(e[2]) * 4096 + HexValue(e[3]) * 256 + HexValue(e[4]) * 16 + HexValue(e[5])
  }

  /** A backslash starts an escape of six characters; anything else reads as itself. */
  function Unescape(out: seq<Unit>): seq<Unit> {
    if out == [] then []
    else if out[0] == BACKSLASH && |out| >= 6 then [EscapeValue(out[..6])] + Unescape(out[6..])
    else [out[0]] + Unescape(out[1..])
  }

  /** `out` spells `text`, unit by unit, as itself or as an escape without spaces or line feeds. */
  predicate Spells(out: seq<Unit>, text: seq<Unit>) {
    if text == [] then out == []
    else
      || (out != [] && out[0] == text[0] != BACKSLASH && Spells(out[1..], text[1..]))
      || (|out| >= 6 && IsEscape(out[..6], text[0]) && Spells(out[6..], text[1..]))
  }

  predicate IsEscape(e: seq<Unit>, code: Unit) {
    |e| == 6 && e[0] == BACKSLASH && EscapeValue(e) == code && forall i :: 0 <= i < 6 ==> SPACE < e[i] <= 0x7E
  }

  lemma {:induction false} SpelledIsRead(out: seq<Unit>, text: seq<Unit>)
    requires Spells(out, text)
    ensures Unescape(out) == text
  {
    if text != [] {
      if out != [] && out[0] == text[0] != BACKSLASH && Spells(out[1..], text[1..]) {
        SpelledIsRead(out[1..], text[1..]);
      } else {
        SpelledIsRead(out[6..], text[1..]);
      }
    }
  }

  lemma {:induction false} SpellsAppend(a: seq<Unit>, s: seq<Unit>, b: seq<Unit>, t: seq<Unit>)
    requires Spells(a, s) && Spells(b, t)
    ensures Spells(a + b, s + t)
  {
    if s == [] {
      assert a + b == b && s + t == t;
    } else {
      assert (s + t)[1..] == s[1..] + t;
      if a != [] && a[0] == s[0] != BACKSLASH && Spells(a[1..], s[1..]) {
        SpellsAppend(a[1..], s[1..], b, t);
        assert (a + b)[1..] == a[1..] + b;
      } else {
        SpellsAppend(a[6..], s[1..], b, t);
        assert (a + b)[..6] == a[..6] && (a + b)[6..] == a[6..] + b;
      }
    }
  }

  lemma HexEscapeIsEscape(code: Unit)
    ensures IsEscape(HexEscape(code), code)
  {
    var high: int := code / 16 / 16;
    HexDigitReads(high / 16);
    HexDigitReads(high % 16);
    HexDigitReads(code / 16 % 16);
    HexDigitReads(code % 16);
    HexParts(code);
  }

  lemma UnitSpelled(code: Unit)
    ensures Spells(EscapeUnit(code), [code])
  {
    HexEscapeIsEscape(code);
    var e := EscapeUnit(code);
    if |e| == 6 { assert e[..6] == e && e[6..] == []; }
  }

  lemma {:induction false} LineSpelled(line: seq<Unit>)
    ensures Spells(EscapedLine(line), line)
  {
    if line != [] {
      UnitSpelled(line[0]);
      LineSpelled(line[1..]);
      SpellsAppend(EscapeUnit(line[0]), [line[0]], EscapedLine(line[1..]), line[1..]);
      assert line == [line[0]] + line[1..];
    }
  }

  predicate AllSpaces(s: seq<Unit>) {
    forall i :: 0 <= i < |s| ==> s[i] == SPACE
  }

  /** Spaces only ever spell themselves. */
  lemma {:induction false} SpacesSpellSpaces(out: seq<Unit>, text: seq<Unit>, n: nat)
    requires n <= |out| && AllSpaces(out[..n]) && Spells(out, text)
    ensures n <= |text| && AllSpaces(text[..n]) && Spells(out[n..], text[n..])
  {
    if n > 0 {
      assert out[0] == out[..n][0] == SPACE && out[1..][..n - 1] == out[..n][1..];
      SpacesSpellSpaces(out[1..], text[1..], n - 1);
      assert out[1..][n - 1..] == out[n..] && text[1..][n - 1..] == text[n..];
      assert text[..n] == [text[0]] + text[1..][..n - 1];
    } else {
      assert out[0..] == out && text[0..] == text;
    }
  }

  lemma {:induction false} EscapedSpacesSpell(n: nat, text: seq<Unit>)
    requires |text| == n && AllSpaces(text)
    ensures Spells(EscapedSpaces(n), text)
  {
    if n > 0 {
      HexEscapeIsEscape(SPACE);
      EscapedSpacesSpell(n - 1, text[1..]);
      var e, rest := HexEscape(SPACE), EscapedSpaces(n - 1);
      assert (e + rest)[..6] == e && (e + rest)[6..] == rest;
    }
  }

  lemma {:induction false} SpaceEscapedPrefix(a: seq<Unit>, b: seq<Unit>)
    requires SPACE !in a
    ensures SpaceEscaped(a + b) == a + SpaceEscaped(b)
  {
    if a == [] {
      assert a + b == b;
    } else {
      SpaceEscapedPrefix(a[1..], b);
      assert (a + b)[0] == a[0] && a[0] in a && Run(a + b) == 0;
      assert (a + b)[1..] == a[1..] + b;
      FrontAndRest(a, SpaceEscaped(b));
    }
  }

  lemma FrontAndRest(a: seq<Unit>, b: seq<Unit>)
    requires a != []
    ensures [a[0]] + (a[1..] + b) == a + b
  {
  }

  /** Escaping spaces changes the spelling, not what is spelled. */
  lemma {:induction false} SpaceEscapedSpells(out: seq<Unit>, text: seq<Unit>)
    requires Spells(out, text)
    ensures Spells(SpaceEscaped(out), text)
    decreases |out|
  {
    if out == [] {
    } else if Run(out) > 0 {
      var n := if Run(out) >= 2 || Run(out) == |out| then Run(out) else 1;
      SpacesSpellSpaces(out, text, n);
      SpaceEscapedSpells(out[n..], text[n..]);
      assert text == text[..n] + text[n..];
      if Run(out) >= 2 || Run(out) == |out| {
        EscapedSpacesSpell(n, text[..n]);
        SpellsAppend(EscapedSpaces(n), text[..n], SpaceEscaped(out[n..]), text[n..]);
      } else {
        assert text[..1] == [SPACE] && Spells([SPACE], [SPACE]);
        SpellsAppend([SPACE], [SPACE], SpaceEscaped(out[1..]), text[1..]);
      }
    } else if out[0] == text[0] != BACKSLASH && Spells(out[1..], text[1..]) {
      SpaceEscapedSpells(out[1..], text[1..]);
      assert Spells([out[0]], [text[0]]);
      SpellsAppend([out[0]], [text[0]], SpaceEscaped(out[1..]), text[1..]);
      assert text == [text[0]] + text[1..];
    } else {
      EscapeKept(out, text);
      SpaceEscapedSpells(out[6..], text[1..]);
    }
  }

  lemma EscapeKept(out: seq<Unit>, text: seq<Unit>)
    requires text != [] && |out| >= 6 && IsEscape(out[..6], text[0])
    ensures SpaceEscaped(out) == out[..6] + SpaceEscaped(out[6..])
    ensures Spells(SpaceEscaped(out[6..]), text[1..]) ==> Spells(SpaceEscaped(out), text)
  {
    assert out == out[..6] + out[6..];
    SpaceEscapedPrefix(out[..6], out[6..]);
    var s := out[..6] + SpaceEscaped(out[6..]);
    assert s[..6] == out[..6] && s[6..] == SpaceEscaped(out[6..]);
  }

  lemma {:induction false} JoinSplit(text: seq<Unit>)
    ensures Join(Split(text)) == text
  {
    if text != [] {
      JoinSplit(text[1..]);
      var rest := Split(text[1..]);
      if text[0] == LF {
        assert ([[]] + rest)[1..] == rest && [] + [LF] == [LF];
        assert [LF] + text[1..] == text;
      } else {
        var longer := [[text[0]] + rest[0]] + rest[1..];
        assert longer[1..] == rest[1..];
        JoinLonger(rest, longer, text[0]);
        assert [text[0]] + text[1..] == text;
      }
    }
  }

  lemma JoinLonger(lines: seq<seq<Unit>>, longer: seq<seq<Unit>>, u: Unit)
    requires lines != [] && |longer| == |lines| && longer[0] == [u] + lines[0] && longer[1..] == lines[1..]
    ensures Join(longer) == [u] + Join(lines)
  {
    if |lines| > 1 {
      Reassociate([u], lines[0], Join(lines[1..]));
    }
  }

  lemma Reassociate(a: seq<Unit>, b: seq<Unit>, c: seq<Unit>)
    ensures a + b + [LF] + c == a + (b + [LF] + c)
  {
  }

  /** No line holds a line feed, and the last is empty only after a line feed. */
  lemma {:induction false} SplitLines(text: seq<Unit>)
    ensures forall i :: 0 <= i < |Split(text)| ==> LF !in Split(text)[i]
    ensures text != [] && text[|text| - 1] != LF ==> Split(text)[|Split(text)| - 1] != []
  {
    if text != [] {
      SplitLines(text[1..]);
    }
  }

  lemma {:induction false} LinesSpelled(lines: seq<seq<Unit>>)
    requires lines != []
    ensures Spells(Join(RenderLines(lines)), Join(lines))
  {
    LineSpelled(lines[0]);
    SpaceEscapedSpells(EscapedLine(lines[0]), lines[0]);
    if |lines| > 1 {
      LinesSpelled(lines[1..]);
      assert RenderLines(lines)[1..] == RenderLines(lines[1..]);
      assert Spells([LF], [LF]);
      SpellsAppend(RenderLines(lines)[0], lines[0], [LF], [LF]);
      SpellsAppend(RenderLines(lines)[0] + [LF], lines[0] + [LF], Join(RenderLines(lines[1..])), Join(lines[1..]));
    }
  }

  /** Reading the view back gives the message, whatever it was. */
  lemma ViewIsInvertible(text: seq<Unit>)
    ensures Unescape(RenderSiweLiteral(text)) == text
  {
    var body := if EndsWithLineFeed(text) then text[..|text| - 1] else text;
    JoinSplit(body);
    LinesSpelled(Split(body));
    if EndsWithLineFeed(text) {
      HexEscapeIsEscape(LF);
      assert HexEscape(LF)[..6] == HexEscape(LF) && HexEscape(LF)[6..] == [];
      SpellsAppend(Join(RenderLines(Split(body))), body, HexEscape(LF), [LF]);
      assert text == body + [LF];
    } else {
      assert Join(RenderLines(Split(body))) + [] == Join(RenderLines(Split(body)));
    }
    SpelledIsRead(RenderSiweLiteral(text), text);
  }

  // ---- what the view looks like ----

  predicate Printable(s: seq<Unit>) {
    forall i :: 0 <= i < |s| ==> SPACE <= s[i] <= 0x7E
  }

  predicate NoSpace(s: seq<Unit>) {
    forall i :: 0 <= i < |s| ==> s[i] != SPACE
  }

  /** Printable ASCII and line feeds; no space before another space, a line feed or the end. */
  predicate Visible(out: seq<Unit>) {
    && (forall i :: 0 <= i < |out| ==> SPACE <= out[i] <= 0x7E || out[i] == LF)
    && (forall i :: 0 <= i < |out| && out[i] == SPACE ==> i + 1 < |out| && out[i + 1] != SPACE && out[i + 1] != LF)
  }

  lemma VisibleAppend(a: seq<Unit>, b: seq<Unit>)
    requires Visible(a) && Visible(b)
    ensures Visible(a + b)
  {
    var c := a + b;
    forall i | 0 <= i < |c|
      ensures SPACE <= c[i] <= 0x7E || c[i] == LF
      ensures c[i] == SPACE ==> i + 1 < |c| && c[i + 1] != SPACE && c[i + 1] != LF
    {
      assert c[i] == if i < |a| then a[i] else b[i - |a|];
    }
  }

  lemma {:induction false} EscapedIsPrintable(line: seq<Unit>)
    ensures Printable(EscapedLine(line)) && (line != [] ==> EscapedLine(line) != [])
  {
    if line != [] {
      HexEscapeIsEscape(line[0]);
      EscapedIsPrintable(line[1..]);
    }
  }

  lemma {:induction false} EscapedSpacesShow(n: nat)
    ensures Printable(EscapedSpaces(n)) && NoSpace(EscapedSpaces(n)) && |EscapedSpaces(n)| == 6 * n
  {
    if n > 0 {
      HexEscapeIsEscape(SPACE);
      EscapedSpacesShow(n - 1);
    }
  }

  lemma NoSpaceIsVisible(s: seq<Unit>)
    requires Printable(s) && NoSpace(s)
    ensures Visible(s)
  {
  }

  /** No run of spaces and no space at the end of the line survives. */
  lemma {:induction false} SpacesShow(line: seq<Unit>)
    requires Printable(line)
    ensures Visible(SpaceEscaped(line)) && LF !in SpaceEscaped(line)
    ensures line != [] ==> SpaceEscaped(line) != [] && (SpaceEscaped(line)[0] == SPACE ==> line[0] == SPACE)
    decreases |line|
  {
    if line != [] {
      var n := Run(line);
      if n == 0 {
        SpacesShow(line[1..]);
        NoSpaceIsVisible([line[0]]);
        VisibleAppend([line[0]], SpaceEscaped(line[1..]));
      } else if n >= 2 || n == |line| {
        SpacesShow(line[n..]);
        EscapedSpacesShow(n);
        NoSpaceIsVisible(EscapedSpaces(n));
        VisibleAppend(EscapedSpaces(n), SpaceEscaped(line[n..]));
      } else {
        SpacesShow(line[1..]);
        SpaceAhead(SpaceEscaped(line[1..]));
      }
    }
  }

  lemma SpaceAhead(rest: seq<Unit>)
    requires Visible(rest) && rest != [] && rest[0] != SPACE && rest[0] != LF
    ensures Visible([SPACE] + rest)
  {
    var c := [SPACE] + rest;
    forall i | 0 <= i < |c|
      ensures SPACE <= c[i] <= 0x7E || c[i] == LF
      ensures c[i] == SPACE ==> i + 1 < |c| && c[i + 1] != SPACE && c[i + 1] != LF
    {
      assert c[i] == if i == 0 then SPACE else rest[i - 1];
    }
  }

  lemma LineShows(line: seq<Unit>)
    ensures var r := SpaceEscaped(EscapedLine(line));
      Visible(r) && LF !in r && (line != [] ==> r != [])
  {
    EscapedIsPrintable(line);
    SpacesShow(EscapedLine(line));
  }

  lemma {:induction false} LinesShow(lines: seq<seq<Unit>>)
    requires lines != []
    ensures Visible(Join(RenderLines(lines)))
  {
    LineShows(lines[0]);
    if |lines| > 1 {
      LinesShow(lines[1..]);
      assert RenderLines(lines)[1..] == RenderLines(lines[1..]);
      assert Visible([LF]);
      VisibleAppend(RenderLines(lines)[0], [LF]);
      VisibleAppend(RenderLines(lines)[0] + [LF], Join(RenderLines(lines[1..])));
    }
  }

  lemma {:induction false} LastLineShows(lines: seq<seq<Unit>>)
    requires lines != [] && lines[|lines| - 1] != []
    ensures var r := Join(RenderLines(lines)); r != [] && r[|r| - 1] != LF
  {
    LineShows(lines[0]);
    if |lines| > 1 {
      LastLineShows(lines[1..]);
      assert RenderLines(lines)[1..] == RenderLines(lines[1..]);
    }
  }

  /**
   * The view is printable ASCII and line feeds, with no two adjacent spaces,
   * no space at the end of a line, and no line feed at its own end.
   */
  lemma ViewIsUnambiguous(text: seq<Unit>)
    ensures Visible(RenderSiweLiteral(text))
    ensures RenderSiweLiteral(text) != [] ==> RenderSiweLiteral(text)[|RenderSiweLiteral(text)| - 1] != LF
  {
    var body := if EndsWithLineFeed(text) then text[..|text| - 1] else text;
    var shown := Join(RenderLines(Split(body)));
    LinesShow(Split(body));
    if EndsWithLineFeed(text) {
      FinalLineFeedShows(shown);
    } else {
      assert shown + [] == shown;
      if text != [] {
        SplitLines(text);
        LastLineShows(Split(text));
      } else {
        LineShows([]);
      }
    }
  }

  lemma FinalLineFeedShows(shown: seq<Unit>)
    requires Visible(shown)
    ensures Visible(shown + HexEscape(LF)) && (shown + HexEscape(LF))[|shown| + 5] != LF
  {
    HexEscapeIsEscape(LF);
    NoSpaceIsVisible(HexEscape(LF));
    VisibleAppend(shown, HexEscape(LF));
    assert (shown + HexEscape(LF))[|shown| + 5] == HexEscape(LF)[5];
  }

  /** Different messages never share a view; the empty view is the empty message's. */
  lemma ViewIsInjective(a: seq<Unit>, b: seq<Unit>)
    requires RenderSiweLiteral(a) == RenderSiweLiteral(b)
    ensures a == b
  {
    ViewIsInvertible(a);
    ViewIsInvertible(b);
  }
}
