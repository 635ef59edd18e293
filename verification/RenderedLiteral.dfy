/**
 * Raw text inside a sentence: markup, controls, the backslash and everything
 * beyond ASCII are spelled `\uXXXX`, and a cap cuts between two spellings.
 */
module RenderedLiteral {
  import opened Bytes
  import opened Wrappers
  import opened SiweLiteral

  const ELLIPSIS: Unit := 0x2026

  /** `<`, `>`, `&`, `"` and `'`. */
  predicate Markup(code: Unit) {
    code == 0x3C || code == 0x3E || code == 0x26 || code == 0x22 || code == 0x27
  }

  function Piece(code: Unit): (r: seq<Unit>)
    ensures r != []
  {
    if Markup(code) then HexEscape(code) else EscapeUnit(code)
  }

  function Rendered(text: seq<Unit>): seq<Unit> {
    if text == [] then [] else Rendered(text[..|text| - 1]) + Piece(text[|text| - 1])
  }

  /** The first `n` units fit under the cap and one more would not. */
  predicate Cut(text: seq<Unit>, maxChars: Option<nat>, n: nat) {
    && n <= |text|
    && (maxChars.None? ==> n == |text|)
    && (maxChars.Some? ==> |Rendered(text[..n])| <= maxChars.value)
    && (maxChars.Some? && n < |text| ==> |Rendered(text[..n + 1])| > maxChars.value)
  }

  function Shown(text: seq<Unit>, n: nat): seq<Unit>
    requires n <= |text|
  {
    Rendered(text[..n]) + if n < |text| then [ELLIPSIS] else []
  }

  lemma RenderedOneMore(text: seq<Unit>, i: nat)
    requires i < |text|
    ensures Rendered(text[..i + 1]) == Rendered(text[..i]) + Piece(text[i])
  {
    assert text[..i + 1][..i] == text[..i];
  }

  method RenderLiteral(text: seq<Unit>, maxChars: Option<nat>) returns (out: seq<Unit>)
    ensures exists n :: Cut(text, maxChars, n) && out == Shown(text, n)
  {
    out := [];
    for i := 0 to |text|
      invariant out == Rendered(text[..i])
      invariant maxChars.Some? ==> |out| <= maxChars.value
    {
      var piece := Piece(text[i]);
      RenderedOneMore(text, i);
      if maxChars.Some? && |out| + |piece| > maxChars.value {
        assert Cut(text, maxChars, i);
        return out + [ELLIPSIS];
      }
      out := out + piece;
    }
    assert Cut(text, maxChars, |text|) && Shown(text, |text|) == out;
  }

  lemma {:induction false} RenderedGrows(text: seq<Unit>, n: nat, m: nat)
    requires n <= m <= |text|
    ensures |Rendered(text[..n])| + (m - n) <= |Rendered(text[..m])|
    decreases m - n
  {
    if n < m {
      RenderedGrows(text, n + 1, m);
      RenderedOneMore(text, n);
    }
  }

  lemma {:induction false} RenderedSpells(text: seq<Unit>)
    ensures Spells(Rendered(text), text)
  {
    if text != [] {
      var front, last := text[..|text| - 1], text[|text| - 1];
      RenderedSpells(front);
      PieceSpells(last);
      SpellsAppend(Rendered(front), front, Piece(last), [last]);
      assert text == front + [last];
    }
  }

  lemma PieceSpells(code: Unit)
    ensures Spells(Piece(code), [code])
  {
    if Markup(code) {
      HexEscapeIsEscape(code);
      var e := HexEscape(code);
      assert e[..6] == e && e[6..] == [];
    } else {
      UnitSpelled(code);
    }
  }

  predicate Safe(out: seq<Unit>) {
    forall i :: 0 <= i < |out| ==> 0x20 <= out[i] <= 0x7E && !Markup(out[i])
  }

  lemma {:induction false} RenderedIsSafe(text: seq<Unit>)
    ensures Safe(Rendered(text))
  {
    if text != [] {
      RenderedIsSafe(text[..|text| - 1]);
      EscapeIsSafe(text[|text| - 1]);
    }
  }

  lemma EscapeIsSafe(code: Unit)
    ensures Safe(Piece(code))
  {
    if Piece(code) != [code] && code != BACKSLASH { HexEscapeIsSafe(code); }
  }

  lemma HexEscapeIsSafe(code: Unit)
    ensures Safe(HexEscape(code))
  {
    var high: int := code / 16 / 16;
    HexDigitReads(high / 16);
    HexDigitReads(high % 16);
    HexDigitReads(code / 16 % 16);
    HexDigitReads(code % 16);
  }

  /** What a reader makes of the shown text: an ellipsis at the end is dropped, the rest is un-escaped. */
  function ReadBack(out: seq<Unit>): seq<Unit> {
    Unescape(if EndsInEllipsis(out) then out[..|out| - 1] else out)
  }

  predicate EndsInEllipsis(out: seq<Unit>) {
    out != [] && out[|out| - 1] == ELLIPSIS
  }

  /**
   * The cut is unique; the text is shown whole exactly when its spelling fits,
   * and otherwise says so with an ellipsis; what is shown reads back as that
   * much of the text, and no part of it is markup or beyond printable ASCII.
   */
  lemma ShownIsHonest(text: seq<Unit>, maxChars: Option<nat>, n: nat)
    requires Cut(text, maxChars, n)
    ensures forall m: nat :: Cut(text, maxChars, m) ==> m == n
    ensures EndsInEllipsis(Shown(text, n)) <==> maxChars.Some? && |Rendered(text)| > maxChars.value
    ensures ReadBack(Shown(text, n)) == text[..n]
    ensures Safe(Rendered(text[..n]))
  {
    CutIsUnique(text, maxChars, n);
    RenderedIsSafe(text[..n]);
    RenderedSpells(text[..n]);
    SpelledIsRead(Rendered(text[..n]), text[..n]);
    assert text[..|text|] == text;
    if n < |text| {
      RenderedGrows(text, n + 1, |text|);
      ShownEnds(text, n);
    } else {
      assert Shown(text, n) == Rendered(text);
    }
  }

  lemma CutIsUnique(text: seq<Unit>, maxChars: Option<nat>, n: nat)
    requires Cut(text, maxChars, n)
    ensures forall m: nat :: Cut(text, maxChars, m) ==> m == n
  {
    forall m: nat | Cut(text, maxChars, m)
      ensures m == n
    {
      if m < n { RenderedGrows(text, m + 1, n); }
      if n < m { RenderedGrows(text, n + 1, m); }
    }
  }

  lemma ShownEnds(text: seq<Unit>, n: nat)
    requires n < |text|
    ensures EndsInEllipsis(Shown(text, n)) && Shown(text, n)[..|Shown(text, n)| - 1] == Rendered(text[..n])
  {
  }
}
