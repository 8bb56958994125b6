/**
 * The text batch of Minimal/src/Graphics/FontRenderer.c. Every character of
 * a string takes one quad (4 vertices of 4 floats) in a 512-float buffer,
 * whether or not the font has a glyph for it; a character that would fill
 * the buffer's last quad flushes the batch first, so a batch holds at most
 * 31 quads. A flush draws 6 indices per quad with the bound font.
 *
 * The quads' floats (glyph positions and texture coordinates computed by
 * ignisFontLoadCharQuad) are not modelled: the batch records which
 * characters occupy it, and whether loading each glyph succeeded is a
 * parameter. Formatting with vsnprintf is a parameter too: the formatted
 * text.
 */
module FontRenderer {
  import opened Common
  import Primitives
  import Renderer

  const MAX_QUADS: nat := 32
  const VERTEX_SIZE: nat := 4
  const VERTICES_PER_QUAD: nat := 4
  const INDICES_PER_QUAD: nat := 6
  const INDEX_COUNT: nat := MAX_QUADS * INDICES_PER_QUAD
  const VERTEX_COUNT: nat := MAX_QUADS * VERTICES_PER_QUAD
  const BUFFER_SIZE: nat := VERTEX_COUNT * VERTEX_SIZE
  const QUAD_SIZE: nat := VERTICES_PER_QUAD * VERTEX_SIZE
  const MAX_LINE_LENGTH: nat := 128

  /** IGNIS_WHITE */
  const WHITE: Primitives.Colour := Primitives.Colour(1.0, 1.0, 1.0, 1.0)

  /** An IgnisFont, seen through the one property the renderer reads: its line height. */
  datatype Font = Font(height: real)

  /** One glDrawElements: the font bound, the characters whose quads are drawn, the index count. */
  datatype TextDraw = TextDraw(font: Option<Font>, glyphs: seq<char>, indexCount: nat)

  /** The two warnings the renderer reports through the error callback. */
  datatype Warning = NoFontBound | FailedToLoadQuad(ch: char)

  /** strlen: the characters before the first NUL. */
  function StrLen(s: seq<char>): (n: nat)
    ensures n <= |s| && '\0' !in s[..n]
    ensures n < |s| ==> s[n] == '\0'
  {
    if |s| == 0 || s[0] == '\0' then 0 else 1 + StrLen(s[1..])
  }

  /** The warnings for the glyphs that failed to load, in order. */
  function LoadWarnings(text: seq<char>, loaded: seq<bool>): (r: seq<Warning>)
    requires |loaded| == |text|
    ensures |r| <= |text|
  {
    if |text| == 0 then []
    else (LoadWarnings(text[..|text| - 1], loaded[..|text| - 1]) +
      (if loaded[|text| - 1] then [] else [FailedToLoadQuad(text[|text| - 1])]))
  }

  /** Every character ever queued, those drawn first, in order. */
  function Glyphs(draws: seq<TextDraw>): seq<char>
  {
    if |draws| == 0 then [] else Glyphs(draws[..|draws| - 1]) + draws[|draws| - 1].glyphs
  }

  /** FontRendererStorage and the TextField of FontRenderer.c. */
  class FontRendererState {
    var font: Option<Font>
    var color: Primitives.Colour
    var vertexIndex: nat
    var quadCount: nat
    var pending: seq<char>
    var lineBuffer: array<char>
    var draws: seq<TextDraw>
    var warnings: seq<Warning>
    var fieldX: real
    var fieldY: real
    var lineHeight: real

    /**
     * The batch invariant: 16 floats per queued quad, at most 31 quads, one
     * queued character per quad; every draw issued so far drew between 1
     * and 31 quads with 6 indices each.
     */
    ghost predicate Valid()
      reads this
    {
      vertexIndex == QUAD_SIZE * quadCount && quadCount <= MAX_QUADS - 1 &&
      |pending| == quadCount && lineBuffer.Length == MAX_LINE_LENGTH &&
      forall d :: d in draws ==> 1 <= |d.glyphs| <= MAX_QUADS - 1 && d.indexCount == INDICES_PER_QUAD * |d.glyphs|
    }

    /** Every character queued so far: drawn, then pending. */
    function Queued(): seq<char>
      reads this
    {
      Glyphs(draws) + pending
    }

    /** FontRendererInit: an empty batch, no font, white. */
    constructor Init()
      ensures Valid() && font == None && color == WHITE && draws == [] && warnings == [] && Queued() == []
    {
      font := None;
      color := WHITE;
      vertexIndex := 0;
      quadCount := 0;
      pending := [];
      lineBuffer := new char[MAX_LINE_LENGTH](_ => '\0');
      draws := [];
      warnings := [];
      fieldX, fieldY, lineHeight := 0.0, 0.0, 0.0;
    }

    /** FontRendererBindFont */
    method BindFont(f: Option<Font>)
      modifies this`font
      ensures font == f
    {
      font := f;
    }

    /** FontRendererBindFontColor: the font and the colour uniform. */
    method BindFontColor(f: Option<Font>, c: Primitives.Colour)
      modifies this`font, this`color
      ensures font == f && color == c
    {
      font := f;
      color := c;
    }

    /**
     * FontRendererFlush: nothing when no float is queued; otherwise one draw
     * of 6 indices per quad with the bound font, and both counters back to
     * zero. What has been queued is unchanged.
     */
    method Flush()
      requires Valid()
      modifies this`vertexIndex, this`quadCount, this`pending, this`draws
      ensures Valid() && vertexIndex == 0 && quadCount == 0 && Queued() == old(Queued())
      ensures draws == old(draws) +
        (if old(vertexIndex) == 0 then [] else [TextDraw(font, old(pending), INDICES_PER_QUAD * old(quadCount))])
    {
      if vertexIndex == 0 {
        return;
      }
      draws := draws + [TextDraw(font, pending, INDICES_PER_QUAD * quadCount)];
      vertexIndex := 0;
      quadCount := 0;
      pending := [];
    }

    /** The body of the character loop: flush if the quad would reach the end of the buffer, then queue it. */
    method QueueChar(ch: char, loaded: bool)
      requires Valid()
      modifies this`vertexIndex, this`quadCount, this`pending, this`draws, this`warnings
      ensures Valid() && Queued() == old(Queued()) + [ch]
      ensures warnings == old(warnings) + (if loaded then [] else [FailedToLoadQuad(ch)])
      ensures old(vertexIndex) + QUAD_SIZE >= BUFFER_SIZE ==> quadCount == 1
      ensures old(vertexIndex) + QUAD_SIZE < BUFFER_SIZE ==> quadCount == old(quadCount) + 1
    {
      if vertexIndex + QUAD_SIZE >= BUFFER_SIZE {
        Flush();
      }
      if !loaded {
        warnings := warnings + [FailedToLoadQuad(ch)];
      }
      vertexIndex := vertexIndex + QUAD_SIZE;
      quadCount := quadCount + 1;
      pending := pending + [ch];
    }

    /**
     * FontRendererRenderText: with no font bound only the warning; otherwise
     * every character before the NUL is queued as one quad, in order, and a
     * warning is added for each glyph that failed to load. `loaded[i]` is
     * what ignisFontLoadCharQuad returned for text[i].
     */
    method RenderText(text: seq<char>, loaded: seq<bool>)
      requires Valid() && |loaded| == |text|
      modifies this`vertexIndex, this`quadCount, this`pending, this`draws, this`warnings
      ensures Valid()
      ensures font.None? ==> Queued() == old(Queued()) && draws == old(draws) && warnings == old(warnings) + [NoFontBound]
      ensures font.Some? ==> Queued() == old(Queued()) + text[..StrLen(text)]
      ensures font.Some? ==> warnings == old(warnings) + LoadWarnings(text[..StrLen(text)], loaded[..StrLen(text)])
    {
      if font.None? {
        warnings := warnings + [NoFontBound];
        return;
      }
      var n := StrLen(text);
      for i := 0 to n
        invariant Valid() && Queued() == old(Queued()) + text[..i]
        invariant warnings == old(warnings) + LoadWarnings(text[..i], loaded[..i])
      {
        QueueChar(text[i], loaded[i]);
        assert text[..i + 1] == text[..i] + [text[i]];
        assert text[..i + 1][..i] == text[..i] && loaded[..i + 1][..i] == loaded[..i];
      }
    }

    /**
     * FontRendererRenderTextVA: the formatted text and its NUL are written
     * into the 128-byte line buffer, which is then rendered. The source does
     * not bound the write by the buffer size, so the text must fit with its NUL.
     */
    method RenderTextFormatted(formatted: seq<char>, loaded: seq<bool>)
      requires Valid() && |formatted| + 1 <= MAX_LINE_LENGTH && |loaded| == |formatted|
      modifies this`vertexIndex, this`quadCount, this`pending, this`draws, this`warnings, lineBuffer
      ensures Valid() && lineBuffer[..|formatted| + 1] == formatted + ['\0']
      ensures font.None? ==> Queued() == old(Queued()) && draws == old(draws) && warnings == old(warnings) + [NoFontBound]
      ensures font.Some? ==> Queued() == old(Queued()) + formatted[..StrLen(formatted)]
      ensures font.Some? ==> warnings == old(warnings) + LoadWarnings(formatted[..StrLen(formatted)], loaded[..StrLen(formatted)])
    {
      forall i | 0 <= i < |formatted| {
        lineBuffer[i] := formatted[i];
      }
      lineBuffer[|formatted|] := '\0';
      assert lineBuffer[..|formatted| + 1] == formatted + ['\0'];
      var text := lineBuffer[..];
      NulTerminated(formatted, text);
      var padded := loaded + seq(|text| - |loaded|, _ => true);
      assert padded[..StrLen(formatted)] == loaded[..StrLen(formatted)];
      RenderText(text, padded);
    }

    /**
     * FontRendererTextFieldBegin: the field's origin, and its line height,
     * the font's height (0 without a font) plus the spacing.
     */
    method TextFieldBegin(x: real, y: real, spacing: real)
      modifies this`fieldX, this`fieldY, this`lineHeight
      ensures fieldX == x && fieldY == y
      ensures lineHeight == (if font.Some? then font.value.height else 0.0) + spacing
    {
      fieldX := x;
      fieldY := y;
      lineHeight := if font.Some? then font.value.height else 0.0;
      lineHeight := lineHeight + spacing;
    }

    /** FontRendererTextFieldLine: one formatted line, then the field moves down a line. */
    method TextFieldLine(formatted: seq<char>, loaded: seq<bool>)
      requires Valid() && |formatted| + 1 <= MAX_LINE_LENGTH && |loaded| == |formatted|
      modifies this`vertexIndex, this`quadCount, this`pending, this`draws, this`warnings, lineBuffer, this`fieldY
      ensures Valid() && fieldY == old(fieldY) + lineHeight && fieldX == old(fieldX)
      ensures lineBuffer[..|formatted| + 1] == formatted + ['\0']
      ensures font.None? ==> Queued() == old(Queued()) && draws == old(draws) && warnings == old(warnings) + [NoFontBound]
      ensures font.Some? ==> Queued() == old(Queued()) + formatted[..StrLen(formatted)]
      ensures font.Some? ==> warnings == old(warnings) + LoadWarnings(formatted[..StrLen(formatted)], loaded[..StrLen(formatted)])
    {
      RenderTextFormatted(formatted, loaded);
      fieldY := fieldY + lineHeight;
    }
  }

  /** A string followed by a NUL reads back, through strlen, as its own characters before any NUL. */
  lemma {:induction false} NulTerminated(s: seq<char>, t: seq<char>)
    requires |s| < |t| && t[..|s| + 1] == s + ['\0']
    ensures StrLen(t) == StrLen(s) && t[..StrLen(t)] == s[..StrLen(s)]
  {
    if |s| > 0 && s[0] != '\0' {
      assert t[1..][..|s| - 1 + 1] == s[1..] + ['\0'];
      NulTerminated(s[1..], t[1..]);
      assert t[..StrLen(t)] == [t[0]] + t[1..][..StrLen(t[1..])];
      assert s[..StrLen(s)] == [s[0]] + s[1..][..StrLen(s[1..])];
    } else {
      assert t[0] == '\0' || t[0] == s[0];
    }
  }

  // ---------------------------------------------------------------------------
  // Properties

  /**
   * A batch never holds more than 31 quads, which is exactly the number of
   * quads whose indices the GenerateIndices loop as written fills in the
   * 192-entry index buffer: the text batch never draws the quad whose
   * indices are missing.
   */
  lemma BatchStaysWithinWrittenIndices(quadCount: nat)
    requires QUAD_SIZE * quadCount <= BUFFER_SIZE - QUAD_SIZE
    ensures quadCount <= Renderer.QuadsAsWritten(INDEX_COUNT, INDICES_PER_QUAD)
    ensures INDICES_PER_QUAD * quadCount <= INDICES_PER_QUAD * Renderer.QuadsAsWritten(INDEX_COUNT, INDICES_PER_QUAD)
  {
  }

  /** The loop's flush test, vertex_index + 16 >= 512, holds exactly when 31 quads are queued. */
  lemma FlushAtThirtyOneQuads(quadCount: nat)
    requires quadCount <= MAX_QUADS - 1
    ensures QUAD_SIZE * quadCount + QUAD_SIZE >= BUFFER_SIZE <==> quadCount == MAX_QUADS - 1
  {
  }

  /** One warning at most per character, and none when every glyph loads. */
  lemma {:induction false} AllLoadedNoWarnings(text: seq<char>, loaded: seq<bool>)
    requires |loaded| == |text| && forall i :: 0 <= i < |loaded| ==> loaded[i]
    ensures LoadWarnings(text, loaded) == []
  {
    if |text| > 0 {
      AllLoadedNoWarnings(text[..|text| - 1], loaded[..|text| - 1]);
    }
  }

  /** strlen stops at the first NUL: text after it is never rendered. */
  lemma {:induction false} StrLenStopsAtNul(s: seq<char>, rest: seq<char>)
    requires '\0' !in s
    ensures StrLen(s + ['\0'] + rest) == |s| && StrLen(s) == |s|
  {
    if |s| > 0 {
      assert (s + ['\0'] + rest)[1..] == s[1..] + ['\0'] + rest;
      StrLenStopsAtNul(s[1..], rest);
    }
  }
}
