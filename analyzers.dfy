/** The integer clamps and the mirrored writes of the audio bar effects:
    `drawAnalyzer` (one bar per band, mirrored left to right), `drawVU` (one
    level bar from the middle out) and `audioStripesB` (a level stripe per
    row, brightest at each lens centre). The float scaling in front of the
    clamps is outside the model: the integer `senseValue` and `audioLevel`
    values are inputs. `palette(index, brightness)` stands for
    `ColorFromPalette(currentPalette, index, brightness)`. */
module Analyzers {
  import opened Bytes
  import opened Canvas
  import Lenses

  /** Column x of the left half, or the left column mirroring x. */
  function Fold(x: nat): (f: nat)
    requires x < W
    ensures f < W / 2
    ensures f == x || f == W - 1 - x
  {
    if x < W / 2 then x else W - 1 - x
  }

  lemma FoldMirror(x: nat)
    requires x < W
    ensures Fold(W - 1 - x) == Fold(x)
  {
  }

  // ------------------------------------------------------------ drawAnalyzer

  /** `pixelBrightness = senseValue * 5`, clamped into [0, 255]. */
  function AnalyzerBrightness(sense: int): (b: byte)
    ensures sense <= 0 ==> b == 0
    ensures sense >= 51 ==> b == 255
    ensures 0 <= sense <= 51 ==> b == 5 * sense
  {
    Clamp(sense * 5, 0, 255)
  }

  /** `pixelPaletteIndex = senseValue / 2 - 15`, clamped into [0, 240]. */
  function AnalyzerIndex(sense: int): (i: byte)
    ensures i <= 240
    ensures sense <= 31 ==> i == 0
    ensures sense >= 510 ==> i == 240
    ensures 32 <= sense <= 509 ==> i == sense / 2 - 15
  {
    Clamp(CDiv(sense, 2) - 15, 0, 240)
  }

  /** C division by a positive constant never decreases when its operand grows. */
  lemma CDivMonotone(a: int, b: int, d: int)
    requires a <= b && d > 0
    ensures CDiv(a, d) <= CDiv(b, d)
  {
    if a >= 0 {
      DivMonotone(a, b, d);
    } else if b < 0 {
      DivMonotone(-b, -a, d);
    } else {
      DivMonotone(0, -a, d);
      DivMonotone(0, b, d);
    }
  }

  lemma DivMonotone(a: nat, b: nat, d: nat)
    requires a <= b && d > 0
    ensures a / d <= b / d
  {
    var qa, qb := a / d, b / d;
    assert a == d * qa + a % d;
    assert b == d * qb + b % d;
    if qa > qb {
      MulAtLeast(d, qa - qb);
    }
  }

  /** A stronger band never gives a dimmer pixel or a lower palette index. */
  lemma AnalyzerMonotone(s1: int, s2: int)
    requires s1 <= s2
    ensures AnalyzerBrightness(s1) <= AnalyzerBrightness(s2)
    ensures AnalyzerIndex(s1) <= AnalyzerIndex(s2)
  {
    CDivMonotone(s1, s2, 2);
  }

  /** Colour of left-half column x (0..7) at row y; column 7 is always
      `palette(0, 0)`. */
  function AnalyzerColour(x: nat, y: nat, sense: (nat, nat) -> int, palette: (byte, byte) -> Colour): (r: Colour)
    ensures x > 6 ==> r == palette(0, 0)
    ensures x <= 6 ==> r == palette(AnalyzerIndex(sense(x, y)), AnalyzerBrightness(sense(x, y)))
    ensures x <= 6 && sense(x, y) <= 0 ==> r == palette(0, 0)
    ensures x <= 6 && sense(x, y) >= 510 ==> r == palette(240, 255)
  {
    if x > 6 then palette(0, 0)
    else palette(AnalyzerIndex(sense(x, y)), AnalyzerBrightness(sense(x, y)))
  }

  class Analyzer {
    var effectInit: bool
    var effectDelay: nat

    constructor ()
      ensures !effectInit
    {
      effectInit := false;
      effectDelay := 0;
    }

    /** One call of `drawAnalyzer`, with `sense(x, y)` the integer
        `senseValue` of column x and row y. Every pixel is written, the right
        half as the mirror image of the left. */
    method Step(c: Canvas, sense: (nat, nat) -> int, palette: (byte, byte) -> Colour)
      requires c.Valid()
      modifies this, c.cells
      ensures effectInit
      ensures effectDelay == if old(effectInit) then old(effectDelay) else 10
      ensures forall x: nat, y: nat | x < W && y < H ::
        c.At(x, y) == AnalyzerColour(Fold(x), y, sense, palette)
      ensures forall x: nat, y: nat | x < W && y < H :: c.At(x, y) == c.At(W - 1 - x, y)
    {
      if !effectInit {
        effectInit := true;
        effectDelay := 10;
      }
      DrawAnalyzer(c, sense, palette);
    }
  }

  /** The nested column and row loops of `drawAnalyzer`: each pixel of the
      left half and its mirror pixel get the same colour. */
  method DrawAnalyzer(c: Canvas, sense: (nat, nat) -> int, palette: (byte, byte) -> Colour)
    requires c.Valid()
    modifies c.cells
    ensures forall x: nat, y: nat | x < W && y < H ::
      c.At(x, y) == AnalyzerColour(Fold(x), y, sense, palette)
    ensures forall x: nat, y: nat | x < W && y < H :: c.At(x, y) == c.At(W - 1 - x, y)
  {
    var x := 0;
    while x < W / 2
      invariant 0 <= x <= W / 2
      invariant forall x': nat, y': nat | x' < W && y' < H ::
        c.At(x', y') == if Fold(x') < x then AnalyzerColour(Fold(x'), y', sense, palette) else old(c.At(x', y'))
    {
      var y := 0;
      while y < H
        invariant 0 <= y <= H
        invariant forall x': nat, y': nat | x' < W && y' < H ::
          c.At(x', y') ==
            if Fold(x') < x || (Fold(x') == x && y' < y) then AnalyzerColour(Fold(x'), y', sense, palette)
            else old(c.At(x', y'))
      {
        var pixelColour: Colour;
        if x > 6 {
          pixelColour := palette(0, 0);
        } else {
          var senseValue := sense(x, y);
          var pixelBrightness: int := senseValue * 5;
          if pixelBrightness > 255 { pixelBrightness := 255; }
          if pixelBrightness < 0 { pixelBrightness := 0; }
          var pixelPaletteIndex: int := CDiv(senseValue, 2) - 15;
          if pixelPaletteIndex > 240 { pixelPaletteIndex := 240; }
          if pixelPaletteIndex < 0 { pixelPaletteIndex := 0; }
          pixelColour := palette(pixelPaletteIndex, pixelBrightness);
        }
        c.Set(x, y, pixelColour);
        c.Set(W - x - 1, y, pixelColour);
        y := y + 1;
      }
      x := x + 1;
    }
    forall x: nat, y: nat | x < W && y < H
      ensures c.At(x, y) == c.At(W - 1 - x, y)
    {
      FoldMirror(x);
    }
  }

  // ------------------------------------------------------------------ drawVU

  // The VU meter's brightness formula and clamps are the analyzer's
  // (`senseValue * 5` into [0, 255]), so it uses `AnalyzerBrightness`;
  // only its palette index differs.

  /** `pixelPaletteIndex = senseValue / 1.5 - 15` truncated to int, clamped
      into [0, 240]; `s / 1.5 - 15` is `(2s - 45) / 3` exactly, so the
      truncation is C division of that numerator. */
  function VUIndex(sense: int): (i: byte)
    ensures i <= 240
    ensures sense <= 23 ==> i == 0
    ensures sense >= 383 ==> i == 240
    ensures 24 <= sense <= 382 ==> i == (2 * sense - 45) / 3
  {
    Clamp(CDiv(2 * sense - 45, 3), 0, 240)
  }

  lemma VUMonotone(s1: int, s2: int)
    requires s1 <= s2
    ensures AnalyzerBrightness(s1) <= AnalyzerBrightness(s2)
    ensures VUIndex(s1) <= VUIndex(s2)
  {
    AnalyzerMonotone(s1, s2);
    CDivMonotone(2 * s1 - 45, 2 * s2 - 45, 3);
  }

  /** Colour of left-half column x (0..7), the same on every row. */
  function VUColour(x: nat, sense: nat -> int, palette: (byte, byte) -> Colour): (r: Colour)
    ensures r == palette(VUIndex(sense(x)), AnalyzerBrightness(sense(x)))
    ensures sense(x) <= 0 ==> r == palette(0, 0)
    ensures sense(x) >= 383 ==> r == palette(240, 255)
  {
    palette(VUIndex(sense(x)), AnalyzerBrightness(sense(x)))
  }

  class VU {
    var effectInit: bool
    var effectDelay: nat

    constructor ()
      ensures !effectInit
    {
      effectInit := false;
      effectDelay := 0;
    }

    /** One call of `drawVU`, with `sense(x)` the integer `senseValue` of
        column x: each column pair x, 15 - x is one colour over all rows. */
    method Step(c: Canvas, sense: nat -> int, palette: (byte, byte) -> Colour)
      requires c.Valid()
      modifies this, c.cells
      ensures effectInit
      ensures effectDelay == if old(effectInit) then old(effectDelay) else 10
      ensures forall x: nat, y: nat | x < W && y < H :: c.At(x, y) == VUColour(Fold(x), sense, palette)
      ensures forall x: nat, y: nat | x < W && y < H :: c.At(x, y) == c.At(W - 1 - x, y) == c.At(x, 0)
    {
      if !effectInit {
        effectInit := true;
        effectDelay := 10;
      }
      DrawVU(c, sense, palette);
    }
  }

  /** The column loop of `drawVU` with its inner row loop: column x and its
      mirror column take one colour on every row. */
  method DrawVU(c: Canvas, sense: nat -> int, palette: (byte, byte) -> Colour)
    requires c.Valid()
    modifies c.cells
    ensures forall x: nat, y: nat | x < W && y < H :: c.At(x, y) == VUColour(Fold(x), sense, palette)
    ensures forall x: nat, y: nat | x < W && y < H :: c.At(x, y) == c.At(W - 1 - x, y) == c.At(x, 0)
  {
    var x := 0;
    while x < W / 2
      invariant 0 <= x <= W / 2
      invariant forall x': nat, y': nat | x' < W && y' < H ::
        c.At(x', y') == if Fold(x') < x then VUColour(Fold(x'), sense, palette) else old(c.At(x', y'))
    {
      var senseValue := sense(x);
      var pixelBrightness: int := senseValue * 5;
      if pixelBrightness > 255 { pixelBrightness := 255; }
      if pixelBrightness < 0 { pixelBrightness := 0; }
      var pixelPaletteIndex: int := CDiv(2 * senseValue - 45, 3);
      if pixelPaletteIndex > 240 { pixelPaletteIndex := 240; }
      if pixelPaletteIndex < 0 { pixelPaletteIndex := 0; }
      var pixelColour := palette(pixelPaletteIndex, pixelBrightness);
      assert pixelColour == VUColour(x, sense, palette);
      var y := 0;
      while y < H
        invariant 0 <= y <= H
        invariant forall x': nat, y': nat | x' < W && y' < H ::
          c.At(x', y') ==
            if Fold(x') < x || (Fold(x') == x && y' < y) then VUColour(Fold(x'), sense, palette)
            else old(c.At(x', y'))
      {
        c.Set(x, y, pixelColour);
        c.Set(W - x - 1, y, pixelColour);
        y := y + 1;
      }
      x := x + 1;
    }
    forall x: nat, y: nat | x < W && y < H
      ensures c.At(x, y) == c.At(W - 1 - x, y)
    {
      FoldMirror(x);
    }
  }

  // ----------------------------------------------------------- audioStripesB

  /** Spectrum band shown on each row pass: `frequencyMap[5] = {5, 1, 0, 2, 5}`. */
  const FrequencyMap: seq<nat> := [5, 1, 0, 2, 5]

  /** The level of row pass y from the integer level of its band: halved
      (truncating) on the centre pass, times 2.5 (truncating) on the outer
      passes, capped at 239; there is no floor. */
  function StripeLevel(y: nat, bandLevel: nat -> int): (a: int)
    requires y < H
    ensures a <= 239
    ensures var b := bandLevel(FrequencyMap[y]);
      (y == 2 && CDiv(b, 2) <= 239 ==> a == CDiv(b, 2)) &&
      ((y == 0 || y == 4) && CDiv(5 * b, 2) <= 239 ==> a == CDiv(5 * b, 2)) &&
      ((y == 1 || y == 3) && b <= 239 ==> a == b)
    ensures var b := bandLevel(FrequencyMap[y]);
      (y == 2 && CDiv(b, 2) > 239 ==> a == 239) &&
      ((y == 0 || y == 4) && CDiv(5 * b, 2) > 239 ==> a == 239) &&
      ((y == 1 || y == 3) && b > 239 ==> a == 239)
  {
    var a0 := bandLevel(FrequencyMap[y]);
    var a1 := if y == 2 then CDiv(a0, 2) else a0;
    var a2 := if y == 0 || y == 4 then CDiv(5 * a1, 2) else a1;
    if a2 > 239 then 239 else a2
  }

  /** `brightLevel = (audioLevel - abs(centre - x) * 20) * 2`, clamped into
      [0, 254], the centre being the lens centre (3 or 12) of column x. */
  function StripeBrightness(level: int, x: nat): (b: int)
    ensures 0 <= b <= 254
    ensures level <= 20 * Abs(Lenses.OffsetX(x)) ==> b == 0
    ensures 20 * Abs(Lenses.OffsetX(x)) <= level <= 20 * Abs(Lenses.OffsetX(x)) + 127 ==>
      b == 2 * (level - 20 * Abs(Lenses.OffsetX(x)))
    ensures level >= 20 * Abs(Lenses.OffsetX(x)) + 127 ==> b == 254
  {
    Clamp((level - Abs(Lenses.OffsetX(x)) * 20) * 2, 0, 254)
  }

  /** The stripe is brightest at the lens centre and fades outwards, 20 level
      units per column. */
  lemma StripeFades(level: int, x1: nat, x2: nat)
    requires (x1 < 7 && x2 < 7) || (9 <= x1 < W && 9 <= x2 < W)
    requires Abs(Lenses.OffsetX(x1)) <= Abs(Lenses.OffsetX(x2))
    ensures StripeBrightness(level, x2) <= StripeBrightness(level, x1)
  {
  }

  /** Colour of column x on a pass with level `level`: the bridge columns 7
      and 8 are black; the palette index is the level stored in a byte. */
  function StripeColour(x: nat, level: int, palette: (byte, byte) -> Colour): (r: Colour)
    ensures x == 7 || x == 8 ==> r == Black
    ensures x != 7 && x != 8 ==> r == palette(Wrap8(level), StripeBrightness(level, x))
    ensures x != 7 && x != 8 && 0 <= level < 256 ==> r == palette(level, StripeBrightness(level, x))
    ensures x != 7 && x != 8 && level <= 20 * Abs(Lenses.OffsetX(x)) ==> r == palette(Wrap8(level), 0)
  {
    if x == 7 || x == 8 then Black
    else palette(Wrap8(level), StripeBrightness(level, x))
  }

  /** The two lenses show mirror images: column x and column 15 - x agree. */
  lemma StripeMirror(x: nat, level: int, palette: (byte, byte) -> Colour)
    requires x < W
    ensures StripeColour(x, level, palette) == StripeColour(W - 1 - x, level, palette)
  {
  }

  /** Passes 0 and 4 read the same band, so the top and bottom rows agree. */
  lemma StripeTopBottom(bandLevel: nat -> int)
    ensures StripeLevel(0, bandLevel) == StripeLevel(4, bandLevel)
  {
  }

  class Stripes {
    var effectInit: bool
    var effectDelay: nat

    constructor ()
      ensures !effectInit
    {
      effectInit := false;
      effectDelay := 0;
    }

    /** One call of `audioStripesB`, with `bandLevel(b)` the integer
        `audioLevel` read from band b: pass y paints display row 4 - y. */
    method Step(c: Canvas, bandLevel: nat -> int, palette: (byte, byte) -> Colour)
      requires c.Valid()
      modifies this, c.cells
      ensures effectInit
      ensures effectDelay == if old(effectInit) then old(effectDelay) else 20
      ensures forall x: nat, y: nat | x < W && y < H ::
        c.At(x, y) == StripeColour(x, StripeLevel(H - 1 - y, bandLevel), palette)
      ensures forall x: nat, y: nat | x < W && y < H :: c.At(x, y) == c.At(W - 1 - x, y)
      ensures forall x: nat | x < W :: c.At(x, 0) == c.At(x, H - 1)
    {
      if !effectInit {
        effectInit := true;
        effectDelay := 20;
      }
      DrawStripes(c, bandLevel, palette);
    }
  }

  /** The row-pass loop of `audioStripesB`: pass y computes its level and
      paints display row 4 - y. */
  method DrawStripes(c: Canvas, bandLevel: nat -> int, palette: (byte, byte) -> Colour)
    requires c.Valid()
    modifies c.cells
    ensures forall x: nat, y: nat | x < W && y < H ::
      c.At(x, y) == StripeColour(x, StripeLevel(H - 1 - y, bandLevel), palette)
    ensures forall x: nat, y: nat | x < W && y < H :: c.At(x, y) == c.At(W - 1 - x, y)
    ensures forall x: nat | x < W :: c.At(x, 0) == c.At(x, H - 1)
  {
    var y := 0;
    while y < H
      invariant 0 <= y <= H
      invariant forall x': nat, r: nat | x' < W && r < H ::
        c.At(x', r) ==
          if H - 1 - r < y then StripeColour(x', StripeLevel(H - 1 - r, bandLevel), palette) else old(c.At(x', r))
    {
      var audioLevel := bandLevel(FrequencyMap[y]);
      if y == 2 {
        audioLevel := CDiv(audioLevel, 2);
      }
      if y == 0 || y == 4 {
        audioLevel := CDiv(5 * audioLevel, 2);
      }
      if audioLevel > 239 {
        audioLevel := 239;
      }
      assert audioLevel == StripeLevel(y, bandLevel);
      DrawStripeRow(c, H - 1 - y, audioLevel, palette);
      y := y + 1;
    }
    forall x: nat, y: nat | x < W && y < H
      ensures c.At(x, y) == c.At(W - 1 - x, y)
    {
      StripeMirror(x, StripeLevel(H - 1 - y, bandLevel), palette);
    }
    StripeTopBottom(bandLevel);
    forall x: nat | x < W
      ensures c.At(x, 0) == c.At(x, H - 1)
    {
      assert c.At(x, 0) == StripeColour(x, StripeLevel(4, bandLevel), palette);
      assert c.At(x, H - 1) == StripeColour(x, StripeLevel(0, bandLevel), palette);
    }
  }

  /** The three column loops of one pass: left lens 0..6, right lens 9..15,
      then the bridge 7..8 in black. */
  method DrawStripeRow(c: Canvas, row: nat, audioLevel: int, palette: (byte, byte) -> Colour)
    requires c.Valid() && row < H
    modifies c.cells
    ensures forall x': nat, y': nat | x' < W && y' < H ::
      c.At(x', y') == if y' == row then StripeColour(x', audioLevel, palette) else old(c.At(x', y'))
  {
    var x := 0;
    while x < 7
      invariant 0 <= x <= 7
      invariant forall x': nat, y': nat | x' < W && y' < H ::
        c.At(x', y') == if y' == row && x' < x then StripeColour(x', audioLevel, palette) else old(c.At(x', y'))
    {
      var brightLevel: int := (audioLevel - Abs(3 - x) * 20) * 2;
      if brightLevel < 0 { brightLevel := 0; }
      if brightLevel > 254 { brightLevel := 254; }
      c.Set(x, row, palette(Wrap8(audioLevel), brightLevel));
      x := x + 1;
    }
    x := 9;
    while x < W
      invariant 9 <= x <= W
      invariant forall x': nat, y': nat | x' < W && y' < H ::
        c.At(x', y') ==
          if y' == row && (x' < 7 || 9 <= x' < x) then StripeColour(x', audioLevel, palette)
          else old(c.At(x', y'))
    {
      var brightLevel: int := (audioLevel - Abs(12 - x) * 20) * 2;
      if brightLevel < 0 { brightLevel := 0; }
      if brightLevel > 254 { brightLevel := 254; }
      c.Set(x, row, palette(Wrap8(audioLevel), brightLevel));
      x := x + 1;
    }
    x := 7;
    while x <= 8
      invariant 7 <= x <= 9
      invariant forall x': nat, y': nat | x' < W && y' < H ::
        c.At(x', y') ==
          if y' == row && (x' < x || 9 <= x') then StripeColour(x', audioLevel, palette)
          else old(c.At(x', y'))
    {
      c.Set(x, row, Black);
      x := x + 1;
    }
  }
}
