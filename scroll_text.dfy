/** `scrollText`: a message scrolls right to left one column per call. A
    16-slot circular buffer holds one bit pattern per display column; each
    call writes the next glyph column (or a blank spacing column) into the
    slot behind the pointer and draws the buffer starting at the pointer. */
module TextScroll {
  import opened Bytes
  import opened Canvas

  /** Colour styles: fixed foreground, or a palette sweep. */
  const NORMAL: byte := 0
  const RAINBOW: byte := 1

  /** Glyphs are 5 columns wide and followed by 2 blank columns. */
  const GLYPH_WIDTH: nat := 5
  const CHAR_SPACING: nat := 2
  const CHAR_COLUMNS: nat := GLYPH_WIDTH + CHAR_SPACING

  const NUL: char := 0 as char

  /** The five column bytes of one character, bit y for row y; the font is
      an external asset, so a glyph is whatever `font` returns. */
  type Glyph = s: seq<byte> | |s| == GLYPH_WIDTH witness [0, 0, 0, 0, 0]

  /** A message is its characters followed by one NUL terminator; it holds at
      least one character and its index fits the byte cursor. */
  predicate ValidMessage(msg: seq<char>) {
    2 <= |msg| <= 256 && msg[|msg| - 1] == NUL &&
    forall i :: 0 <= i < |msg| - 1 ==> msg[i] != NUL
  }

  /** Column k (counting from 0 since setup) of the endless column stream the
      scroller emits: glyph columns 0..4 of character k / 7, then two blank
      columns, the message repeating; columns before setup are blank. */
  function StreamColumn(msg: seq<char>, font: char -> Glyph, k: int): byte
    requires ValidMessage(msg)
  {
    if k < 0 then 0
    else if k % CHAR_COLUMNS < GLYPH_WIDTH then font(msg[(k / CHAR_COLUMNS) % (|msg| - 1)])[k % CHAR_COLUMNS]
    else 0
  }

  /** Lap n of the stream carries character j at columns 7 * (n * L + j) +
      c, L being the message length: glyph column c for c < 5, then two
      blank spacing columns. */
  lemma StreamColumnAt(msg: seq<char>, font: char -> Glyph, n: nat, j: nat, c: nat)
    requires ValidMessage(msg) && j < |msg| - 1 && c < CHAR_COLUMNS
    ensures StreamColumn(msg, font, CHAR_COLUMNS * (n * (|msg| - 1) + j) + c) ==
      if c < GLYPH_WIDTH then font(msg[j])[c] else 0
  {
    var l := |msg| - 1;
    var q := n * l + j;
    DivModUnique(CHAR_COLUMNS * q + c, CHAR_COLUMNS, q, c);
    DivModUnique(q, l, n, j);
  }

  lemma ShiftDivMod(k: nat, n: nat, d: nat)
    requires d > 0
    ensures (k + d * n) % d == k % d && (k + d * n) / d == k / d + n
  {
    var q, r := k / d, k % d;
    assert k == d * q + r;
    assert k + d * n == d * (q + n) + r;
    DivModUnique(k + d * n, d, q + n, r);
  }

  /** Loop closure: after every character of the message and its spacing has
      been emitted once, the stream repeats exactly. */
  lemma StreamPeriodic(msg: seq<char>, font: char -> Glyph, k: nat)
    requires ValidMessage(msg)
    ensures StreamColumn(msg, font, k + CHAR_COLUMNS * (|msg| - 1)) == StreamColumn(msg, font, k)
  {
    var l := |msg| - 1;
    ShiftDivMod(k, l, CHAR_COLUMNS);
    ShiftDivMod(k / CHAR_COLUMNS, 1, l);
  }

  /** Column x of the frame drawn from buffer `buf` when the pointer was p - 1:
      the slot x places after p - 1. */
  function Window(buf: seq<byte>, p: int, x: int): byte
    requires |buf| == W && 0 <= p && 0 <= x < W
  {
    buf[(p + (W - 1) + x) % W]
  }

  /** Reduction modulo the width for sums of two slot indices. */
  lemma ModWidth(a: int)
    requires 0 <= a < 3 * W
    ensures a % W == if a < W then a else if a < 2 * W then a - W else a - 2 * W
  {
    if a < W {
      DivModUnique(a, W, 0, a);
    } else if a < 2 * W {
      DivModUnique(a, W, 1, a - W);
    } else {
      DivModUnique(a, W, 2, a - 2 * W);
    }
  }

  /** The window read from pointer p shows the 16 stream columns that end
      just before stream position e. */
  ghost predicate Lags(before: seq<byte>, p: nat, e: int, msg: seq<char>, font: char -> Glyph)
    requires |before| == W && ValidMessage(msg)
  {
    forall x :: 0 <= x < W ==> Window(before, p, x) == StreamColumn(msg, font, e - W + x)
  }

  /** Writing stream column e behind pointer p and advancing the pointer moves
      every shown column one place left and shows column e at the right edge. */
  lemma WindowAfterLoad(before: seq<byte>, after: seq<byte>, p: nat, q: nat, e: int,
                        msg: seq<char>, font: char -> Glyph)
    requires |before| == W && p < W && q == (p + 1) % W && ValidMessage(msg)
    requires Lags(before, p, e, msg, font)
    requires after == before[(p + W - 1) % W := StreamColumn(msg, font, e)]
    ensures forall x :: 0 <= x < W ==> Window(after, q, x) == after[(p + x) % W]
    ensures forall x :: 0 <= x < W ==> Window(after, q, x) == StreamColumn(msg, font, e + 1 - W + x)
    ensures forall x :: 0 <= x < W - 1 ==> Window(after, q, x) == Window(before, p, x + 1)
  {
    ModWidth(p + 1);
    ModWidth(p + W - 1);
    var slot := (p + W - 1) % W;
    forall x | 0 <= x < W
      ensures Window(after, q, x) == after[(p + x) % W]
      ensures Window(after, q, x) == StreamColumn(msg, font, e + 1 - W + x)
      ensures x < W - 1 ==> Window(after, q, x) == Window(before, p, x + 1)
    {
      ModWidth(q + (W - 1) + x);
      ModWidth(p + x);
      assert (q + (W - 1) + x) % W == (p + x) % W;
      if x < W - 1 {
        ModWidth(p + (W - 1) + (x + 1));
        assert (p + x) % W != slot;
        assert Window(before, p, x + 1) == before[(p + x) % W];
        assert Window(before, p, x + 1) == StreamColumn(msg, font, e - W + (x + 1));
      } else {
        assert (p + x) % W == slot;
      }
    }
  }

  /** Display colour of row y of a column pattern. */
  function ScrollPixel(column: byte, y: nat, style: byte, fg: Colour, bg: Colour,
                       rainbow: byte -> Colour, paletteCycle: byte): (r: Colour)
    ensures !BitRead(column, y) ==> r == bg
    ensures BitRead(column, y) && style != RAINBOW ==> r == fg
    ensures BitRead(column, y) && style == RAINBOW ==> r == rainbow(Wrap8(paletteCycle + y * 16))
    ensures column == 0 ==> r == bg
    ensures y >= 8 ==> r == bg
    ensures style != RAINBOW ==> r == fg || r == bg
  {
    BitReadDigits(column, y);
    if BitRead(column, y) then
      (if style == RAINBOW then rainbow(Wrap8(paletteCycle + y * 16)) else fg)
    else bg
  }

  /** The persistent state of `scrollText`; `msg` and `font` stand for the
      selected flash string and the glyph table. */
  class TextScroller {
    const msg: seq<char>
    const font: char -> Glyph
    var effectInit: bool
    var effectDelay: nat
    var currentMessageChar: byte
    var currentCharColumn: byte
    var paletteCycle: byte
    var bitBuffer: array<byte>
    var bitBufferPointer: byte
    var charBuffer: Glyph
    /** Columns emitted since the last setup. */
    ghost var emitted: nat

    /** The pattern shown at display column x by the latest frame: the buffer
        read from the slot the frame started at, one behind the pointer. */
    function Shown(x: nat): byte
      reads this`bitBuffer, this`bitBufferPointer, bitBuffer
      requires bitBuffer.Length == W && x < W
    {
      Window(bitBuffer[..], bitBufferPointer, x)
    }

    ghost predicate Bounded()
      reads this`bitBuffer, this`bitBufferPointer, this`currentCharColumn, this`currentMessageChar
    {
      ValidMessage(msg) && bitBuffer.Length == W && bitBufferPointer <= 15 &&
      currentCharColumn < CHAR_COLUMNS && currentMessageChar < |msg| - 1
    }

    /** After setup the cursors and the 16 shown columns are the stream at
        position `emitted`. */
    ghost predicate Synced()
      reads this`bitBuffer, this`bitBufferPointer, this`currentCharColumn, this`currentMessageChar,
            this`charBuffer, this`emitted, bitBuffer
      requires Bounded()
    {
      CursorSynced() &&
      forall x :: 0 <= x < W ==> Shown(x) == StreamColumn(msg, font, emitted - W + x)
    }

    /** The column and character cursors point at stream column `emitted`. */
    ghost predicate CursorSynced()
      reads this`currentCharColumn, this`currentMessageChar, this`charBuffer, this`emitted
    {
      ValidMessage(msg) && currentMessageChar < |msg| - 1 &&
      currentCharColumn == emitted % CHAR_COLUMNS &&
      currentMessageChar == (emitted / CHAR_COLUMNS) % (|msg| - 1) &&
      charBuffer == font(msg[currentMessageChar])
    }

    ghost predicate Valid()
      reads this, bitBuffer
    {
      Bounded() && (effectInit ==> Synced())
    }

    /** The statics at power-on: every counter and buffer slot 0. */
    constructor (message: seq<char>, glyphs: char -> Glyph)
      requires ValidMessage(message)
      ensures Valid() && !effectInit && fresh(bitBuffer)
      ensures msg == message && font == glyphs
      ensures bitBufferPointer == 0 && paletteCycle == 0
      ensures currentMessageChar == 0 && currentCharColumn == 0 && charBuffer == [0, 0, 0, 0, 0]
      ensures forall i :: 0 <= i < W ==> bitBuffer[i] == 0
    {
      msg := message;
      font := glyphs;
      effectInit := false;
      effectDelay := 0;
      currentMessageChar := 0;
      currentCharColumn := 0;
      paletteCycle := 0;
      bitBuffer := new byte[W](_ => 0);
      bitBufferPointer := 0;
      charBuffer := [0, 0, 0, 0, 0];
      emitted := 0;
    }

    /** Setup: cursors to the first character, buffer cleared; the buffer
        pointer and the palette cycle keep their values. */
    method Setup()
      requires Bounded()
      modifies this, bitBuffer
      ensures Bounded() && Synced() && effectInit && emitted == 0
      ensures bitBuffer == old(bitBuffer) && effectDelay == 35
      ensures bitBufferPointer == old(bitBufferPointer) && paletteCycle == old(paletteCycle)
      ensures forall i :: 0 <= i < W ==> bitBuffer[i] == 0
    {
      effectInit := true;
      effectDelay := 35;
      currentMessageChar := 0;
      currentCharColumn := 0;
      charBuffer := font(msg[currentMessageChar]);
      ClearBitBuffer();
      emitted := 0;
    }

    /** `for (i = 0; i < kMatrixWidth; i++) bitBuffer[i] = 0;` */
    method ClearBitBuffer()
      requires bitBuffer.Length == W
      modifies bitBuffer
      ensures forall i :: 0 <= i < W ==> bitBuffer[i] == 0
    {
      var i := 0;
      while i < W
        invariant 0 <= i <= W
        invariant forall j :: 0 <= j < i ==> bitBuffer[j] == 0
      {
        bitBuffer[i] := 0;
        i := i + 1;
      }
    }

    /** The drawing loops: display column x shows the buffer slot x places
        after the pointer, bit y of it on row y. */
    method Render(c: Canvas, style: byte, fg: Colour, bg: Colour, rainbow: byte -> Colour)
      requires Bounded() && c.Valid()
      modifies c.cells
      ensures forall x: nat, y: nat | x < W && y < H ::
        c.At(x, y) == ScrollPixel(bitBuffer[(bitBufferPointer + x) % W], y, style, fg, bg, rainbow, paletteCycle)
    {
      var x := 0;
      while x < W
        invariant 0 <= x <= W
        invariant forall x': nat, y': nat | x' < x && y' < H ::
          c.At(x', y') == ScrollPixel(bitBuffer[(bitBufferPointer + x') % W], y', style, fg, bg, rainbow, paletteCycle)
      {
        var y := 0;
        while y < 5
          invariant 0 <= y <= 5
          invariant forall x': nat, y': nat | x' < W && y' < H && (x' < x || (x' == x && y' < y)) ::
            c.At(x', y') == ScrollPixel(bitBuffer[(bitBufferPointer + x') % W], y', style, fg, bg, rainbow, paletteCycle)
        {
          var pixelColour := ScrollPixel(bitBuffer[(bitBufferPointer + x) % W], y, style, fg, bg, rainbow, paletteCycle);
          c.Set(x, y, pixelColour);
          y := y + 1;
        }
        x := x + 1;
      }
    }

    /** The column cursor steps through 0..6; after the last spacing column the
        next character is loaded, wrapping to the first at the terminator. */
    method AdvanceCursor()
      requires Bounded() && CursorSynced()
      modifies this`currentCharColumn, this`currentMessageChar, this`charBuffer, this`emitted
      ensures Bounded() && CursorSynced() && emitted == old(emitted) + 1
    {
      StepDivMod(emitted, CHAR_COLUMNS);
      var l := |msg| - 1;
      var q := emitted / CHAR_COLUMNS;
      StepDivMod(q, l);
      currentCharColumn := currentCharColumn + 1;
      if currentCharColumn > 4 + CHAR_SPACING {
        currentCharColumn := 0;
        currentMessageChar := currentMessageChar + 1;
        var nextChar := msg[currentMessageChar];
        if nextChar == NUL {
          currentMessageChar := 0;
          nextChar := msg[currentMessageChar];
        }
        charBuffer := font(nextChar);
      }
      emitted := emitted + 1;
    }

    /** One call of `scrollText`. */
    method Step(c: Canvas, style: byte, fg: Colour, bg: Colour, rainbow: byte -> Colour)
      requires Valid() && c.Valid()
      modifies this, bitBuffer, c.cells
      ensures Valid() && effectInit && bitBuffer == old(bitBuffer)
      ensures effectDelay == if old(effectInit) then old(effectDelay) else 35
      ensures emitted == (if old(effectInit) then old(emitted) else 0) + 1
      ensures bitBufferPointer == (old(bitBufferPointer) + 1) % W
      ensures paletteCycle == Wrap8(old(paletteCycle) + 15)
      // scroll continuity: every column moves one place left and the newly
      // loaded column appears at the right edge
      ensures forall x :: 0 <= x < W - 1 ==> Shown(x) == if old(effectInit) then old(Shown(x + 1)) else 0
      ensures Shown(W - 1) == StreamColumn(msg, font, emitted - 1)
      ensures forall x: nat, y: nat | x < W && y < H ::
        c.At(x, y) == ScrollPixel(Shown(x), y, style, fg, bg, rainbow, paletteCycle)
    {
      if !effectInit {
        Setup();
      }
      paletteCycle := Wrap8(paletteCycle + 15);
      Scroll(c, style, fg, bg, rainbow);
    }

    /** The part of a call after setup and the palette step: load the next
        column, draw, advance the cursors and the pointer. The shown window
        stays in step with the column stream. */
    method Scroll(c: Canvas, style: byte, fg: Colour, bg: Colour, rainbow: byte -> Colour)
      requires Bounded() && Synced() && c.Valid()
      modifies this`currentCharColumn, this`currentMessageChar, this`charBuffer, this`emitted,
               this`bitBufferPointer, bitBuffer, c.cells
      ensures Bounded() && Synced() && emitted == old(emitted) + 1
      ensures bitBufferPointer == (old(bitBufferPointer) + 1) % W
      ensures forall x: nat, y: nat | x < W && y < H ::
        c.At(x, y) == ScrollPixel(Shown(x), y, style, fg, bg, rainbow, paletteCycle)
    {
      ghost var before := bitBuffer[..];
      ghost var p := bitBufferPointer;
      ghost var e := emitted;
      assert Lags(before, p, e, msg, font) by {
        forall x | 0 <= x < W ensures Window(before, p, x) == StreamColumn(msg, font, e - W + x) {
          assert Shown(x) == Window(before, p, x);
        }
      }

      LoadColumn();
      Render(c, style, fg, bg, rainbow);
      Advance(before);
    }

    /** The cursor and pointer updates at the end of a call, once the column
        for stream position `emitted` sits behind the pointer: afterwards the
        window shows the stream one column further on. */
    method Advance(ghost before: seq<byte>)
      requires Bounded() && CursorSynced() && |before| == W
      requires Lags(before, bitBufferPointer, emitted, msg, font)
      requires bitBuffer[..] == before[(bitBufferPointer + W - 1) % W := StreamColumn(msg, font, emitted)]
      modifies this`currentCharColumn, this`currentMessageChar, this`charBuffer, this`emitted,
               this`bitBufferPointer
      ensures Bounded() && Synced() && emitted == old(emitted) + 1
      ensures bitBufferPointer == (old(bitBufferPointer) + 1) % W
      ensures forall x :: 0 <= x < W ==> Shown(x) == bitBuffer[(old(bitBufferPointer) + x) % W]
    {
      ghost var p := bitBufferPointer;
      ghost var e := emitted;
      AdvanceCursor();
      AdvancePointer();
      SyncedAfterLoad(before, p, e);
    }

    /** Once the column for stream position e sits behind pointer p and both
        the pointer and the cursors have moved on, the window is in step with
        the stream again and shows the slots from p on. */
    lemma SyncedAfterLoad(before: seq<byte>, p: nat, e: nat)
      requires Bounded() && CursorSynced() && |before| == W && p < W
      requires bitBufferPointer == (p + 1) % W && emitted == e + 1
      requires Lags(before, p, e, msg, font)
      requires bitBuffer[..] == before[(p + W - 1) % W := StreamColumn(msg, font, e)]
      ensures Synced()
      ensures forall x :: 0 <= x < W ==> Shown(x) == bitBuffer[(p + x) % W]
    {
      WindowAfterLoad(before, bitBuffer[..], p, bitBufferPointer, e, msg, font);
      forall x | 0 <= x < W
        ensures Shown(x) == StreamColumn(msg, font, emitted - W + x)
        ensures Shown(x) == bitBuffer[(p + x) % W]
      {
        assert Shown(x) == Window(bitBuffer[..], bitBufferPointer, x);
      }
    }

    /** The next stream column goes into the slot behind the pointer: the
        current glyph column, or 0 during the spacing between characters. */
    method LoadColumn()
      requires Bounded() && CursorSynced()
      modifies bitBuffer
      ensures bitBuffer[..] == old(bitBuffer[..])[(bitBufferPointer + W - 1) % W := StreamColumn(msg, font, emitted)]
    {
      if currentCharColumn < 5 {
        bitBuffer[(bitBufferPointer + W - 1) % W] := charBuffer[currentCharColumn];
      } else {
        bitBuffer[(bitBufferPointer + W - 1) % W] := 0;
      }
    }

    /** `bitBufferPointer++; if (bitBufferPointer > 15) bitBufferPointer = 0;` */
    method AdvancePointer()
      requires bitBufferPointer <= 15
      modifies this`bitBufferPointer
      ensures bitBufferPointer == (old(bitBufferPointer) + 1) % W
    {
      bitBufferPointer := bitBufferPointer + 1;
      if bitBufferPointer > 15 {
        bitBufferPointer := 0;
      }
    }
  }
}
