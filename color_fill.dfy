/** `colorFill`: the display is filled line by line with one palette colour,
    from the top, then from the left, then from the bottom, then from the
    right; after each complete fill the colour moves 3 to 5 places along the
    16-entry palette and the direction turns. */
module ColorFill {
  import opened Bytes
  import opened Canvas

  /** The three statics of `colorFill`. */
  datatype FillState = FillState(colour: byte, row: byte, dir: byte)

  /** The statics after setup. */
  const START: FillState := FillState(0, 0, 0)

  /** Number of entries of the fill palette (`RainbowColors_p`). */
  const PALETTE_SIZE: nat := 16

  /** Delays in ms: a row step, a column step, and the pause after a fill. */
  const ROW_DELAY: nat := 45
  const COLUMN_DELAY: nat := 20
  const PASS_DELAY: nat := 300

  /** Directions 0 and 2 fill rows (`!(currentDirection & 1)`), 1 and 3 columns. */
  predicate Vertical(dir: byte) {
    dir % 2 == 0
  }

  /** Lines in one fill: 5 rows or 16 columns. */
  function PassLength(dir: byte): (n: nat)
    ensures n == H || n == W
    ensures Vertical(dir) <==> n == H
  {
    if Vertical(dir) then H else W
  }

  /** A state reachable from setup: palette index, direction and line in range. */
  predicate FillValid(s: FillState) {
    s.colour < PALETTE_SIZE && s.dir <= 3 && s.row < PassLength(s.dir)
  }

  /** `currentColor += random8(3, 6); if (currentColor > 15) currentColor -= 16;` */
  function NextColour(colour: byte, inc: int): (r: byte)
    requires 3 <= inc <= 5
    ensures colour < PALETTE_SIZE ==> r == (colour + inc) % PALETTE_SIZE
  {
    var c := Wrap8(colour + inc);
    if c > 15 then c - 16 else c
  }

  /** `currentDirection++; if (currentDirection > 3) currentDirection = 0;` */
  function NextDir(dir: byte): (r: byte)
    ensures dir <= 3 ==> r == (dir + 1) % 4
  {
    var d := Wrap8(dir + 1);
    if d > 3 then 0 else d
  }

  /** The fill ends when the incremented line counter reaches the line count. */
  predicate Completes(s: FillState) {
    Wrap8(s.row + 1) >= PassLength(s.dir)
  }

  /** The state update of one call (after any setup); `inc` is the value
      drawn by `random8(3, 6)`. */
  function FillNext(s: FillState, inc: int): (r: FillState)
    requires 3 <= inc <= 5
    ensures FillValid(s) ==> FillValid(r)
    ensures FillValid(s) && !Completes(s) ==> r == s.(row := s.row + 1)
    ensures FillValid(s) && Completes(s) ==>
      r == FillState((s.colour + inc) % PALETTE_SIZE, 0, (s.dir + 1) % 4)
  {
    var row := Wrap8(s.row + 1);
    if Completes(s) then FillState(NextColour(s.colour, inc), 0, NextDir(s.dir))
    else s.(row := row)
  }

  /** The `effectDelay` a call leaves behind. */
  function FillDelay(s: FillState): (d: nat)
    ensures d == ROW_DELAY || d == COLUMN_DELAY || d == PASS_DELAY
    ensures d == PASS_DELAY <==> Completes(s)
  {
    if Completes(s) then PASS_DELAY else if Vertical(s.dir) then ROW_DELAY else COLUMN_DELAY
  }

  /** The pixels one call paints: row `row` counted from the top (direction
      0) or the bottom (2), column `row` counted from the left (1) or the
      right (3). */
  predicate OnLine(s: FillState, x: int, y: int) {
    0 <= x < W && 0 <= y < H &&
    if Vertical(s.dir) then y == (if s.dir == 2 then H - 1 - s.row else s.row as int)
    else x == (if s.dir == 3 then W - 1 - s.row else s.row as int)
  }

  /** The lines of one fill cover the display, each pixel on exactly one line. */
  lemma PassPartitions(colour: byte, dir: byte, x: nat, y: nat)
    requires dir <= 3 && x < W && y < H
    ensures exists row: byte :: row < PassLength(dir) && OnLine(FillState(colour, row, dir), x, y)
    ensures forall r1: byte, r2: byte ::
      OnLine(FillState(colour, r1, dir), x, y) && OnLine(FillState(colour, r2, dir), x, y) ==> r1 == r2
  {
    var row: byte;
    if Vertical(dir) {
      row := if dir == 2 then H - 1 - y else y;
    } else {
      row := if dir == 3 then W - 1 - x else x;
    }
    assert OnLine(FillState(colour, row, dir), x, y);
  }

  /** Every draw of `random8(3, 6)` lies in 3..5. */
  predicate Increments(incs: seq<int>) {
    forall i :: 0 <= i < |incs| ==> 3 <= incs[i] <= 5
  }

  /** Successive calls with the random increments `incs`. */
  function FillRun(s: FillState, incs: seq<int>): (r: FillState)
    requires FillValid(s) && Increments(incs)
    ensures FillValid(r)
    decreases |incs|
  {
    if |incs| == 0 then s else FillRun(FillNext(s, incs[0]), incs[1..])
  }

  /** From line `row` a fill takes exactly the remaining lines, then starts the
      next direction at line 0 with the colour moved on by the last increment. */
  lemma {:induction false} PassCompletes(s: FillState, incs: seq<int>)
    requires FillValid(s) && Increments(incs)
    requires |incs| == PassLength(s.dir) - s.row
    decreases |incs|
    ensures FillRun(s, incs) ==
      FillState((s.colour + incs[|incs| - 1]) % PALETTE_SIZE, 0, (s.dir + 1) % 4)
  {
    if |incs| == 1 {
      assert Completes(s);
      assert FillRun(s, incs) == FillRun(FillNext(s, incs[0]), []);
    } else {
      assert !Completes(s);
      var s1 := FillNext(s, incs[0]);
      assert s1 == s.(row := s.row + 1);
      PassCompletes(s1, incs[1..]);
      assert incs[1..][|incs[1..]| - 1] == incs[|incs| - 1];
    }
  }

  /** Four fills starting at line 0 of direction 0 (as after setup) visit
      the directions 0, 1, 2, 3 in 5 + 16 + 5 + 16 calls and return to line 0
      of direction 0, the colour moved on by the four closing increments. */
  lemma FourPassesReturn(s0: FillState, a: seq<int>, b: seq<int>, c: seq<int>, d: seq<int>)
    returns (s1: FillState, s2: FillState, s3: FillState, s4: FillState)
    requires FillValid(s0) && s0.row == 0 && s0.dir == 0
    requires Increments(a) && Increments(b) && Increments(c) && Increments(d)
    requires |a| == H && |b| == W && |c| == H && |d| == W
    ensures s1 == FillRun(s0, a) && s2 == FillRun(s1, b) && s3 == FillRun(s2, c) && s4 == FillRun(s3, d)
    ensures s1.dir == 1 && s2.dir == 2 && s3.dir == 3 &&
            s4.dir == 0 && s4.row == 0 &&
            s4.colour == (s0.colour + a[H - 1] + b[W - 1] + c[H - 1] + d[W - 1]) % PALETTE_SIZE
  {
    var ka, kb, kc := a[H - 1], b[W - 1], c[H - 1];
    s1 := FillRun(s0, a);
    PassFrom(s0, a, s0.colour);
    s2 := FillRun(s1, b);
    PassFrom(s1, b, s0.colour + ka);
    s3 := FillRun(s2, c);
    PassFrom(s2, c, s0.colour + ka + kb);
    s4 := FillRun(s3, d);
    PassFrom(s3, d, s0.colour + ka + kb + kc);
  }

  /** `PassCompletes` with the colour written as `base` reduced modulo the
      palette size, so that successive fills add up their increments. */
  lemma PassFrom(s: FillState, incs: seq<int>, base: nat)
    requires FillValid(s) && Increments(incs)
    requires |incs| == PassLength(s.dir) - s.row && s.colour == base % PALETTE_SIZE
    ensures FillRun(s, incs) ==
      FillState((base + incs[|incs| - 1]) % PALETTE_SIZE, 0, (s.dir + 1) % 4)
  {
    PassCompletes(s, incs);
    ModAddLeft(base, incs[|incs| - 1], PALETTE_SIZE);
  }

  /** The persistent state of `colorFill`; `palette` is `RainbowColors_p`. */
  class ColorFiller {
    const palette: seq<Colour>
    var effectInit: bool
    var effectDelay: nat
    var currentColor: byte
    var currentRow: byte
    var currentDirection: byte

    function State(): FillState
      reads this
    {
      FillState(currentColor, currentRow, currentDirection)
    }

    ghost predicate Valid()
      reads this
    {
      |palette| == PALETTE_SIZE && FillValid(State())
    }

    constructor (entries: seq<Colour>)
      requires |entries| == PALETTE_SIZE
      ensures Valid() && !effectInit && palette == entries && State() == START
    {
      palette := entries;
      effectInit := false;
      effectDelay := 0;
      currentColor := 0;
      currentRow := 0;
      currentDirection := 0;
    }

    /** One call of `colorFill`; `inc` is the `random8(3, 6)` draw. */
    method Step(c: Canvas, inc: int)
      requires Valid() && c.Valid() && 3 <= inc <= 5
      modifies this, c.cells
      ensures Valid() && effectInit
      ensures var s := if old(effectInit) then old(State()) else START;
        State() == FillNext(s, inc) && effectDelay == FillDelay(s) &&
        forall x: nat, y: nat | x < W && y < H ::
          c.At(x, y) == if OnLine(s, x, y) then palette[s.colour] else old(c.At(x, y))
    {
      if !effectInit {
        effectInit := true;
        effectDelay := ROW_DELAY;
        currentColor := 0;
        currentRow := 0;
        currentDirection := 0;
      }

      effectDelay := DrawLine(c, State(), palette[currentColor]);

      currentRow := Wrap8(currentRow + 1);

      if (currentDirection % 2 == 0 && currentRow >= H) || (currentDirection % 2 == 1 && currentRow >= W) {
        currentRow := 0;
        currentColor := NextColour(currentColor, inc);
        currentDirection := NextDir(currentDirection);
        effectDelay := PASS_DELAY;
      }
    }
  }

  /** The drawing half of a call: line `s.row` of direction `s.dir` in
      `colour`; the result is the step delay for that direction. */
  method DrawLine(c: Canvas, s: FillState, colour: Colour) returns (delay: nat)
    requires c.Valid() && FillValid(s)
    modifies c.cells
    ensures delay == if Vertical(s.dir) then ROW_DELAY else COLUMN_DELAY
    ensures forall x: nat, y: nat | x < W && y < H ::
      c.At(x, y) == if OnLine(s, x, y) then colour else old(c.At(x, y))
  {
    delay := 0;
    if s.dir % 2 == 0 {
      delay := ROW_DELAY;
      var y: int := s.row;
      if s.dir == 2 {
        y := H - 1 - s.row;
      }
      FillRow(c, y, colour);
    }

    if s.dir % 2 == 1 {
      delay := COLUMN_DELAY;
      var x: int := s.row;
      if s.dir == 3 {
        x := W - 1 - s.row;
      }
      FillColumn(c, x, colour);
    }
  }

  /** `for (x = 0; x < kMatrixWidth; x++) leds[XY(x, y)] = colour;` */
  method FillRow(c: Canvas, y: int, colour: Colour)
    requires c.Valid() && 0 <= y < H
    modifies c.cells
    ensures forall x': nat, y': nat | x' < W && y' < H ::
      c.At(x', y') == if y' == y then colour else old(c.At(x', y'))
  {
    var x := 0;
    while x < W
      invariant 0 <= x <= W
      invariant forall x': nat, y': nat | x' < W && y' < H ::
        c.At(x', y') == if y' == y && x' < x then colour else old(c.At(x', y'))
    {
      c.Set(x, y, colour);
      x := x + 1;
    }
  }

  /** `for (y = 0; y < kMatrixHeight; y++) leds[XY(x, y)] = colour;` */
  method FillColumn(c: Canvas, x: int, colour: Colour)
    requires c.Valid() && 0 <= x < W
    modifies c.cells
    ensures forall x': nat, y': nat | x' < W && y' < H ::
      c.At(x', y') == if x' == x then colour else old(c.At(x', y'))
  {
    var y := 0;
    while y < H
      invariant 0 <= y <= H
      invariant forall x': nat, y': nat | x' < W && y' < H ::
        c.At(x', y') == if x' == x && y' < y then colour else old(c.At(x', y'))
    {
      c.Set(x, y, colour);
      y := y + 1;
    }
  }
}
