/** Geometry of the two lenses of the glasses and the loops that paint
    squares, rings and whole lenses around the two lens centres, shared by
    `mind` and `mindAudio`. */
module Lenses {
  import opened Bytes
  import opened Canvas

  /** Lens centres: `leftCenterX = 3, rightCenterX = 12, centerY = 2`. */
  const LeftCentreX: int := 3
  const RightCentreX: int := 12
  const CentreY: int := 2

  /** The left lens is columns 0..6, the right lens 9..15; 7 and 8 are the bridge. */
  predicate InLeftLens(x: int, y: int) { 0 <= x < 7 && 0 <= y < 5 }
  predicate InRightLens(x: int, y: int) { 9 <= x < 16 && 0 <= y < 5 }
  predicate OnLens(x: int, y: int) { InLeftLens(x, y) || InRightLens(x, y) }

  /** Horizontal and vertical offset of a pixel from the centre of its lens. */
  function OffsetX(x: int): int { if x < 8 then x - LeftCentreX else x - RightCentreX }
  function OffsetY(y: int): int { y - CentreY }

  /** Every lens pixel is within 3 columns and 2 rows of its lens centre. */
  lemma LensExtent(x: int, y: int)
    requires OnLens(x, y)
    ensures Abs(OffsetX(x)) <= 3 && Abs(OffsetY(y)) <= 2
  {
  }

  /** The pixels the nested `dx`/`dy` loops of radius r write around both
      centres, clipped to each lens, without those the loop body skips
      (`abs(dx) < hole && abs(dy) < hole`; hole 0 skips nothing). */
  predicate InSquares(r: int, hole: int, x: int, y: int) {
    OnLens(x, y) && Abs(OffsetX(x)) <= r && Abs(OffsetY(y)) <= r &&
    !(Abs(OffsetX(x)) < hole && Abs(OffsetY(y)) < hole)
  }

  /** The pixels a loop over lens columns lo..hi-1 and rows 0..4 writes; with
      skipInner it leaves out the 3x3 block around the centre cx. */
  predicate InLensFill(lo: int, hi: int, cx: int, skipInner: bool, x: int, y: int) {
    lo <= x < hi && 0 <= y < 5 && (!skipInner || Abs(x - cx) > 1 || Abs(y - CentreY) > 1)
  }

  /** Footprint of growth n (0..4): nothing for 0, otherwise the square of
      radius n - 1 around each centre clipped to the lenses, so 4 is both
      whole lenses. */
  predicate Footprint(n: int, x: int, y: int)
    ensures Footprint(n, x, y) ==> OnLens(x, y) && x != 7 && x != 8
  {
    1 <= n <= 4 && OnLens(x, y) && Abs(OffsetX(x)) <= n - 1 && Abs(OffsetY(y)) <= n - 1
  }

  /** Ring k of `mindAudio`: 1 the centre pixels, 2 the 3x3 square without its
      centre, 3 the outline of the 5x5 square, 4 every lens pixel outside the
      3x3 square. */
  predicate Ring(k: int, x: int, y: int) {
    match k
    case 1 => y == CentreY && (x == LeftCentreX || x == RightCentreX)
    case 2 => InSquares(1, 1, x, y)
    case 3 => InSquares(2, 2, x, y)
    case 4 => OnLens(x, y) && (Abs(OffsetX(x)) > 1 || Abs(OffsetY(y)) > 1)
    case _ => false
  }

  /** The rings 1..e drawn together cover exactly the growth-e footprint. */
  lemma RingsUnion(e: int, x: int, y: int)
    requires 0 <= e <= 4
    ensures (exists k :: 1 <= k <= e && Ring(k, x, y)) <==> Footprint(e, x, y)
  {
    if Footprint(e, x, y) {
      var ax, ay := Abs(OffsetX(x)), Abs(OffsetY(y));
      var k := if ax <= 0 && ay <= 0 then 1
               else if ax <= 1 && ay <= 1 then 2
               else if ax <= 2 && ay <= 2 then 3
               else 4;
      assert Ring(k, x, y);
    }
    if exists k :: 1 <= k <= e && Ring(k, x, y) {
      var k :| 1 <= k <= e && Ring(k, x, y);
      if k == 4 { LensExtent(x, y); }
    }
  }

  /** Lexicographic position of offset (a, b) before loop position (dx, dy). */
  predicate Before(a: int, b: int, dx: int, dy: int) {
    a < dx || (a == dx && b < dy)
  }

  /** The nested loops `for dx in -r..r, for dy in -r..r` that write the left
      and right lens pixel at (centre + dx, centreY + dy) when it lies inside
      that lens, skipping offsets with `abs(dx) < hole && abs(dy) < hole`. */
  method DrawSquares(c: Canvas, r: nat, hole: nat, colour: Colour)
    requires c.Valid() && r <= 2
    modifies c.cells
    ensures forall x: nat, y: nat | x < W && y < H ::
      c.At(x, y) == if InSquares(r, hole, x, y) then colour else old(c.At(x, y))
  {
    var dx: int := -(r as int);
    while dx <= r
      invariant -(r as int) <= dx <= r + 1
      invariant forall x: nat, y: nat | x < W && y < H ::
        c.At(x, y) == if InSquares(r, hole, x, y) && OffsetX(x) < dx then colour else old(c.At(x, y))
    {
      var dy: int := -(r as int);
      while dy <= r
        invariant -(r as int) <= dy <= r + 1
        invariant forall x: nat, y: nat | x < W && y < H ::
          c.At(x, y) ==
            if InSquares(r, hole, x, y) && Before(OffsetX(x), OffsetY(y), dx, dy) then colour
            else old(c.At(x, y))
      {
        if !(Abs(dx) < hole && Abs(dy) < hole) {
          if InLeftLens(LeftCentreX + dx, CentreY + dy) {
            c.Set(LeftCentreX + dx, CentreY + dy, colour);
          }
          if InRightLens(RightCentreX + dx, CentreY + dy) {
            c.Set(RightCentreX + dx, CentreY + dy, colour);
          }
        }
        dy := dy + 1;
      }
      dx := dx + 1;
    }
  }

  /** The nested loops over columns lo..hi-1 and rows 0..4 of one lens that
      write every pixel, or with skipInner only those outside the 3x3 block
      around column cx. */
  method FillLens(c: Canvas, lo: nat, hi: nat, cx: int, skipInner: bool, colour: Colour)
    requires c.Valid() && lo <= hi <= W
    modifies c.cells
    ensures forall x: nat, y: nat | x < W && y < H ::
      c.At(x, y) == if InLensFill(lo, hi, cx, skipInner, x, y) then colour else old(c.At(x, y))
  {
    var x := lo;
    while x < hi
      invariant lo <= x <= hi
      invariant forall x': nat, y': nat | x' < W && y' < H ::
        c.At(x', y') == if InLensFill(lo, x, cx, skipInner, x', y') then colour else old(c.At(x', y'))
    {
      var y := 0;
      while y < 5
        invariant 0 <= y <= 5
        invariant forall x': nat, y': nat | x' < W && y' < H ::
          c.At(x', y') ==
            if InLensFill(lo, x, cx, skipInner, x', y') || (x' == x && InLensFill(x, x + 1, cx, skipInner, x', y') && y' < y)
            then colour else old(c.At(x', y'))
      {
        if !skipInner || Abs(x - cx) > 1 || Abs(y - CentreY) > 1 {
          c.Set(x, y, colour);
        }
        y := y + 1;
      }
      x := x + 1;
    }
  }
}
