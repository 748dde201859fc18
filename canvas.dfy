/** The LED matrix the effects draw into: a 16 x 5 grid of colours, stored
    row-major in one array, as `leds[XY(x, y)]` on the glasses. */
module Canvas {
  import opened Bytes

  /** Matrix width and height: the 16-slot column buffer of the text scroller
      and the hard-coded lens loops (`x < 7`, `9..15`, `y < 5`) fix these. */
  const W: nat := 16
  const H: nat := 5

  /** A colour is a triple of 8-bit channels (`CRGB`). */
  datatype Colour = Colour(r: byte, g: byte, b: byte)

  const Black: Colour := Colour(0, 0, 0)
  const Red: Colour := Colour(255, 0, 0)
  const Lime: Colour := Colour(0, 255, 0)
  const Blue: Colour := Colour(0, 0, 255)
  const Crimson: Colour := Colour(220, 20, 60)
  const Salmon: Colour := Colour(250, 128, 114)
  const Tomato: Colour := Colour(255, 99, 71)

  /** Linear index of pixel (x, y); distinct pixels get distinct cells. */
  function Idx(x: nat, y: nat): (i: nat)
    requires x < W && y < H
    ensures i < W * H
    ensures i % W == x && i / W == y
  {
    y * W + x
  }

  class Canvas {
    var cells: array<Colour>

    ghost predicate Valid()
      reads this
    {
      cells.Length == W * H
    }

    /** Power-on state: every pixel black. */
    constructor ()
      ensures Valid() && fresh(cells)
      ensures forall i :: 0 <= i < cells.Length ==> cells[i] == Black
    {
      cells := new Colour[W * H](_ => Black);
    }

    function At(x: nat, y: nat): Colour
      reads this, cells
      requires Valid() && x < W && y < H
    {
      cells[Idx(x, y)]
    }

    /** `leds[XY(x, y)] = c`: one pixel changes, no other. */
    method Set(x: nat, y: nat, c: Colour)
      requires Valid() && x < W && y < H
      modifies cells
      ensures forall x': nat, y': nat | x' < W && y' < H ::
        At(x', y') == if x' == x && y' == y then c else old(At(x', y'))
    {
      cells[Idx(x, y)] := c;
    }

    /** `leds[i] = c` for a raw LED index. */
    method SetIndex(i: nat, c: Colour)
      requires Valid() && i < cells.Length
      modifies cells
      ensures cells[..] == old(cells[..])[i := c]
    {
      cells[i] := c;
    }

    /** `fillAll(c)`: every pixel becomes c. */
    method Fill(c: Colour)
      requires Valid()
      modifies cells
      ensures forall i :: 0 <= i < cells.Length ==> cells[i] == c
      ensures forall x: nat, y: nat | x < W && y < H :: At(x, y) == c
    {
      forall i | 0 <= i < cells.Length {
        cells[i] := c;
      }
    }

    /** `FastLED.clear()`: every pixel becomes black. */
    method Clear()
      requires Valid()
      modifies cells
      ensures forall i :: 0 <= i < cells.Length ==> cells[i] == Black
      ensures forall x: nat, y: nat | x < W && y < H :: At(x, y) == Black
    {
      Fill(Black);
    }
  }
}
