/** The small counter-driven effects: `RGBpulse` (a colour per beat),
    `hearts` (a heart growing in four stages, then a blank frame),
    `shadesOutline` (one pixel running round the frame of the glasses) and
    the beat counter that turns the direction of `audioShadesOutline`. */
module Cycles {
  import opened Bytes
  import opened Canvas

  // ---------------------------------------------------------------- RGBpulse

  /** `RGBcycle++; if (RGBcycle > 2) RGBcycle = 0;`, on beat ticks only. */
  function PulseNext(cycle: byte, beat: bool): (r: byte)
    ensures cycle <= 2 ==> r <= 2
    ensures !beat ==> r == cycle
    ensures beat && cycle <= 2 ==> r == (cycle + 1) % 3
  {
    if beat then
      var n := Wrap8(cycle + 1);
      if n > 2 then 0 else n
    else cycle
  }

  /** The fill colour chosen by `switch (RGBcycle)`; other values fill nothing. */
  function PulseColour(cycle: byte): (r: Colour)
    requires cycle <= 2
    ensures r == Red || r == Lime || r == Blue
    ensures r == Red <==> cycle == 0
    ensures r == Blue <==> cycle == 2
  {
    if cycle == 0 then Red else if cycle == 1 then Lime else Blue
  }

  /** Three beats bring the cycle back, each showing the next of red, lime
      and blue; ticks without a beat change nothing. */
  lemma PulseRotates(cycle: byte)
    requires cycle <= 2
    ensures PulseNext(PulseNext(PulseNext(cycle, true), true), true) == cycle
    ensures PulseColour(PulseNext(cycle, true)) != PulseColour(cycle)
  {
  }

  class RGBPulse {
    var effectInit: bool
    var effectDelay: nat
    var rgbCycle: byte

    ghost predicate Valid()
      reads this
    {
      rgbCycle <= 2
    }

    constructor ()
      ensures Valid() && !effectInit && rgbCycle == 0
    {
      effectInit := false;
      effectDelay := 0;
      rgbCycle := 0;
    }

    /** One call of `RGBpulse`: on a beat the whole display takes the colour
        of the current cycle and the cycle advances; otherwise nothing changes. */
    method Step(c: Canvas, beat: bool)
      requires Valid() && c.Valid()
      modifies this, c.cells
      ensures Valid() && effectInit
      ensures effectDelay == if old(effectInit) then old(effectDelay) else 1
      ensures rgbCycle == PulseNext(old(rgbCycle), beat)
      ensures beat ==> forall i :: 0 <= i < c.cells.Length ==> c.cells[i] == PulseColour(old(rgbCycle))
      ensures !beat ==> c.cells[..] == old(c.cells[..])
    {
      if !effectInit {
        effectInit := true;
        effectDelay := 1;
      }
      if beat {
        match rgbCycle {
          case 0 => c.Fill(Red);
          case 1 => c.Fill(Lime);
          case 2 => c.Fill(Blue);
        }
        rgbCycle := PulseNext(rgbCycle, true);
      }
    }
  }

  // ------------------------------------------------------------------ hearts

  /** An LED address within the display buffer. */
  type Led = i: nat | i < W * H

  /** LED addresses of the four hearts, smallest first. */
  const SmHeart: seq<Led> := [46, 48, 53, 55, 60, 65]
  const MedHeart: seq<Led> := [31, 32, 34, 35, 38, 39, 41, 42, 46, 47, 48, 55, 54, 53, 54, 55, 60, 65]
  const LrgHeart: seq<Led> := [15, 16, 18, 19, 24, 25, 27, 28, 31, 32, 33, 34, 35, 38, 39, 40, 41, 42,
                               46, 47, 48, 53, 54, 55, 60, 65]
  const HugeHeart: seq<Led> := [0, 1, 3, 4, 9, 10, 12, 13, 14, 15, 16, 17, 18, 19, 20, 23, 24, 25, 26,
                                27, 28, 29, 31, 32, 33, 34, 35, 38, 39, 40, 41, 42, 46, 47, 48, 53, 54,
                                55, 60, 65]

  /** The table and colour drawn at stages 0..3; each table is as long as
      the loop bound (6, 18, 26, 40) the stage draws it with. */
  function HeartTable(stage: nat): (t: seq<Led>)
    requires stage < 4
    ensures |t| == [6, 18, 26, 40][stage]
  {
    if stage == 0 then SmHeart else if stage == 1 then MedHeart else if stage == 2 then LrgHeart else HugeHeart
  }

  function HeartColour(stage: nat): (r: Colour)
    requires stage < 4
    ensures r != Black && r.r >= 220
    ensures stage == 3 <==> r == Red
  {
    if stage == 0 then Salmon else if stage == 1 then Tomato else if stage == 2 then Crimson else Red
  }

  /** The stage a call draws: the counter, with 5 read as 0. */
  function DrawnStage(y: byte): (k: byte)
    requires y <= 5
    ensures k <= 4
    ensures y < 5 ==> k == y
  {
    if y == 5 then 0 else y
  }

  /** The counter a call leaves: the drawn stage plus one. */
  function HeartsNext(y: byte): (r: byte)
    requires y <= 5
    ensures 1 <= r <= 5
  {
    DrawnStage(y) + 1
  }

  /** Successive calls draw stages 0, 1, 2, 3, 4, 0, ...: the drawn stage
      steps by one modulo 5, so it returns after five calls. */
  lemma HeartsCycle(y: byte)
    requires y <= 5
    ensures DrawnStage(HeartsNext(y)) == (DrawnStage(y) + 1) % 5
    ensures DrawnStage(HeartsNext(HeartsNext(HeartsNext(HeartsNext(HeartsNext(y)))))) == DrawnStage(y)
  {
  }

  /** `inner` is contained in `outer`, witnessed by the position in `outer`
      of each entry of `inner`. */
  lemma ContainedBy(inner: seq<Led>, outer: seq<Led>, at: seq<nat>)
    requires |at| == |inner|
    requires forall j :: 0 <= j < |at| ==> at[j] < |outer| && outer[at[j]] == inner[j]
    ensures forall a :: a in inner ==> a in outer
  {
    forall a | a in inner
      ensures a in outer
    {
      var j :| 0 <= j < |inner| && inner[j] == a;
      assert outer[at[j]] == a;
    }
  }

  /** Each heart contains the one before it, so the stages grow. */
  lemma SmallInMedium()
    ensures forall a :: a in SmHeart ==> a in MedHeart
  {
    ContainedBy(SmHeart, MedHeart, [8, 10, 13, 11, 16, 17]);
  }

  lemma MediumInLarge()
    ensures forall a :: a in MedHeart ==> a in LrgHeart
  {
    ContainedBy(MedHeart, LrgHeart, [8, 9, 11, 12, 13, 14, 16, 17, 18, 19, 20, 23, 22, 21, 22, 23, 24, 25]);
  }

  /** Position in `HugeHeart` of each entry of `LrgHeart`. */
  const LargeInHugeAt: seq<nat> := [9, 10, 12, 13, 16, 17, 19, 20, 22, 23, 24, 25, 26, 27, 28, 29, 30,
                                    31, 32, 33, 34, 35, 36, 37, 38, 39]

  lemma LargeInHugeLow(j: nat)
    requires j < 9
    ensures LargeInHugeAt[j] < |HugeHeart| && HugeHeart[LargeInHugeAt[j]] == LrgHeart[j]
  {
  }

  lemma LargeInHugeMid(j: nat)
    requires 9 <= j < 18
    ensures LargeInHugeAt[j] < |HugeHeart| && HugeHeart[LargeInHugeAt[j]] == LrgHeart[j]
  {
  }

  lemma LargeInHugeHigh(j: nat)
    requires 18 <= j < |LrgHeart|
    ensures LargeInHugeAt[j] < |HugeHeart| && HugeHeart[LargeInHugeAt[j]] == LrgHeart[j]
  {
  }

  lemma LargeInHuge()
    ensures forall a :: a in LrgHeart ==> a in HugeHeart
  {
    forall a | a in LrgHeart
      ensures a in HugeHeart
    {
      var j :| 0 <= j < |LrgHeart| && LrgHeart[j] == a;
      if j < 9 {
        LargeInHugeLow(j);
      } else if j < 18 {
        LargeInHugeMid(j);
      } else {
        LargeInHugeHigh(j);
      }
    }
  }

  /** The stage-k heart lies inside the stage-(k+1) heart. */
  lemma HeartsNested(stage: nat)
    requires stage < 3
    ensures forall a :: a in HeartTable(stage) ==> a in HeartTable(stage + 1)
  {
    if stage == 0 {
      SmallInMedium();
    } else if stage == 1 {
      MediumInLarge();
    } else {
      LargeInHuge();
    }
  }

  class Hearts {
    var effectInit: bool
    var effectDelay: nat
    var y: byte

    ghost predicate Valid()
      reads this
    {
      y <= 5
    }

    constructor ()
      ensures Valid() && !effectInit && y == 0
    {
      effectInit := false;
      effectDelay := 0;
      y := 0;
    }

    /** One call of `hearts`: stages 0..3 paint their heart over the frame,
        stage 4 clears it; the counter moves to the next stage. */
    method Step(c: Canvas)
      requires Valid() && c.Valid()
      modifies this, c.cells
      ensures Valid() && effectInit
      ensures effectDelay == if old(effectInit) then old(effectDelay) else 150
      ensures var k := DrawnStage(if old(effectInit) then old(y) else 0);
        y == HeartsNext(if old(effectInit) then old(y) else 0) &&
        forall i :: 0 <= i < c.cells.Length ==>
          c.cells[i] ==
            if k == 4 then Black
            else if i in HeartTable(k) then HeartColour(k)
            else if old(effectInit) then old(c.cells[i])
            else Black
    {
      if !effectInit {
        effectInit := true;
        effectDelay := 150;
        c.Clear();
        y := 0;
      }
      if y == 5 {
        y := 0;
      }
      if y == 0 {
        PaintIndices(c, SmHeart, Salmon);
      }
      if y == 1 {
        PaintIndices(c, MedHeart, Tomato);
      }
      if y == 2 {
        PaintIndices(c, LrgHeart, Crimson);
      }
      if y == 3 {
        PaintIndices(c, HugeHeart, Red);
      }
      if y == 4 {
        c.Clear();
      }
      y := y + 1;
    }
  }

  /** `for (x = 0; x < n; x++) leds[table[x]] = colour;` */
  method PaintIndices(c: Canvas, table: seq<Led>, colour: Colour)
    requires c.Valid()
    modifies c.cells
    ensures forall i :: 0 <= i < c.cells.Length ==>
      c.cells[i] == if i in table then colour else old(c.cells[i])
  {
    var x := 0;
    while x < |table|
      invariant 0 <= x <= |table|
      invariant forall i :: 0 <= i < c.cells.Length ==>
        c.cells[i] == if i in table[..x] then colour else old(c.cells[i])
    {
      c.SetIndex(table[x], colour);
      assert table[..x + 1] == table[..x] + [table[x]];
      x := x + 1;
    }
    assert table[..x] == table;
  }

  // ----------------------------------------------------------- shadesOutline

  /** `x++; if (x > (OUTLINESIZE-1)) x = 0;` on the byte index. */
  function OutlineNext(x: byte, size: nat): (r: byte)
    requires size >= 1
    ensures x < size ==> r < size
    ensures x < size - 1 && x < 255 ==> r == x + 1
    ensures x == size - 1 ==> r == 0
  {
    var n := Wrap8(x + 1);
    if n > size - 1 then 0 else n
  }

  /** The index after n calls. */
  function OutlineAfter(x: byte, size: nat, n: nat): byte
    requires size >= 1
    decreases n
  {
    if n == 0 then x else OutlineAfter(OutlineNext(x, size), size, n - 1)
  }

  /** For a perimeter of at most 256 LEDs the index after n calls from the
      start is n modulo the perimeter, so each LED is visited once per lap. */
  lemma {:induction false} OutlineLaps(size: nat, n: nat)
    requires 1 <= size <= 256
    ensures OutlineAfter(0, size, n) == n % size
  {
    if n > 0 {
      OutlineShift(0, size, n - 1);
      OutlineLaps(size, n - 1);
      var k := (n - 1) % size;
      StepDivMod(n - 1, size);
      assert OutlineNext(k as byte, size) == n % size;
    }
  }

  /** The last of n + 1 calls applies one more step to the result of n calls. */
  lemma {:induction false} OutlineShift(x: byte, size: nat, n: nat)
    requires size >= 1
    ensures OutlineAfter(x, size, n + 1) == OutlineNext(OutlineAfter(x, size, n), size)
    decreases n
  {
    if n > 0 {
      OutlineShift(OutlineNext(x, size), size, n - 1);
    }
  }

  /** `shadesOutline`; `outline` stands for `OutlineMap`, the LED address of
      each perimeter position, and its length for `OUTLINESIZE`. */
  class ShadesOutline {
    const outline: seq<nat>
    var effectInit: bool
    var effectDelay: nat
    var x: byte

    ghost predicate Valid()
      reads this
    {
      1 <= |outline| && (forall j :: 0 <= j < |outline| ==> outline[j] < W * H) && x < |outline|
    }

    constructor (perimeter: seq<nat>)
      requires 1 <= |perimeter| && forall j :: 0 <= j < |perimeter| ==> perimeter[j] < W * H
      ensures Valid() && !effectInit && outline == perimeter && x == 0
    {
      outline := perimeter;
      effectInit := false;
      effectDelay := 0;
      x := 0;
    }

    /** One call: the LED at the current perimeter position takes the hue
        colour (`hsv(cycleHue, 255, 255)`) over the frame, and the position
        moves on. */
    method Step(c: Canvas, cycleHue: byte, hsv: (byte, byte, byte) -> Colour)
      requires Valid() && c.Valid()
      modifies this, c.cells
      ensures Valid() && effectInit
      ensures effectDelay == if old(effectInit) then old(effectDelay) else 25
      ensures x == OutlineNext(old(x), |outline|)
      ensures forall i :: 0 <= i < c.cells.Length ==>
        c.cells[i] ==
          if i == outline[old(x)] then hsv(cycleHue, 255, 255)
          else if old(effectInit) then old(c.cells[i])
          else Black
    {
      if !effectInit {
        effectInit := true;
        effectDelay := 25;
        c.Clear();
      }
      var pixelColour := hsv(cycleHue, 255, 255);
      c.SetIndex(outline[x], pixelColour);
      x := OutlineNext(x, |outline|);
    }
  }

  // ------------------------------------------------------ audioShadesOutline

  /** `beatcount++; if (beatcount >= 32) beatcount = 0;` on beat ticks only. */
  function BeatNext(count: byte, beat: bool): (r: byte)
    ensures count < 32 ==> r < 32
    ensures !beat ==> r == count
    ensures beat && count < 32 ==> r == (count + 1) % 32
  {
    if beat then
      var n := Wrap8(count + 1);
      if n >= 32 then 0 else n
    else count
  }

  /** The runner moves forward while the count is below 16, backward above. */
  predicate Forward(count: byte) {
    count < 16
  }

  /** The count after a run of beat flags. */
  function BeatsAfter(count: byte, beats: seq<bool>): byte
    decreases |beats|
  {
    if |beats| == 0 then count else BeatsAfter(BeatNext(count, beats[0]), beats[1..])
  }

  /** Number of beat ticks in a run. */
  function BeatTotal(beats: seq<bool>): nat
    decreases |beats|
  {
    if |beats| == 0 then 0 else (if beats[0] then 1 else 0) + BeatTotal(beats[1..])
  }

  /** From 0 the count is the number of beats modulo 32, so the direction
      turns every 16 beats. */
  lemma {:induction false} BeatsCount(count: byte, beats: seq<bool>)
    requires count < 32
    ensures BeatsAfter(count, beats) == (count + BeatTotal(beats)) % 32
    ensures Forward(BeatsAfter(count, beats)) <==> (count + BeatTotal(beats)) % 32 < 16
    decreases |beats|
  {
    if |beats| > 0 {
      var c1 := BeatNext(count, beats[0]);
      var t := if beats[0] then 1 else 0;
      assert c1 == (count + t) % 32;
      BeatsCount(c1, beats[1..]);
      ModAddLeft(count + t, BeatTotal(beats[1..]), 32);
    }
  }

  /** `int brightness = spectrumDecay[0] + spectrumDecay[1]; if (brightness > 255) brightness = 255;` */
  function OutlineBrightness(level: int): (r: int)
    ensures r <= 255
    ensures level <= 255 ==> r == level
    ensures level > 255 ==> r == 255
  {
    if level > 255 then 255 else level
  }

  /** The display after `leds[runner[k]] += colour` for k in order, `add`
      being the colour addition: LEDs off the runner keep their colour, and
      an LED the runner covers once gets the colour added once. */
  function AddRunner(cells: seq<Colour>, runner: seq<Led>, colour: Colour,
                     add: (Colour, Colour) -> Colour): (r: seq<Colour>)
    requires |cells| == W * H
    ensures |r| == W * H
    ensures forall i :: 0 <= i < W * H && i !in runner ==> r[i] == cells[i]
    ensures forall i :: 0 <= i < W * H && multiset(runner)[i] == 1 ==> r[i] == add(cells[i], colour)
    decreases |runner|
  {
    if |runner| == 0 then cells
    else
      var front := runner[..|runner| - 1];
      var last := runner[|runner| - 1];
      assert runner == front + [last];
      var p := AddRunner(cells, front, colour, add);
      p[last := add(p[last], colour)]
  }

  /** `for (k = 0; k < 4; k++) leds[runner[k]] += colour;` */
  method AddAlong(c: Canvas, runner: seq<Led>, colour: Colour, add: (Colour, Colour) -> Colour)
    requires c.Valid()
    modifies c.cells
    ensures c.cells[..] == AddRunner(old(c.cells[..]), runner, colour, add)
  {
    var k := 0;
    while k < |runner|
      invariant 0 <= k <= |runner|
      invariant c.cells[..] == AddRunner(old(c.cells[..]), runner[..k], colour, add)
    {
      assert runner[..k + 1][..k] == runner[..k];
      c.SetIndex(runner[k], add(c.cells[runner[k]], colour));
      k := k + 1;
    }
    assert runner[..k] == runner;
  }

  /** The integer part of `audioShadesOutline`: setup, the four additions
      of the runner colour, the beat counter, and the brightness and
      direction the runner is drawn and moved with. */
  class AudioShadesOutline {
    var effectInit: bool
    var effectDelay: nat
    var beatcount: byte

    ghost predicate Valid()
      reads this
    {
      beatcount < 32
    }

    constructor ()
      ensures Valid() && !effectInit && beatcount == 0
    {
      effectInit := false;
      effectDelay := 0;
      beatcount := 0;
    }

    /** One call, given the two lowest band levels, the beat flag, the hue,
        and the four LEDs the runner covers (`OutlineMap` of the float
        position and its three quarter-lap offsets); returns the runner
        brightness and whether it moves forward. */
    method Step(c: Canvas, band0: int, band1: int, beat: bool, cycleHue: byte, runner: seq<Led>,
                hsv: (byte, byte, byte) -> Colour, add: (Colour, Colour) -> Colour)
      returns (brightness: int, forward: bool)
      requires Valid() && c.Valid() && |runner| == 4
      modifies this, c.cells
      ensures Valid() && effectInit
      ensures effectDelay == if old(effectInit) then old(effectDelay) else 15
      ensures c.cells[..] ==
        AddRunner(if old(effectInit) then old(c.cells[..]) else seq(W * H, _ => Black),
                  runner, hsv(cycleHue, 255, Wrap8(brightness)), add)
      ensures beatcount == BeatNext(old(beatcount), beat)
      ensures brightness == OutlineBrightness(band0 + band1)
      ensures forward <==> Forward(beatcount)
    {
      if !effectInit {
        effectInit := true;
        effectDelay := 15;
        c.Clear();
        assert c.cells[..] == seq(W * H, _ => Black);
      }
      brightness := band0 + band1;
      if brightness > 255 {
        brightness := 255;
      }
      var pixelColour := hsv(cycleHue, 255, Wrap8(brightness));
      AddAlong(c, runner, pixelColour, add);
      if beat {
        beatcount := Wrap8(beatcount + 1);
        if beatcount >= 32 {
          beatcount := 0;
        }
      }
      forward := beatcount < 16;
    }
  }
}
