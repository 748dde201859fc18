/** The integer part of `mindAudio`: a decaying beat boost, a target expansion
    derived from the smoothed intensity plus that boost, an achieved expansion
    that follows the target by one ring per 50 ms, a dimmed colour while the
    two differ, and nested rings around the two lens centres. The smoothed
    intensity itself (a floating-point moving average) is an input. */
module MindAudio {
  import opened Bytes
  import opened Canvas
  import opened Lenses

  /** The statics of `mindAudio` that carry over between calls. */
  datatype ExpansionState = ExpansionState(lastExpansion: byte, lastChange: u32, target: byte, boost: byte)

  /** Minimum milliseconds between two changes of the achieved expansion. */
  const SLEW_INTERVAL: int := 50
  /** Value the boost jumps to on a beat. */
  const BEAT_BOOST: byte := 80
  /** Scale applied to the ring colour while the expansion is in transition
      (`255 - fadeAmount` with `fadeAmount = 50`). */
  const TRANSITION_SCALE: byte := 205

  /** `if (beatDetect()) beatBoost = 80; if (beatBoost > 0) beatBoost -= 3;`
      on a byte: the boost falls by 3 per call and underflows from 2 to 255. */
  function NextBoost(boost: byte, beat: bool): (r: byte)
    ensures beat ==> r == 77
    ensures !beat && boost >= 3 ==> r == boost - 3
    ensures !beat && boost == 0 ==> r == 0
    ensures !beat && 0 < boost < 3 ==> r == boost + 253
  {
    var b := if beat then BEAT_BOOST else boost;
    if b > 0 then Wrap8(b - 3) else b
  }

  /** The boost after n calls without a beat. */
  function BoostAfter(boost: byte, n: nat): byte
    decreases n
  {
    if n == 0 then boost else BoostAfter(NextBoost(boost, false), n - 1)
  }

  lemma {:induction false} BoostAfterSplit(boost: byte, m: nat, n: nat)
    ensures BoostAfter(boost, m + n) == BoostAfter(BoostAfter(boost, m), n)
    decreases m
  {
    if m > 0 {
      BoostAfterSplit(NextBoost(boost, false), m - 1, n);
    }
  }

  /** While it lasts, the boost counts down by exactly 3 per call. */
  lemma {:induction false} BoostCountdown(boost: byte, n: nat)
    requires 3 * n <= boost
    ensures BoostAfter(boost, n) == boost - 3 * n
  {
    if n > 0 {
      BoostCountdown(NextBoost(boost, false), n - 1);
    }
  }

  /** The boost set by a beat steps 77, 74, ... down to 2 over 26 calls, then
      underflows to 255 and only reaches 0 after 85 further calls. */
  lemma BoostUnderflow()
    ensures BoostAfter(77, 25) == 2
    ensures BoostAfter(77, 26) == 255
    ensures BoostAfter(77, 26 + 85) == 0
  {
    BoostCountdown(77, 25);
    BoostAfterSplit(77, 25, 1);
    BoostAfterSplit(77, 26, 85);
    BoostCountdown(255, 85);
  }

  /** `byte baseBrightness = map(smoothedIntensity, 0, 400, 0, 200)` capped at 200. */
  function BaseBrightness(smoothed: int): (r: byte)
    ensures r <= 200
    ensures 0 <= smoothed <= 401 ==> r == smoothed / 2
    ensures 402 <= smoothed <= 511 ==> r == 200
  {
    var b := Wrap8(ArduinoMap(smoothed, 0, 400, 0, 200));
    if b > 200 then 200 else b
  }

  /** From an intensity of 512 the mapped value passes 255 and wraps in the
      byte, so loud audio darkens the base: 512 gives 0 and 700 gives 94. */
  lemma BaseBrightnessWrapsForLoud()
    ensures BaseBrightness(512) == 0 && BaseBrightness(700) == 94 && BaseBrightness(511) == 200
  {
  }

  /** `byte totalBrightness = baseBrightness + beatBoost`: the sum wraps in the
      byte, so the following `> 255` clamp never acts. */
  function TotalBrightness(base: byte, boost: byte): (r: byte)
    ensures base + boost < 256 ==> r == base + boost
    ensures base + boost >= 256 ==> r == base + boost - 256
  {
    var t: int := Wrap8(base + boost);
    var clamped := if t > 255 then 255 else t;
    clamped
  }

  /** Colour progression by smoothed intensity: off, dark red, red, crimson. */
  function RingColour(smoothed: int, total: byte): (r: Colour)
    ensures smoothed < 30 ==> r == Black
    ensures r.g == 0 && r.r <= total && r.b <= r.r / 8
    ensures 30 <= smoothed < 200 ==> r.r == total / 2
    ensures smoothed >= 200 ==> r.r == total
    ensures smoothed < 300 ==> r.b == 0
    ensures smoothed >= 300 ==> r.b == total / 8
  {
    if smoothed < 30 then Black
    else if smoothed < 200 then Colour(total / 2, 0, 0)
    else if smoothed < 300 then Colour(total, 0, 0)
    else Colour(total, 0, total / 8)
  }

  /** `targetExpansion = map(smoothedIntensity + beatBoost, 0, 500, 0, 4)`
      stored in a byte and capped at 4. */
  function TargetExpansion(smoothed: int, boost: byte): (r: byte)
    ensures r <= 4
  {
    var t := Wrap8(ArduinoMap(smoothed + boost, 0, 500, 0, 4));
    if t > 4 then 4 else t
  }

  /** Below 500 the target is a quarter step per 125 of intensity; from 500
      until the byte wraps it saturates at 4. */
  lemma TargetExpansionScale(smoothed: int, boost: byte)
    requires 0 <= smoothed + boost < 32000
    ensures smoothed + boost < 500 ==> TargetExpansion(smoothed, boost) == (smoothed + boost) / 125
    ensures smoothed + boost >= 500 ==> TargetExpansion(smoothed, boost) == 4
  {
    var v := smoothed + boost;
    assert ArduinoMap(v, 0, 500, 0, 4) == (v * 4) / 500;
    assert (v * 4) / 500 == v / 125;
  }

  /** At a sum of 32000 the mapped value 256 wraps to 0 in the byte, so the
      loudest input shows no expansion at all. */
  lemma TargetExpansionWraps()
    ensures TargetExpansion(32000, 0) == 0 && TargetExpansion(31999, 0) == 4
  {
  }

  /** The achieved expansion after one call: one ring toward the target, but
      only when more than 50 ms have passed since its last change. */
  function Slew(last: byte, target: byte, elapsed: u32): (r: byte)
    ensures r == last || r == last + 1 || r == last - 1
    ensures r != last <==> target != last && elapsed > SLEW_INTERVAL
    ensures last <= target ==> last <= r <= target
    ensures target <= last ==> target <= r <= last
  {
    if target != last && elapsed > SLEW_INTERVAL then
      (if target > last then last + 1 else last - 1)
    else last
  }

  /** n calls, each more than 50 ms after the previous one, at a fixed target. */
  function SlewAfter(last: byte, target: byte, n: nat): byte
    decreases n
  {
    if n == 0 then last else SlewAfter(Slew(last, target, SLEW_INTERVAL + 1), target, n - 1)
  }

  /** A held target is reached after as many spaced calls as rings separate it. */
  lemma {:induction false} SlewConverges(last: byte, target: byte, n: nat)
    requires n >= Abs(target - last)
    ensures SlewAfter(last, target, n) == target
    decreases n
  {
    if n > 0 {
      SlewConverges(Slew(last, target, SLEW_INTERVAL + 1), target, n - 1);
    }
  }

  /** The carried-over state after one call of `mindAudio`. */
  function ExpansionNext(s: ExpansionState, beat: bool, now: u32, smoothed: int): (r: ExpansionState)
    ensures r.target <= 4
    ensures s.lastExpansion <= 4 ==> r.lastExpansion <= 4
    ensures r.lastExpansion != s.lastExpansion ==> r.lastChange == now && Elapsed(now, s.lastChange) > SLEW_INTERVAL
    ensures r.lastExpansion == s.lastExpansion ==> r.lastChange == s.lastChange
  {
    var boost := NextBoost(s.boost, beat);
    var target := TargetExpansion(smoothed, boost);
    var current := Slew(s.lastExpansion, target, Elapsed(now, s.lastChange));
    ExpansionState(current, if current != s.lastExpansion then now else s.lastChange, target, boost)
  }

  /** Colour used for the rings: scaled by 205 exactly while the achieved
      expansion differs from the target; `scale` stands for `nscale8`. */
  function FadedColour(ring: Colour, current: byte, target: byte, scale: (Colour, byte) -> Colour): (r: Colour)
    ensures current == target ==> r == ring
    ensures current != target ==> r == scale(ring, TRANSITION_SCALE)
  {
    var fadeAmount: byte := if current != target then 50 else 0;
    if fadeAmount > 0 then scale(ring, 255 - fadeAmount) else ring
  }

  /** The four ring blocks of `mindAudio`: ring k is drawn when the expansion is
      at least k, and together they light exactly the growth footprint. */
  method DrawRings(c: Canvas, e: byte, colour: Colour)
    requires c.Valid() && e <= 4
    modifies c.cells
    ensures forall x: nat, y: nat | x < W && y < H ::
      c.At(x, y) == if Footprint(e, x, y) then colour else old(c.At(x, y))
  {
    if e >= 1 {
      c.Set(LeftCentreX, CentreY, colour);
      c.Set(RightCentreX, CentreY, colour);
    }
    assert forall x: nat, y: nat | x < W && y < H ::
      c.At(x, y) == if Footprint(if e >= 1 then 1 else 0, x, y) then colour else old(c.At(x, y));
    if e >= 2 {
      DrawSquares(c, 1, 1, colour);
    }
    assert forall x: nat, y: nat | x < W && y < H ::
      c.At(x, y) == if Footprint(if e >= 2 then 2 else e, x, y) then colour else old(c.At(x, y));
    if e >= 3 {
      DrawSquares(c, 2, 2, colour);
    }
    assert forall x: nat, y: nat | x < W && y < H ::
      c.At(x, y) == if Footprint(if e >= 3 then 3 else e, x, y) then colour else old(c.At(x, y));
    if e >= 4 {
      FillLens(c, 0, 7, LeftCentreX, true, colour);
      FillLens(c, 9, 16, RightCentreX, true, colour);
      forall x: nat, y: nat | x < W && y < H
        ensures Footprint(4, x, y) <==>
          Footprint(3, x, y) || InLensFill(0, 7, LeftCentreX, true, x, y) || InLensFill(9, 16, RightCentreX, true, x, y)
      {
        if OnLens(x, y) { LensExtent(x, y); }
      }
    }
  }

  /** The persistent state of `mindAudio` and its step. */
  class MindAudioEffect {
    var effectInit: bool
    var effectDelay: nat
    var lastExpansion: byte
    var lastExpansionChange: u32
    var targetExpansion: byte
    var beatBoost: byte
    var fadeAmount: byte

    ghost predicate Valid()
      reads this
    {
      lastExpansion <= 4 && targetExpansion <= 4
    }

    function State(): ExpansionState
      reads this
    {
      ExpansionState(lastExpansion, lastExpansionChange, targetExpansion, beatBoost)
    }

    /** The statics at power-on: everything 0. */
    constructor ()
      ensures Valid() && !effectInit
      ensures State() == ExpansionState(0, 0, 0, 0) && fadeAmount == 0
    {
      effectInit := false;
      effectDelay := 0;
      lastExpansion := 0;
      lastExpansionChange := 0;
      targetExpansion := 0;
      beatBoost := 0;
      fadeAmount := 0;
    }

    /** The beat boost: jumps to 80 on a beat, then loses 3 in its byte. */
    method UpdateBoost(beat: bool)
      modifies this`beatBoost
      ensures beatBoost == NextBoost(old(beatBoost), beat)
    {
      if beat {
        beatBoost := BEAT_BOOST;
      }
      if beatBoost > 0 {
        beatBoost := Wrap8(beatBoost - 3);
      }
    }

    /** The achieved expansion moves one ring toward the target when more
        than 50 ms have passed since its last change. */
    method UpdateExpansion(now: u32) returns (currentExpansion: byte)
      modifies this`lastExpansion, this`lastExpansionChange
      ensures currentExpansion == lastExpansion
      ensures lastExpansion == Slew(old(lastExpansion), targetExpansion, Elapsed(now, old(lastExpansionChange)))
      ensures lastExpansionChange == if lastExpansion != old(lastExpansion) then now else old(lastExpansionChange)
    {
      currentExpansion := lastExpansion;
      if targetExpansion != lastExpansion {
        if Elapsed(now, lastExpansionChange) > SLEW_INTERVAL {
          if targetExpansion > lastExpansion {
            currentExpansion := lastExpansion + 1;
          } else {
            currentExpansion := lastExpansion - 1;
          }
          lastExpansion := currentExpansion;
          lastExpansionChange := now;
        }
      }
    }

    /** One call of `mindAudio`: clear, update boost, target and achieved
        expansion, then draw every ring up to the achieved expansion. */
    method Step(c: Canvas, beat: bool, now: u32, smoothed: int, scale: (Colour, byte) -> Colour)
      requires Valid() && c.Valid()
      modifies this, c.cells
      ensures Valid() && effectInit
      ensures effectDelay == if old(effectInit) then old(effectDelay) else 20
      ensures State() == ExpansionNext(old(State()), beat, now, smoothed)
      ensures fadeAmount == if lastExpansion != targetExpansion then 48 else 0
      ensures forall x: nat, y: nat | x < W && y < H ::
        c.At(x, y) ==
          if Footprint(lastExpansion, x, y)
          then FadedColour(RingColour(smoothed, TotalBrightness(BaseBrightness(smoothed), beatBoost)),
                           lastExpansion, targetExpansion, scale)
          else Black
    {
      if !effectInit {
        effectInit := true;
        effectDelay := 20;
      }

      UpdateBoost(beat);

      var baseBrightness := BaseBrightness(smoothed);
      var totalBrightness := TotalBrightness(baseBrightness, beatBoost);
      var ringColour := RingColour(smoothed, totalBrightness);

      targetExpansion := TargetExpansion(smoothed, beatBoost);

      var currentExpansion := UpdateExpansion(now);

      if currentExpansion != targetExpansion {
        fadeAmount := 50;
      } else {
        fadeAmount := 0;
      }

      var fadedColour := ringColour;
      if fadeAmount > 0 {
        fadedColour := scale(fadedColour, 255 - fadeAmount);
        fadeAmount := fadeAmount - 2;
      }

      // `FastLED.clear()` runs at the top of the C function; nothing before
      // the ring blocks reads the canvas, so it is done here.
      c.Clear();
      DrawRings(c, currentExpansion, fadedColour);
    }
  }
}
