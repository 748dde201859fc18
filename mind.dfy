/** `mind`: a beat-driven growth effect. A stage 0..4 grows one step on each
    rising beat edge once the hold time has passed, wraps from 4 to 0, falls
    back to 0 after 2000 ms without a change, and is drawn as a square around
    each lens centre. */
module Mind {
  import opened Bytes
  import opened Canvas
  import opened Lenses

  /** The statics of `mind` that the progression logic reads and writes. */
  datatype MindState = MindState(stage: byte, lastChange: u32, holdTime: byte, lastBeat: bool)

  /** Milliseconds without a stage change after which the stage returns to 0. */
  const RESET_TIMEOUT: int := 2000

  /** `growthStage++; if (growthStage > 4) growthStage = 0;` */
  function NextStage(stage: byte): (r: byte)
    ensures r <= 4
    ensures stage < 4 ==> r == stage + 1
    ensures stage == 4 ==> r == 0
  {
    var s := Wrap8(stage + 1);
    if s > 4 then 0 else s
  }

  /** `stageHoldTime = map(bassLevel, 0, 400, 200, 50)`, stored in a byte
      without any clamp. */
  function HoldTime(bass: int): byte
  {
    Wrap8(ArduinoMap(bass, 0, 400, 200, 50))
  }

  /** `byte brightness = map(bassLevel, 0, 400, 50, 255)` followed by its two
      clamps; the byte can never exceed 255, so only the floor of 50 acts. */
  function Brightness(bass: int): (r: byte)
    ensures 50 <= r <= 255
    ensures r == Wrap8(ArduinoMap(bass, 0, 400, 50, 255)) || r == 50
    ensures Wrap8(ArduinoMap(bass, 0, 400, 50, 255)) >= 50 ==> r == Wrap8(ArduinoMap(bass, 0, 400, 50, 255))
    ensures Wrap8(ArduinoMap(bass, 0, 400, 50, 255)) < 50 ==> r == 50
  {
    var b: int := Wrap8(ArduinoMap(bass, 0, 400, 50, 255));
    var b1 := if b > 255 then 255 else b;
    if b1 < 50 then 50 else b1
  }

  /** The colour chosen for a stage before brightness scaling; `bands` is the
      sum of the three bass bands, so `bassLevel > 150` is `bands > 450`;
      `scale` stands for FastLED's `nscale8`. */
  function StageColour(stage: byte, bands: int, scale: (Colour, byte) -> Colour): (r: Colour)
    ensures stage == 0 || stage > 4 ==> r == Black
    ensures 1 <= stage <= 3 ==> r == Crimson || r == Red
    ensures stage == 1 ==> r == Crimson
    ensures stage == 2 ==> (r == Red <==> bands > 450)
    ensures stage == 3 ==> r == Red
    ensures stage == 4 ==> r == scale(Red, 255)
    ensures 1 <= stage <= 3 ==> r != Black && r.r >= 220 && r.g <= 20 && r.b <= 60
  {
    match stage
    case 0 => Black
    case 1 => Crimson
    case 2 => if bands > 3 * 150 then Red else Crimson
    case 3 => Red
    case 4 => scale(Red, 255)
    case _ => Black
  }

  /** Stages 1..3 move from crimson to red: stage 2 shows the colour of
      stage 1 under quiet bass and that of stage 3 under loud bass, and the
      red channel never falls while green and blue never rise. */
  lemma StageProgression(bands: int, scale: (Colour, byte) -> Colour)
    ensures StageColour(2, bands, scale) ==
      if bands > 450 then StageColour(3, bands, scale) else StageColour(1, bands, scale)
    ensures StageColour(1, bands, scale).r <= StageColour(2, bands, scale).r <= StageColour(3, bands, scale).r
    ensures StageColour(3, bands, scale).g <= StageColour(2, bands, scale).g <= StageColour(1, bands, scale).g
    ensures StageColour(3, bands, scale).b <= StageColour(2, bands, scale).b <= StageColour(1, bands, scale).b
  {
  }

  /** A beat counts only on the tick where it turns on. */
  predicate Triggered(s: MindState, beat: bool) {
    beat && !s.lastBeat
  }

  /** The stage advances on a triggered beat once more than the hold time has
      passed since the last change. */
  predicate Advances(s: MindState, beat: bool, now: u32) {
    Triggered(s, beat) && Elapsed(now, s.lastChange) > s.holdTime
  }

  /** The progression part of one call of `mind`. */
  function MindNext(s: MindState, beat: bool, now: u32, bass: int): (r: MindState)
    ensures r.lastBeat == beat
    ensures s.stage <= 4 ==> r.stage <= 4
  {
    var s1 := if Advances(s, beat, now)
              then MindState(NextStage(s.stage), now, HoldTime(bass), beat)
              else s.(lastBeat := beat);
    if Elapsed(now, s1.lastChange) > RESET_TIMEOUT then s1.(stage := 0, lastChange := now) else s1
  }

  /** An admitted beat moves to the next stage (4 wraps to 0), stamps the
      change time and takes a new hold time from the bass level. */
  lemma MindAdvance(s: MindState, beat: bool, now: u32, bass: int)
    requires Advances(s, beat, now)
    ensures MindNext(s, beat, now, bass) == MindState(NextStage(s.stage), now, HoldTime(bass), beat)
  {
    assert Elapsed(now, now) == 0;
  }

  /** Without an admitted beat the stage is kept, unless more than the timeout
      has passed since the last change: then it returns to 0 and the clock of
      the last change restarts. The hold time is untouched either way. */
  lemma MindKeepOrReset(s: MindState, beat: bool, now: u32, bass: int)
    requires !Advances(s, beat, now)
    ensures var r := MindNext(s, beat, now, bass);
      r.holdTime == s.holdTime &&
      (Elapsed(now, s.lastChange) > RESET_TIMEOUT ==> r.stage == 0 && r.lastChange == now) &&
      (Elapsed(now, s.lastChange) <= RESET_TIMEOUT ==> r.stage == s.stage && r.lastChange == s.lastChange)
  {
  }

  /** The stage changes only through an admitted beat or the timeout reset,
      and a reset lands on 0. */
  lemma MindChangeCauses(s: MindState, beat: bool, now: u32, bass: int)
    ensures var r := MindNext(s, beat, now, bass);
      r.stage != s.stage ==>
        Advances(s, beat, now) || (r.stage == 0 && Elapsed(now, s.lastChange) > RESET_TIMEOUT)
  {
    if !Advances(s, beat, now) {
      MindKeepOrReset(s, beat, now, bass);
    }
  }

  /** Edge triggering: while the beat input stays on, a second tick never
      advances the stage, whatever the clock says. */
  lemma MindNoDoubleAdvance(s: MindState, t1: u32, t2: u32, b1: int, b2: int)
    ensures !Advances(MindNext(s, true, t1, b1), true, t2)
  {
  }

  /** A beat that arrives during the hold is dropped, not queued: the stage and
      its time stamp stay, and the still-asserted beat cannot advance the stage
      on the following tick either. */
  lemma MindBeatDuringHoldDropped(s: MindState, now: u32, later: u32, bass: int, bass2: int)
    requires Triggered(s, true) && Elapsed(now, s.lastChange) <= s.holdTime
    ensures var r := MindNext(s, true, now, bass);
      r.stage == s.stage && r.lastChange == s.lastChange && !Advances(r, true, later)
  {
    MindKeepOrReset(s, true, now, bass);
  }

  /** Louder bass shortens the hold, from 200 ms at silence to 50 ms at 400. */
  lemma HoldTimeRange(bass: int, louder: int)
    requires 0 <= bass <= louder <= 400
    ensures 50 <= HoldTime(louder) <= HoldTime(bass) <= 200
  {
    assert ArduinoMap(bass, 0, 400, 200, 50) == 200 - (bass * 150) / 400;
    assert ArduinoMap(louder, 0, 400, 200, 50) == 200 - (louder * 150) / 400;
    assert (bass * 150) / 400 <= (louder * 150) / 400;
  }

  /** Beyond the mapped range the unclamped byte wraps: a bass level of 600
      gives a hold of 231 ms, longer than at silence. */
  lemma HoldTimeWrapsForLoudBass()
    ensures HoldTime(600) == 231 && HoldTime(0) == 200
  {
  }

  /** Over the mapped range the brightness rises linearly from 50 to 255 and
      the floor never acts. */
  lemma BrightnessScale(bass: int)
    requires 0 <= bass <= 400
    ensures Brightness(bass) == 50 + bass * 205 / 400
  {
    assert 0 <= bass * 205 <= 400 * 205;
    assert bass * 205 / 400 <= 205;
  }

  /** Beyond the mapped range the byte wraps again: a bass of 600 is dimmer
      (101) than a bass of 400 (255). */
  lemma BrightnessWrapsForLoudBass()
    ensures Brightness(600) == 101 && Brightness(400) == 255
  {
  }

  /** `FastLED.clear()` followed by the drawing `switch (growthStage)`: the
      lit pixels are exactly the stage footprint. */
  method DrawStage(c: Canvas, stage: byte, colour: Colour)
    requires c.Valid() && stage <= 4
    modifies c.cells
    ensures forall x: nat, y: nat | x < W && y < H ::
      c.At(x, y) == if Footprint(stage, x, y) then colour else Black
  {
    c.Clear();
    match stage
    case 0 =>
    case 1 =>
      c.Set(LeftCentreX, CentreY, colour);
      c.Set(RightCentreX, CentreY, colour);
    case 2 =>
      DrawSquares(c, 1, 0, colour);
    case 3 =>
      DrawSquares(c, 2, 0, colour);
    case 4 =>
      FillLens(c, 0, 7, LeftCentreX, false, colour);
      FillLens(c, 9, 16, RightCentreX, false, colour);
      forall x: nat, y: nat | x < W && y < H
        ensures Footprint(4, x, y) <==> InLensFill(0, 7, LeftCentreX, false, x, y) || InLensFill(9, 16, RightCentreX, false, x, y)
      {
        if OnLens(x, y) { LensExtent(x, y); }
      }
  }

  /** The persistent state of `mind` and its step. */
  class MindEffect {
    var effectInit: bool
    var effectDelay: nat
    var growthStage: byte
    var lastStageChange: u32
    var stageHoldTime: byte
    var lastBeatState: bool

    ghost predicate Valid()
      reads this
    {
      growthStage <= 4
    }

    function State(): MindState
      reads this
    {
      MindState(growthStage, lastStageChange, stageHoldTime, lastBeatState)
    }

    /** The statics at power-on: stage 0, hold 100 ms, no beat seen. */
    constructor ()
      ensures Valid() && !effectInit
      ensures State() == MindState(0, 0, 100, false)
    {
      effectInit := false;
      effectDelay := 0;
      growthStage := 0;
      lastStageChange := 0;
      stageHoldTime := 100;
      lastBeatState := false;
    }

    /** One call of `mind`: the frame shows the footprint of the stage held on
        entry, in its colour scaled by the bass brightness; then the stage
        progresses. `bands` is the sum of the first three band levels; the
        float `bassLevel` is a third of it, and `map` sees its integer part. */
    method Step(c: Canvas, beat: bool, now: u32, bands: nat, scale: (Colour, byte) -> Colour)
      requires Valid() && c.Valid()
      modifies this, c.cells
      ensures Valid() && effectInit
      ensures effectDelay == if old(effectInit) then old(effectDelay) else 25
      ensures State() == MindNext(old(State()), beat, now, bands / 3)
      ensures forall x: nat, y: nat | x < W && y < H ::
        c.At(x, y) ==
          if Footprint(old(growthStage), x, y)
          then scale(StageColour(old(growthStage), bands, scale), Brightness(bands / 3))
          else Black
    {
      var bass := bands / 3;
      if !effectInit {
        effectInit := true;
        effectDelay := 25;
      }

      var currentBeat := beat;
      var beatTriggered := currentBeat && !lastBeatState;
      lastBeatState := currentBeat;

      var stageColour := StageColour(growthStage, bands, scale);
      var brightness := Brightness(bass);
      stageColour := scale(stageColour, brightness);
      DrawStage(c, growthStage, stageColour);

      if beatTriggered && Elapsed(now, lastStageChange) > stageHoldTime {
        growthStage := NextStage(growthStage);
        lastStageChange := now;
        stageHoldTime := HoldTime(bass);
      }

      if Elapsed(now, lastStageChange) > RESET_TIMEOUT {
        growthStage := 0;
        lastStageChange := now;
      }
    }
  }
}
