/*
 * The buzzer sequencer (ProjectSource/BuzzService.c): an ES_BUZZ request
 * picks a pattern (planet and asteroid arpeggios, the black-hole series of
 * arpeggios, the coin tone, the start and end tunes), and each BUZZER_TIMER
 * timeout plays its next tone, counting BuzzCount down until the pattern is
 * over and the buzzer and vibration motor go quiet.
 */
module Buzz {
  import opened Framework

  /**
   * What the service does to its peripherals. Sound is SoundBuzzer: the PWM
   * frequency, duty VOLUME and BUZZER_TIMER armed with the duration (the
   * service's only timer arm); Mute is duty 0; Motor drives VIB_MOTOR.
   */
  datatype BuzzOut = Sound(freq: uint32, duration: uint32) | Mute | Motor(on: bool)

  /** BuzzInterval and BuzzStep (statics the code never changes; BuzzStep is FreqStep here). */
  const BuzzInterval: nat := 15
  const FreqStep := 50

  /** start_tune_frequencies and end_tune_frequencies. */
  const StartTune: seq<uint16> := [1300, 1500, 1800, 2200, 2500, 2200, 1800, 1500]
  const EndTune: seq<uint16> := [2000, 1800, 1600, 1400, 1200, 1500, 1000, 1200, 800, 600, 400, 300, 200]

  /** The pattern kinds BuzzType takes: none, pitch up, pitch down, start tune, end tune. */
  const Quiet: uint8 := 0
  const Up: uint8 := 1
  const Down: uint8 := 2
  const StartTuneType: uint8 := 3
  const EndTuneType: uint8 := 4

  /** The statics that change: BuzzCount, BuzzTime, BuzzType, BuzzFreq, BlackHoleCycle. */
  datatype BuzzVars = BuzzVars(count: uint8, time: uint32, btype: uint8, freq: uint32, cycle: uint8)

  /** The statics as the program starts. */
  const InitialVars := BuzzVars(0, 0, 0, 1000, 0)

  /**
   * Every reachable state: a tune never has more notes left than its table
   * has entries past the one the request played.
   */
  predicate BuzzInv(v: BuzzVars) {
    (v.btype == StartTuneType ==> v.count <= 7) && (v.btype == EndTuneType ==> v.count <= 11)
  }

  /** The duration SoundBuzzer receives: BuzzTime/BuzzInterval in unsigned division. */
  function Duration(time: uint32): (d: uint32)
  {
    time / BuzzInterval
  }

  /** The outcome of one event: the new statics and what was done to the peripherals. */
  datatype BuzzResult = BuzzResult(vars: BuzzVars, outs: seq<BuzzOut>)

  /**
   * The BUZZER_TIMER branch. A tune index before the start of its table is
   * undefined in C and plays 0 here; no state satisfying BuzzInv reaches it
   * (TuneIndices).
   */
  function Tick(v: BuzzVars): (r: BuzzResult)
  {
    if v.count == 0 then
      if v.cycle > 0 then
        var c := v.cycle - 1;
        BuzzResult(v.(cycle := c, btype := c % 2 + 1, count := BuzzInterval, time := 500),
                   [Mute, Motor(false), Motor(true), Sound(v.freq, Duration(500))])
      else BuzzResult(v.(btype := Quiet), [Mute, Motor(false)])
    else if v.btype == Up then
      var f := ToUint32(v.freq + FreqStep);
      BuzzResult(v.(freq := f, count := v.count - 1), [Sound(f, Duration(v.time))])
    else if v.btype == Down then
      var f := ToUint32(v.freq - FreqStep);
      var motor := if v.count % 8 == 0 then [Motor(false)] else if v.count % 8 == 4 then [Motor(true)] else [];
      BuzzResult(v.(freq := f, count := v.count - 1), [Sound(f, Duration(v.time))] + motor)
    else if v.btype == StartTuneType then
      BuzzResult(v.(count := v.count - 1), [Sound(if 8 - v.count >= 0 then StartTune[8 - v.count] else 0, Duration(v.time))])
    else if v.btype == EndTuneType then
      BuzzResult(v.(count := v.count - 1), [Sound(if 13 - v.count >= 0 then EndTune[13 - v.count] else 0, Duration(v.time))])
    else BuzzResult(v, [Mute, Motor(false)])
  }

  /** The ES_BUZZ branch: param 1 planet, 2 asteroid, 3 black hole, 4 coin, 5 start tune, 6 end tune. */
  function Request(v: BuzzVars, param: uint16): (r: BuzzResult) {
    if param == 1 then
      BuzzResult(BuzzVars(BuzzInterval, 500, Up, 1000, 0), [Sound(1000, Duration(500)), Motor(true)])
    else if param == 2 then
      BuzzResult(BuzzVars(BuzzInterval, 500, Down, 800, 0), [Sound(800, Duration(500)), Motor(true)])
    else if param == 3 then
      BuzzResult(BuzzVars(BuzzInterval, 100, 4 % 2 + 1, 600, 4), [Sound(600, Duration(100)), Motor(true)])
    else if param == 4 then
      BuzzResult(v.(time := 200, btype := Quiet, freq := 1200), [Sound(1200, 200), Motor(true)])
    else if param == 5 then
      BuzzResult(v.(time := 1600, btype := StartTuneType, count := 7),
                 [Sound(StartTune[12 - 8], Duration(1600)), Motor(true)])
    else if param == 6 then
      BuzzResult(v.(time := 2400, btype := EndTuneType, count := 11),
                 [Sound(EndTune[13 - 12], Duration(2400)), Motor(true)])
    else BuzzResult(v, [])
  }

  /** RunBuzzService on one event. */
  function BuzzStep(v: BuzzVars, ev: Event): (r: BuzzResult)
  {
    if ev.kind == Timeout then
      if ev.param == BuzzerTimer then Tick(v) else BuzzResult(v, [])
    else if ev.kind == Buzz then Request(v, ev.param)
    else BuzzResult(v, [])
  }

  lemma BuzzStepKeepsInvariant(v: BuzzVars, ev: Event)
    requires BuzzInv(v)
    ensures BuzzInv(BuzzStep(v, ev).vars)
  {
  }

  /**
   * Table indices stay inside the tables: the start tune plays entry 4 at the
   * request and 8 - c for c = 7..1 after it (entries 1..7); the end tune plays
   * entry 1 and then 13 - c for c = 11..1 (entries 2..12).
   */
  lemma TuneIndices(v: BuzzVars)
    requires BuzzInv(v) && v.count > 0
    ensures v.btype == StartTuneType ==> 1 <= 8 - v.count <= 7 && 8 - v.count < |StartTune|
    ensures v.btype == EndTuneType ==> 2 <= 13 - v.count <= 12 && 13 - v.count < |EndTune|
  {
  }

  /** The tones among the outputs, in order: one per SoundBuzzer call, hence one per BUZZER_TIMER arm. */
  function Tones(outs: seq<BuzzOut>): (ts: seq<BuzzOut>)
    ensures |ts| <= |outs| && forall i | 0 <= i < |ts| :: ts[i].Sound?
  {
    if outs == [] then []
    else (if outs[0].Sound? then [outs[0]] else []) + Tones(outs[1..])
  }

  lemma {:induction false} TonesAppend(a: seq<BuzzOut>, b: seq<BuzzOut>)
    ensures Tones(a + b) == Tones(a) + Tones(b)
    decreases |a|
  {
    if a == [] {
      assert a + b == b;
    } else {
      assert (a + b)[0] == a[0] && (a + b)[1..] == a[1..] + b;
      TonesAppend(a[1..], b);
      AppendAssoc(if a[0].Sound? then [a[0]] else [], Tones(a[1..]), Tones(b));
    }
  }

  /**
   * A tick with notes left in a pattern of kind 1 to 4 takes exactly one off
   * BuzzCount and plays exactly one tone; with notes left in a pattern of any
   * other kind it only mutes and stops the motor.
   */
  lemma TickCounts(v: BuzzVars)
    requires BuzzInv(v) && v.count > 0
    ensures var r := Tick(v);
      (1 <= v.btype <= 4 ==> r.vars.count == v.count - 1 && |Tones(r.outs)| == 1) &&
      (!(1 <= v.btype <= 4) ==> r.vars == v && r.outs == [Mute, Motor(false)] && Tones(r.outs) == [])
  {
    var r := Tick(v);
    if 1 <= v.btype <= 4 {
      Silent(r.outs[1..]);
    } else {
      Silent(r.outs);
    }
  }

  /**
   * A tick with no notes and no black-hole cycles left mutes, stops the
   * motor, sets kind 0 and sounds nothing, so it arms no timer and the
   * pattern is over.
   */
  lemma Silence(v: BuzzVars)
    requires v.count == 0 && v.cycle == 0
    ensures var r := Tick(v);
      r.vars == v.(btype := Quiet) && r.outs == [Mute, Motor(false)] && Tones(r.outs) == []
  {
    Silent(Tick(v).outs);
  }

  /**
   * In a pitch-down tick the motor goes off when BuzzCount % 8 is 0, on when
   * it is 4, and is left alone otherwise.
   */
  lemma DownMotor(v: BuzzVars)
    requires BuzzInv(v) && v.count > 0 && v.btype == Down
    ensures var r := Tick(v);
      (v.count % 8 == 0 ==> Motor(false) in r.outs && Motor(true) !in r.outs) &&
      (v.count % 8 == 4 ==> Motor(true) in r.outs && Motor(false) !in r.outs) &&
      (v.count % 8 != 0 && v.count % 8 != 4 ==> forall o | o in r.outs :: !o.Motor?)
  {
  }

  /** BuzzTime after a reload, and the length of every tone at that BuzzTime. */
  const ReloadTime: uint32 := 500
  const ReloadTone: uint32 := 33

  /** The statics after the reload tick of a black hole with c cycles left and frequency f. */
  function Reload(c: uint8, f: uint32): BuzzVars
    requires c > 0
  {
    BuzzVars(BuzzInterval, ReloadTime, (c - 1) % 2 + 1, f, c - 1)
  }

  /**
   * When an arpeggio runs out while black-hole cycles remain, the tick takes
   * one cycle off, picks the direction cycle % 2 + 1, reloads 15 notes of
   * BuzzTime 500, restarts the motor and sounds the current frequency.
   */
  lemma BlackHoleReload(v: BuzzVars)
    requires v.count == 0 && v.cycle > 0
    ensures var r := Tick(v);
      r.vars == Reload(v.cycle, v.freq) &&
      r.outs == [Mute, Motor(false), Motor(true), Sound(v.freq, ReloadTone)] &&
      Tones(r.outs) == [Sound(v.freq, ReloadTone)]
  {
    var o := Tick(v).outs;
    assert o == [Mute, Motor(false), Motor(true)] + [Sound(v.freq, 33)];
    TonesAppend([Mute, Motor(false), Motor(true)], [Sound(v.freq, 33)]);
    Silent([Mute, Motor(false), Motor(true)]);
  }

  /** The coin tone: 1200 Hz for 200 ticks, kind 0, and BuzzCount left as it was. */
  lemma CoinTone(v: BuzzVars)
    ensures var r := Request(v, 4);
      r.outs == [Sound(1200, 200), Motor(true)] && r.vars.btype == Quiet && r.vars.count == v.count
  {
  }

  /*------------------------------- event runs --------------------------------*/

  /** RunBuzzService on each event in turn. */
  function Steps(v: BuzzVars, evs: seq<Event>): (r: BuzzResult)
    requires BuzzInv(v)
    ensures BuzzInv(r.vars)
    decreases |evs|
  {
    if evs == [] then BuzzResult(v, [])
    else
      var a := BuzzStep(v, evs[0]);
      BuzzStepKeepsInvariant(v, evs[0]);
      var b := Steps(a.vars, evs[1..]);
      BuzzResult(b.vars, a.outs + b.outs)
  }

  /** n BUZZER_TIMER timeouts. */
  function Ticks(n: nat): (evs: seq<Event>)
    ensures |evs| == n
  {
    if n == 0 then [] else [WithParam(Timeout, BuzzerTimer)] + Ticks(n - 1)
  }

  /** The first event of a run, then the rest from where it left off. */
  lemma StepsCons(v: BuzzVars, ev: Event, evs: seq<Event>)
    requires BuzzInv(v)
    ensures var a := BuzzStep(v, ev);
      BuzzInv(a.vars) &&
      Steps(v, [ev] + evs) == BuzzResult(Steps(a.vars, evs).vars, a.outs + Steps(a.vars, evs).outs)
  {
    BuzzStepKeepsInvariant(v, ev);
    assert ([ev] + evs)[0] == ev && ([ev] + evs)[1..] == evs;
  }

  /** The BUZZER_TIMER branch n times in a row. */
  function Run(v: BuzzVars, n: nat): BuzzResult
    decreases n
  {
    if n == 0 then BuzzResult(v, [])
    else
      var a := Tick(v);
      var b := Run(a.vars, n - 1);
      BuzzResult(b.vars, a.outs + b.outs)
  }

  /** n timeout events of BUZZER_TIMER are n ticks. */
  lemma {:induction false} TicksRun(v: BuzzVars, n: nat)
    requires BuzzInv(v)
    ensures Steps(v, Ticks(n)) == Run(v, n)
    decreases n
  {
    if n > 0 {
      StepsCons(v, WithParam(Timeout, BuzzerTimer), Ticks(n - 1));
      TicksRun(Tick(v).vars, n - 1);
    }
  }

  /** n = a + b ticks are a ticks, then b ticks from where they left off. */
  lemma {:induction false} RunThen(v: BuzzVars, a: nat, b: nat, n: nat)
    requires n == a + b
    ensures var x := Run(v, a);
      Run(v, n) == BuzzResult(Run(x.vars, b).vars, x.outs + Run(x.vars, b).outs)
    decreases a
  {
    if a > 0 {
      var t := Tick(v);
      RunThen(t.vars, a - 1, b, n - 1);
      var x := Run(t.vars, a - 1);
      AppendAssoc(t.outs, x.outs, Run(x.vars, b).outs);
    }
  }

  /** One tick. */
  lemma RunOne(v: BuzzVars)
    ensures Run(v, 1) == Tick(v)
  {
    assert Tick(v).outs + [] == Tick(v).outs;
  }

  /** One arpeggio step: BuzzFreq plus or minus BuzzStep, in unsigned 32-bit arithmetic. */
  function SlideOnce(f: uint32, dir: uint8): uint32 {
    if dir == Up then ToUint32(f + FreqStep) else ToUint32(f - FreqStep)
  }

  /** The frequency after n arpeggio steps of the given direction. */
  function Slide(f: uint32, dir: uint8, n: nat): uint32
    decreases n
  {
    if n == 0 then f else Slide(SlideOnce(f, dir), dir, n - 1)
  }

  /** Without wrap-around, n steps move the frequency by exactly n * BuzzStep. */
  lemma {:induction false} SlideExact(f: uint32, dir: uint8, n: nat)
    requires dir == Up ==> f + FreqStep * n < 0x1_0000_0000
    requires dir != Up ==> FreqStep * n <= f
    ensures dir == Up ==> Slide(f, dir, n) == f + FreqStep * n
    ensures dir != Up ==> Slide(f, dir, n) == f - FreqStep * n
    decreases n
  {
    if n > 0 {
      SlideExact(SlideOnce(f, dir), dir, n - 1);
    }
  }

  /** The tones of n arpeggio steps from frequency f, each one step past the one before. */
  function Ramp(f: uint32, dir: uint8, n: nat, d: uint32): (ts: seq<BuzzOut>)
    ensures |ts| == n
    decreases n
  {
    if n == 0 then [] else [Sound(SlideOnce(f, dir), d)] + Ramp(SlideOnce(f, dir), dir, n - 1, d)
  }

  /** Tone i of a ramp is the frequency i + 1 steps along. */
  lemma {:induction false} RampAt(f: uint32, dir: uint8, n: nat, d: uint32, i: nat)
    requires i < n
    ensures Ramp(f, dir, n, d)[i] == Sound(Slide(f, dir, i + 1), d)
    decreases n
  {
    if i > 0 {
      RampAt(SlideOnce(f, dir), dir, n - 1, d, i - 1);
    }
  }

  /** Outputs that sound nothing. */
  lemma {:induction false} Silent(outs: seq<BuzzOut>)
    requires forall o | o in outs :: !o.Sound?
    ensures Tones(outs) == []
    decreases |outs|
  {
    if outs != [] {
      assert outs[0] in outs;
      assert forall o | o in outs[1..] :: o in outs;
      Silent(outs[1..]);
    }
  }

  /** The tone of a single tick in the middle of an arpeggio. */
  lemma ArpeggioTick(v: BuzzVars)
    requires (v.btype == Up || v.btype == Down) && v.count > 0
    ensures var a := Tick(v);
      a.vars == v.(count := v.count - 1, freq := SlideOnce(v.freq, v.btype)) &&
      Tones(a.outs) == [Sound(SlideOnce(v.freq, v.btype), Duration(v.time))]
  {
    if v.btype == Up { UpTick(v); } else { DownTick(v); }
  }

  /** A pitch-up tick sounds the next frequency and nothing else. */
  lemma UpTick(v: BuzzVars)
    requires v.btype == Up && v.count > 0
    ensures var a := Tick(v);
      a.vars == v.(count := v.count - 1, freq := SlideOnce(v.freq, v.btype)) &&
      a.outs == [Sound(SlideOnce(v.freq, v.btype), Duration(v.time))]
  {
  }

  /** A pitch-down tick sounds the next frequency; what else it does is to the motor. */
  lemma DownTick(v: BuzzVars)
    requires v.btype == Down && v.count > 0
    ensures var a := Tick(v);
      a.vars == v.(count := v.count - 1, freq := SlideOnce(v.freq, v.btype)) &&
      Tones(a.outs) == [Sound(SlideOnce(v.freq, v.btype), Duration(v.time))]
  {
    var a := Tick(v);
    Silent(a.outs[1..]);
  }

  /**
   * n ticks of an arpeggio with at least n notes left: the count drops by n,
   * the frequency slides n steps, and the tones are the ramp.
   */
  lemma {:induction false} Arpeggio(v: BuzzVars, n: nat)
    requires (v.btype == Up || v.btype == Down) && n <= v.count
    ensures var r := Run(v, n);
      r.vars == v.(count := v.count - n, freq := Slide(v.freq, v.btype, n)) &&
      Tones(r.outs) == Ramp(v.freq, v.btype, n, Duration(v.time))
    decreases n
  {
    if n > 0 {
      ArpeggioTick(v);
      var a := Tick(v);
      Arpeggio(a.vars, n - 1);
      TonesAppend(a.outs, Run(a.vars, n - 1).outs);
    }
  }

  /**
   * A whole arpeggio, including the tick after its last note: what that
   * tick does depends on the black-hole cycles left.
   */
  lemma ArpeggioEnd(v: BuzzVars)
    requires v.btype == Up || v.btype == Down
    ensures var w := v.(count := 0, freq := Slide(v.freq, v.btype, v.count));
      var r := Run(v, v.count + 1);
      r.vars == Tick(w).vars &&
      Tones(r.outs) == Ramp(v.freq, v.btype, v.count, Duration(v.time)) + Tones(Tick(w).outs)
  {
    RunThen(v, v.count, 1, v.count + 1);
    Arpeggio(v, v.count);
    var x := Run(v, v.count);
    RunOne(x.vars);
    TonesAppend(x.outs, Tick(x.vars).outs);
  }

  /** An arpeggio that ends the pattern: no cycles left, so the last tick mutes. */
  lemma FinalArpeggio(v: BuzzVars)
    requires (v.btype == Up || v.btype == Down) && v.cycle == 0
    ensures var r := Run(v, v.count + 1);
      r.vars == v.(count := 0, freq := Slide(v.freq, v.btype, v.count), btype := Quiet) &&
      Tones(r.outs) == Ramp(v.freq, v.btype, v.count, Duration(v.time))
  {
    ArpeggioEnd(v);
    Silence(v.(count := 0, freq := Slide(v.freq, v.btype, v.count)));
  }

  /** An arpeggio of a black hole with cycles left: the last tick starts the next one. */
  lemma CycleArpeggio(v: BuzzVars)
    requires (v.btype == Up || v.btype == Down) && v.cycle > 0
    ensures var f := Slide(v.freq, v.btype, v.count);
      var r := Run(v, v.count + 1);
      r.vars == Reload(v.cycle, f) &&
      Tones(r.outs) == Ramp(v.freq, v.btype, v.count, Duration(v.time)) + [Sound(f, ReloadTone)]
  {
    ArpeggioEnd(v);
    var w := v.(count := 0, freq := Slide(v.freq, v.btype, v.count));
    BlackHoleReload(w);
  }

  /** An ES_BUZZ request with the given parameter, then n BUZZER_TIMER ticks. */
  function Play(v: BuzzVars, param: uint16, n: nat): BuzzResult {
    var a := Request(v, param);
    var r := Run(a.vars, n);
    BuzzResult(r.vars, a.outs + r.outs)
  }

  /** The events of a request and n timeouts do what Play says. */
  lemma PlayEvents(v: BuzzVars, param: uint16, n: nat)
    requires BuzzInv(v)
    ensures Steps(v, [WithParam(Buzz, param)] + Ticks(n)) == Play(v, param, n)
  {
    StepsCons(v, WithParam(Buzz, param), Ticks(n));
    TicksRun(Request(v, param).vars, n);
  }

  /** The tones of a play: the request's one tone, then those of the ticks. */
  lemma PlayTones(v: BuzzVars, param: uint16, n: nat)
    requires 1 <= param <= 6
    ensures var a := Request(v, param);
      Tones(Play(v, param, n).outs) == [a.outs[0]] + Tones(Run(a.vars, n).outs)
  {
    var a := Request(v, param);
    RequestTone(v, param);
    TonesAppend(a.outs, Run(a.vars, n).outs);
  }

  /** Every request sounds exactly one tone, its first output. */
  lemma RequestTone(v: BuzzVars, param: uint16)
    requires 1 <= param <= 6
    ensures var a := Request(v, param); a.outs != [] && a.outs[0].Sound? && Tones(a.outs) == [a.outs[0]]
  {
    var a := Request(v, param);
    Silent(a.outs[1..]);
  }

  /**
   * A planet hit: the request sounds 1000 Hz, 15 ticks climb in steps of 50
   * to 1750, and the 16th tick mutes, stops the motor and sets kind 0.
   */
  lemma PlanetPattern(v: BuzzVars)
    ensures var r := Play(v, 1, BuzzInterval + 1);
      r.vars == BuzzVars(0, 500, Quiet, 1750, 0) &&
      Tones(r.outs) == [Sound(1000, 33)] + Ramp(1000, Up, BuzzInterval, 33)
  {
    PlayTones(v, 1, BuzzInterval + 1);
    FinalArpeggio(Request(v, 1).vars);
    SlideExact(1000, Up, BuzzInterval);
  }

  /**
   * An asteroid hit: the request sounds 800 Hz, 15 ticks descend in steps of
   * 50 to 50, and the 16th tick mutes, stops the motor and sets kind 0.
   */
  lemma AsteroidPattern(v: BuzzVars)
    ensures var r := Play(v, 2, BuzzInterval + 1);
      r.vars == BuzzVars(0, 500, Quiet, 50, 0) &&
      Tones(r.outs) == [Sound(800, 33)] + Ramp(800, Down, BuzzInterval, 33)
  {
    PlayTones(v, 2, BuzzInterval + 1);
    FinalArpeggio(Request(v, 2).vars);
    SlideExact(800, Down, BuzzInterval);
  }

  /** The other direction. */
  function Flip(dir: uint8): uint8 {
    if dir == Up then Down else Up
  }

  /**
   * The tones of a black-hole series from an arpeggio of direction dir at
   * frequency f with c cycles left after it: the arpeggio's 15 steps, then,
   * while cycles remain, the reload tone at the frequency reached and the
   * series in the other direction (all later arpeggios at BuzzTime 500).
   */
  function Series(f: uint32, dir: uint8, c: uint8, d: uint32): seq<BuzzOut>
    decreases c
  {
    var g := Slide(f, dir, BuzzInterval);
    Ramp(f, dir, BuzzInterval, d) + (if c == 0 then [] else [Sound(g, ReloadTone)] + Series(g, Flip(dir), c - 1, ReloadTone))
  }

  /** The frequency a black-hole series ends on. */
  function SeriesEnd(f: uint32, dir: uint8, c: uint8): uint32
    decreases c
  {
    var g := Slide(f, dir, BuzzInterval);
    if c == 0 then g else SeriesEnd(g, Flip(dir), c - 1)
  }

  /** The statics once a black-hole series is over, at frequency f. */
  function SeriesDone(time: uint32, f: uint32): BuzzVars {
    BuzzVars(0, time, Quiet, f, 0)
  }

  /**
   * From the start of an arpeggio of a black hole, whose direction is
   * BlackHoleCycle % 2 + 1, the remaining 16 * (cycles + 1) ticks play the
   * series and end quiet with no cycles left.
   */
  lemma {:induction false} SeriesRun(v: BuzzVars)
    requires v.count == BuzzInterval && v.btype == v.cycle % 2 + 1
    ensures var r := Run(v, 16 * (v.cycle + 1));
      r.vars == SeriesDone(if v.cycle == 0 then v.time else ReloadTime, SeriesEnd(v.freq, v.btype, v.cycle)) &&
      Tones(r.outs) == Series(v.freq, v.btype, v.cycle, Duration(v.time))
    decreases v.cycle
  {
    Alternate(v.cycle);
    if v.cycle == 0 {
      FinalArpeggio(v);
      assert 16 * (v.cycle + 1) == v.count + 1;
      var ramp := Ramp(v.freq, v.btype, BuzzInterval, Duration(v.time));
      assert Series(v.freq, v.btype, 0, Duration(v.time)) == ramp + [] == ramp;
    } else {
      var w := Reload(v.cycle, Slide(v.freq, v.btype, BuzzInterval));
      SeriesRun(w);
      SeriesNextVars(v, w);
      SeriesNextTones(v, w);
    }
  }

  /** Taking a cycle off flips the direction cycle % 2 + 1. */
  lemma Alternate(c: uint8)
    ensures c % 2 + 1 == Up || c % 2 + 1 == Down
    ensures c > 0 ==> (c - 1) % 2 + 1 == Flip(c % 2 + 1)
  {
  }

  /** The reload that ends an arpeggio of a series with cycles left starts the other direction. */
  lemma ReloadFlips(v: BuzzVars, w: BuzzVars)
    requires v.btype == v.cycle % 2 + 1 && v.cycle > 0
    requires w == Reload(v.cycle, Slide(v.freq, v.btype, BuzzInterval))
    ensures w.freq == Slide(v.freq, v.btype, BuzzInterval) && w.btype == Flip(v.btype) && w.cycle == v.cycle - 1
    ensures SeriesEnd(v.freq, v.btype, v.cycle) == SeriesEnd(w.freq, w.btype, w.cycle)
  {
    Alternate(v.cycle);
  }

  /** The first arpeggio of a series with cycles left ends in the reload to w. */
  lemma FirstCycle(v: BuzzVars, w: BuzzVars)
    requires v.count == BuzzInterval && v.btype == v.cycle % 2 + 1 && v.cycle > 0
    requires w == Reload(v.cycle, Slide(v.freq, v.btype, BuzzInterval))
    ensures Run(v, v.count + 1).vars == w
    ensures Tones(Run(v, v.count + 1).outs) == Ramp(v.freq, v.btype, BuzzInterval, Duration(v.time)) + [Sound(w.freq, ReloadTone)]
  {
    Alternate(v.cycle);
    CycleArpeggio(v);
  }

  /** One arpeggio of a black-hole series with cycles left, then the rest of the series from w: the state. */
  lemma SeriesNextVars(v: BuzzVars, w: BuzzVars)
    requires v.count == BuzzInterval && v.btype == v.cycle % 2 + 1 && v.cycle > 0
    requires w == Reload(v.cycle, Slide(v.freq, v.btype, BuzzInterval))
    requires Run(w, 16 * (w.cycle + 1)).vars == SeriesDone(ReloadTime, SeriesEnd(w.freq, w.btype, w.cycle))
    ensures Run(v, 16 * (v.cycle + 1)).vars == SeriesDone(ReloadTime, SeriesEnd(v.freq, v.btype, v.cycle))
  {
    FirstCycle(v, w);
    ReloadFlips(v, w);
    RunThen(v, v.count + 1, 16 * (w.cycle + 1), 16 * (v.cycle + 1));
  }

  /** One arpeggio of a black-hole series with cycles left, then the rest of the series from w: the tones. */
  lemma SeriesNextTones(v: BuzzVars, w: BuzzVars)
    requires v.count == BuzzInterval && v.btype == v.cycle % 2 + 1 && v.cycle > 0
    requires w == Reload(v.cycle, Slide(v.freq, v.btype, BuzzInterval))
    requires Tones(Run(w, 16 * (w.cycle + 1)).outs) == Series(w.freq, w.btype, w.cycle, ReloadTone)
    ensures Tones(Run(v, 16 * (v.cycle + 1)).outs) == Series(v.freq, v.btype, v.cycle, Duration(v.time))
  {
    var m := 16 * (w.cycle + 1);
    FirstCycle(v, w);
    ReloadFlips(v, w);
    RunThen(v, v.count + 1, m, 16 * (v.cycle + 1));
    SeriesGlue(v.freq, v.btype, v.cycle, Duration(v.time), Run(v, v.count + 1).outs, Run(w, m).outs);
  }

  /** The tones of one arpeggio and its reload, followed by the rest of the series. */
  lemma SeriesGlue(f: uint32, dir: uint8, c: uint8, d: uint32, xs: seq<BuzzOut>, ys: seq<BuzzOut>)
    requires c > 0
    requires Tones(xs) == Ramp(f, dir, BuzzInterval, d) + [Sound(Slide(f, dir, BuzzInterval), ReloadTone)]
    requires Tones(ys) == Series(Slide(f, dir, BuzzInterval), Flip(dir), c - 1, ReloadTone)
    ensures Tones(xs + ys) == Series(f, dir, c, d)
  {
    TonesAppend(xs, ys);
    var g := Slide(f, dir, BuzzInterval);
    AppendAssoc(Ramp(f, dir, BuzzInterval, d), [Sound(g, ReloadTone)], Series(g, Flip(dir), c - 1, ReloadTone));
  }

  /** The ticks of a black-hole series: five arpeggios of 15 notes and the tick after each. */
  const BlackHoleTicks: nat := 16 * 5

  /**
   * A black-hole hit: the request sounds 600 Hz and 80 ticks play the
   * series of five arpeggios from 600 upwards (the first at BuzzTime 100,
   * so each tone lasts 6, the rest lasting 33), ending quiet at 1350 Hz.
   */
  lemma BlackHolePattern(v: BuzzVars)
    ensures var r := Play(v, 3, BlackHoleTicks);
      r.vars == BuzzVars(0, 500, Quiet, 1350, 0) &&
      Tones(r.outs) == [Sound(600, 6)] + Series(600, Up, 4, 6)
  {
    PlayTones(v, 3, BlackHoleTicks);
    SeriesRun(Request(v, 3).vars);
    BlackHoleEnd();
  }

  /** The series from 600 upwards swings between 600 and 1350 and ends at 1350. */
  lemma BlackHoleEnd()
    ensures SeriesEnd(600, Up, 4) == 1350
  {
    SlideExact(600, Up, BuzzInterval);
    SlideExact(1350, Down, BuzzInterval);
  }

  /**
   * The five arpeggios of the black-hole series alternate: up from 600,
   * down from 1350, up, down, up.
   */
  lemma BlackHoleSwings(d: uint32)
    ensures Series(600, Up, 4, d) ==
      Ramp(600, Up, BuzzInterval, d) + ([Sound(1350, 33)] + (Ramp(1350, Down, BuzzInterval, 33) + ([Sound(600, 33)] +
      Series(600, Up, 2, 33))))
    ensures Series(600, Up, 2, 33) ==
      Ramp(600, Up, BuzzInterval, 33) + ([Sound(1350, 33)] + (Ramp(1350, Down, BuzzInterval, 33) + ([Sound(600, 33)] +
      Ramp(600, Up, BuzzInterval, 33))))
  {
    SlideExact(600, Up, BuzzInterval);
    SlideExact(1350, Down, BuzzInterval);
  }

  /*------------------------------- the tunes --------------------------------*/

  /** A tune's table, by pattern kind. */
  function Table(btype: uint8): (t: seq<uint16>)
    requires btype == StartTuneType || btype == EndTuneType
    ensures |t| == if btype == StartTuneType then 8 else 13
  {
    if btype == StartTuneType then StartTune else EndTune
  }

  /** Tones for the given frequencies, each of duration d. */
  function Notes(fs: seq<uint16>, d: uint32): (ts: seq<BuzzOut>)
    ensures |ts| == |fs|
  {
    if fs == [] then [] else [Sound(fs[0], d)] + Notes(fs[1..], d)
  }

  /** Tone i of the notes is entry i of the frequencies. */
  lemma {:induction false} NotesAt(fs: seq<uint16>, d: uint32, i: nat)
    requires i < |fs|
    ensures Notes(fs, d)[i] == Sound(fs[i], d)
    decreases |fs|
  {
    if i > 0 {
      NotesAt(fs[1..], d, i - 1);
    }
  }

  /** The tones of the last c entries of a table, in table order. */
  function Melody(t: seq<uint16>, c: nat, d: uint32): (ts: seq<BuzzOut>)
    requires c <= |t|
    ensures |ts| == c
  {
    if c == 0 then [] else [Sound(t[|t| - c], d)] + Melody(t, c - 1, d)
  }

  /** The melody is the tail of the table, note for note. */
  lemma {:induction false} MelodyNotes(t: seq<uint16>, c: nat, d: uint32)
    requires c <= |t|
    ensures Melody(t, c, d) == Notes(t[|t| - c..], d)
  {
    if c == 0 {
      assert t[|t|..] == [];
    } else {
      var j := |t| - c;
      MelodyNotes(t, c - 1, d);
      assert t[j..][0] == t[j] && t[j..][1..] == t[j + 1..];
      assert Notes(t[j..], d) == [Sound(t[j], d)] + Notes(t[j + 1..], d);
    }
  }

  /** A tune tick takes one note off BuzzCount and changes nothing else. */
  lemma TuneStep(v: BuzzVars)
    requires (v.btype == StartTuneType || v.btype == EndTuneType) && v.count > 0
    ensures Tick(v).vars == v.(count := v.count - 1)
  {
  }

  /** The ticks of a tune count BuzzCount down to 0 and change nothing else. */
  lemma {:induction false} TuneRunVars(v: BuzzVars)
    requires v.btype == StartTuneType || v.btype == EndTuneType
    ensures Run(v, v.count).vars == v.(count := 0)
    decreases v.count
  {
    if v.count > 0 {
      TuneStep(v);
      TuneRunVars(Tick(v).vars);
    }
  }

  /** One tick of a tune plays the table entry BuzzCount places from its end. */
  lemma TuneTick(v: BuzzVars, t: seq<uint16>, d: uint32)
    requires BuzzInv(v) && (v.btype == StartTuneType || v.btype == EndTuneType) && v.count > 0
    requires t == Table(v.btype) && d == Duration(v.time)
    ensures v.count <= |t| && Tones(Tick(v).outs) == [Sound(t[|t| - v.count], d)]
  {
    Silent([]);
  }

  /** The ticks of a tune play its melody: the table t's last BuzzCount entries, each for d. */
  lemma {:induction false} TuneTicks(v: BuzzVars, t: seq<uint16>, d: uint32)
    requires BuzzInv(v) && (v.btype == StartTuneType || v.btype == EndTuneType)
    requires t == Table(v.btype) && d == Duration(v.time)
    ensures v.count <= |t| && Tones(Run(v, v.count).outs) == Melody(t, v.count, d)
    decreases v.count
  {
    if v.count > 0 {
      TuneTick(v, t, d);
      TuneStep(v);
      var a := Tick(v);
      TuneTicks(a.vars, t, d);
      TonesAppend(a.outs, Run(a.vars, v.count - 1).outs);
    }
  }

  /** The ticks of the start tune and of the end tune, the silencing tick included. */
  const StartTuneTicks: nat := 8
  const EndTuneTicks: nat := 12

  /**
   * The start tune: the request sounds entry 4, seven ticks play entries 1 to
   * 7 (each for BuzzTime 1600 / 15 = 106), and with no black-hole cycles
   * pending the 8th tick mutes and sets kind 0.
   */
  lemma StartTunePattern(v: BuzzVars)
    requires v.cycle == 0
    ensures var r := Play(v, 5, StartTuneTicks);
      r.vars == v.(time := 1600, btype := Quiet, count := 0) &&
      Tones(r.outs) == [Sound(2500, 106)] + Notes(StartTune[1..], 106)
  {
    TunePlay(v, 5, StartTuneTicks, StartTune, 106);
    MelodyNotes(StartTune, 7, 106);
  }

  /**
   * The end tune: the request sounds entry 1, eleven ticks play entries 2 to
   * 12 (each for BuzzTime 2400 / 15 = 160), and with no black-hole cycles
   * pending the 12th tick mutes and sets kind 0.
   */
  lemma EndTunePattern(v: BuzzVars)
    requires v.cycle == 0
    ensures var r := Play(v, 6, EndTuneTicks);
      r.vars == v.(time := 2400, btype := Quiet, count := 0) &&
      Tones(r.outs) == [Sound(1800, 160)] + Notes(EndTune[2..], 160)
  {
    TunePlay(v, 6, EndTuneTicks, EndTune, 160);
    MelodyNotes(EndTune, 11, 160);
  }

  /** A tune request and the ticks that play its melody and then silence it. */
  lemma TunePlay(v: BuzzVars, param: uint16, n: nat, t: seq<uint16>, d: uint32)
    requires v.cycle == 0 && (param == 5 || param == 6)
    requires var a := Request(v, param).vars; n == a.count + 1 && t == Table(a.btype) && d == Duration(a.time)
    ensures var a := Request(v, param); var r := Play(v, param, n);
      a.vars.count <= |t| && r.vars == a.vars.(count := 0, btype := Quiet) &&
      Tones(r.outs) == [a.outs[0]] + Melody(t, a.vars.count, d)
  {
    PlayTones(v, param, n);
    TuneEnd(Request(v, param).vars, t, d);
  }

  /** A tune's remaining notes, then the silencing tick. */
  lemma TuneEnd(v: BuzzVars, t: seq<uint16>, d: uint32)
    requires BuzzInv(v) && (v.btype == StartTuneType || v.btype == EndTuneType) && v.cycle == 0
    requires t == Table(v.btype) && d == Duration(v.time)
    ensures var r := Run(v, v.count + 1);
      v.count <= |t| && r.vars == v.(count := 0, btype := Quiet) && Tones(r.outs) == Melody(t, v.count, d)
  {
    TuneRunVars(v);
    TuneTicks(v, t, d);
    Finish(v, v.count);
  }

  /** Once nothing is left to play, one more tick silences the buzzer and sounds nothing. */
  lemma Finish(v: BuzzVars, n: nat)
    requires Run(v, n).vars.count == 0 && Run(v, n).vars.cycle == 0
    ensures var x := Run(v, n);
      Run(v, n + 1).vars == x.vars.(btype := Quiet) && Tones(Run(v, n + 1).outs) == Tones(x.outs)
  {
    RunThen(v, n, 1, n + 1);
    var x := Run(v, n);
    RunOne(x.vars);
    Silence(x.vars);
    TonesAppend(x.outs, Tick(x.vars).outs);
    assert Tones(x.outs) + [] == Tones(x.outs);
  }

  /*------------------------------- the service --------------------------------*/

  /** The buzzer service: its statics and a log of what it did to the PWM channel and motor pin. */
  class Service {
    const priority: uint8
    var count: uint8
    var time: uint32
    var btype: uint8
    var freq: uint32
    var cycle: uint8
    var outs: seq<BuzzOut>
    var posted: seq<Action>

    ghost predicate Valid()
      reads this
    {
      BuzzInv(Vars())
    }

    function Vars(): BuzzVars
      reads this
    {
      BuzzVars(count, time, btype, freq, cycle)
    }

    /** InitBuzzService: duty 0 (silence), and ES_INIT posted to itself. */
    constructor (priority: uint8)
      ensures Valid() && Vars() == InitialVars && this.priority == priority
      ensures outs == [Mute] && posted == [Post(BuzzService, Plain(Init))]
    {
      this.priority := priority;
      count, time, btype, freq, cycle := 0, 0, Quiet, 1000, 0;
      outs := [Mute];
      posted := [Post(BuzzService, Plain(Init))];
    }

    /** SoundBuzzer: set the frequency, duty VOLUME, and arm BUZZER_TIMER. */
    method SoundBuzzer(f: uint32, duration: uint32)
      modifies this`outs
      ensures outs == old(outs) + [Sound(f, duration)]
    {
      outs := outs + [Sound(f, duration)];
    }

    /** RunBuzzService. */
    method Run(ev: Event)
      requires Valid()
      modifies this
      ensures Valid()
      ensures var r := BuzzStep(old(Vars()), ev);
        Vars() == r.vars && outs == old(outs) + r.outs && posted == old(posted)
    {
      BuzzStepKeepsInvariant(Vars(), ev);
      if ev.kind == Timeout {
        if ev.param == BuzzerTimer {
          RunTick();
        }
      } else if ev.kind == Buzz {
        RunRequest(ev.param);
      }
    }

    /** The BUZZER_TIMER branch of RunBuzzService. */
    method RunTick()
      requires Valid()
      modifies this
      ensures var r := Tick(old(Vars()));
        Vars() == r.vars && outs == old(outs) + r.outs && posted == old(posted)
    {
      if count == 0 {
        outs := outs + [Mute];
        btype := Quiet;
        outs := outs + [Motor(false)];
        if cycle > 0 {
          cycle := cycle - 1;
          btype := cycle % 2 + 1;
          count := BuzzInterval;
          time := 500;
          outs := outs + [Motor(true)];
          SoundBuzzer(freq, time / BuzzInterval);
        }
      } else if btype == Up {
        freq := ToUint32(freq + FreqStep);
        SoundBuzzer(freq, time / BuzzInterval);
        count := count - 1;
      } else if btype == Down {
        freq := ToUint32(freq - FreqStep);
        SoundBuzzer(freq, time / BuzzInterval);
        if count % 8 == 0 {
          outs := outs + [Motor(false)];
        } else if count % 8 == 4 {
          outs := outs + [Motor(true)];
        }
        count := count - 1;
      } else if btype == StartTuneType {
        SoundBuzzer(StartTune[8 - count], time / BuzzInterval);
        count := count - 1;
      } else if btype == EndTuneType {
        SoundBuzzer(EndTune[13 - count], time / BuzzInterval);
        count := count - 1;
      } else {
        outs := outs + [Mute, Motor(false)];
      }
    }

    /** The ES_BUZZ branch of RunBuzzService. */
    method RunRequest(param: uint16)
      modifies this
      ensures var r := Request(old(Vars()), param);
        Vars() == r.vars && outs == old(outs) + r.outs && posted == old(posted)
    {
      if param == 1 {
        count, time, btype, freq, cycle := BuzzInterval, 500, Up, 1000, 0;
        SoundBuzzer(freq, time / BuzzInterval);
        outs := outs + [Motor(true)];
      } else if param == 2 {
        count, time, btype, freq, cycle := BuzzInterval, 500, Down, 800, 0;
        SoundBuzzer(freq, time / BuzzInterval);
        outs := outs + [Motor(true)];
      } else if param == 3 {
        count, time, freq := BuzzInterval, 100, 600;
        cycle := 4;
        btype := cycle % 2 + 1;
        SoundBuzzer(freq, time / BuzzInterval);
        outs := outs + [Motor(true)];
      } else if param == 4 {
        time, btype, freq := 200, Quiet, 1200;
        SoundBuzzer(freq, time);
        outs := outs + [Motor(true)];
      } else if param == 5 {
        time, btype := 1600, StartTuneType;
        count := 8;
        SoundBuzzer(StartTune[12 - count], time / BuzzInterval);
        count := count - 1;
        outs := outs + [Motor(true)];
      } else if param == 6 {
        time, btype := 2400, EndTuneType;
        count := 12;
        SoundBuzzer(EndTune[13 - count], time / BuzzInterval);
        count := count - 1;
        outs := outs + [Motor(true)];
      }
    }
  }
}
