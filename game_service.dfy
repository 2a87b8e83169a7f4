/*
 * The game orchestrator (ProjectSource/GameService.c): a five-state machine
 * that takes coins, starts a timed game, scores planet, asteroid and black
 * hole hits, re-rolls the target planet, samples the black hole, counts the
 * game down on the LED vector and plays the game-over frames.
 *
 * Each rand() call is an input; a dispatch makes at most one, so each event
 * comes with one random value. The LED vector ShiftRegisterVals is 13
 * entries wide; the shift-register service reads it.
 */
module Game {
  import opened Framework

  /** GameState_t. */
  datatype GameState = Waiting2Coins | Waiting1Coins | Waiting | GameOn | GameOver

  /** Entries of ShiftRegisterVals and the LEDs with a fixed role. */
  const NumLeds := 13
  const BlackHoleLed := 4
  const CoinLed := 5
  const TimingLed := 7

  /** The timer intervals the service arms, in ms. */
  const GameInterval: uint32 := 10000
  const UserInputTimeout: uint32 := 20000
  const AsteroidDelay: uint32 := 1000
  const CoinDelay: uint32 := 300
  const GameOverTime: uint32 := 7000
  const LevelDisplayTime: uint32 := 1500
  const BlackHoleSampleTime: uint32 := 1000
  /** LevelDisplayTime * 1.5, the countdown after a player is too slow with one coin in. */
  const SlowDisplayTime: uint32 := 2250
  /** The delay before leaving Waiting, and before the countdown after the game-over frames. */
  const LeaveDelay: uint32 := 3000
  const RestartDelay: uint32 := 1000
  /** The length of one game-over frame: GameOverTime / 6. */
  const FrameTime: uint32 := 1166

  /** PlanetSwitchTime_MAX and PlanetSwitchTime_MIN. */
  const SwitchTimeMax: uint16 := 5000
  const SwitchTimeMin: uint16 := 1000

  /**
   * The service's statics: NextState, the game variables, PlanetSwitchTime,
   * BlackHoleProb and DifficultyLevel.
   */
  datatype GameVars = GameVars(
    state: GameState, countdown: uint8, target: int8, score: int16,
    blackHole: bool, asteroidTimeout: bool, coinTimeout: bool,
    switchTime: uint32, blackHoleProb: uint8, level: uint8)

  /** The outcome of one event: the new statics, the LED vector and the framework calls, in order. */
  datatype GameResult = GameResult(vars: GameVars, leds: seq<uint8>, actions: seq<Action>)

  /*----------------------------- posts and words -----------------------------*/

  /** UpdateDisplay: ES_NEW_WORD to the LED service, with the display as parameter. */
  function Display(d: uint16, msg: string): Action {
    Post(LedService, Event(NewWord, d, msg))
  }

  /** ES_UPDATE_SHIFT to the shift service, with the service's priority as parameter. */
  function ShiftPost(priority: uint8): Action {
    Post(ShiftService, WithParam(UpdateShift, priority))
  }

  /** ES_BUZZ to the buzzer service with a pattern number. */
  function BuzzPost(pattern: uint16): Action {
    Post(BuzzService, WithParam(Buzz, pattern))
  }

  /** The words of the two waiting screens and the too-slow screen. */
  function TwoCoins(): seq<Action> { [Display(2, "2 CNS"), Display(1, "INSERT")] }
  function OneCoin(): seq<Action> { [Display(2, "1 CN"), Display(1, "INSERT")] }
  function TooSlow(): seq<Action> { [Display(2, "SLOW!"), Display(1, "TOO")] }

  /** A decimal digit. */
  function DigitChar(d: nat): char
    requires d < 10
  {
    ('0' as int + d) as char
  }

  /** sprintf "%d" of a non-negative value: its decimal digits, most significant first. */
  function Digits(n: nat): (s: string)
    ensures |s| >= 1 && forall c | c in s :: '0' <= c <= '9'
    ensures forall i | 0 <= i < |s| :: '0' <= s[i] <= '9'
    decreases n
  {
    if n < 10 then [DigitChar(n)] else Digits(n / 10) + [DigitChar(n % 10)]
  }

  /** sprintf "%d": a minus sign before the digits of a negative value. */
  function Decimal(n: int): (s: string)
    ensures |s| >= 1 && (s[0] == '-' <==> n < 0)
    ensures forall i | (if n < 0 then 1 else 0) <= i < |s| :: '0' <= s[i] <= '9'
    ensures n < 0 ==> |s| >= 2
  {
    if n < 0 then "-" + Digits(-n) else Digits(n)
  }

  /** The value of a string of decimal digits, read left to right. */
  function DigitsValue(s: string): int
    decreases |s|
  {
    if s == [] then 0 else DigitsValue(s[..|s| - 1]) * 10 + (s[|s| - 1] as int - '0' as int)
  }

  /** The value of a decimal word with an optional minus sign. */
  function ParseDecimal(s: string): int {
    if |s| > 0 && s[0] == '-' then -DigitsValue(s[1..]) else DigitsValue(s)
  }

  lemma {:induction false} DigitsRoundTrip(n: nat)
    ensures DigitsValue(Digits(n)) == n
    decreases n
  {
    if n >= 10 {
      var s := Digits(n / 10) + [DigitChar(n % 10)];
      assert s[..|s| - 1] == Digits(n / 10);
      DigitsRoundTrip(n / 10);
    }
  }

  /** The score and level words read back as the numbers they were written from. */
  lemma DecimalRoundTrip(n: int)
    ensures ParseDecimal(Decimal(n)) == n
  {
    if n < 0 {
      assert Decimal(n)[1..] == Digits(-n);
      DigitsRoundTrip(-n);
    } else {
      assert Digits(n)[0] in Digits(n);
      DigitsRoundTrip(n);
    }
  }

  /*------------------------------ the LED vector ------------------------------*/

  /** The memcpy sources: all off, the start of a game, and the two game-over frames. */
  const Zeros: seq<uint8> := [0, 0, 0, 0, 0, 0, 0, 0, 0, 0, 0, 0, 0]
  const StartLeds: seq<uint8> := [0, 0, 0, 0, 0, 1, 1, 1, 1, 1, 1, 1, 1]
  const OddFrame: seq<uint8> := [1, 0, 1, 0, 1, 0, 1, 0, 1, 0, 1, 0, 1]
  const EvenFrame: seq<uint8> := [0, 1, 0, 1, 0, 1, 0, 1, 0, 1, 0, 1, 0]

  /**
   * The vectors in words: no LED lit; planets and black hole off with the
   * coin LED and the seven timing LEDs 6..12 lit; the even entries lit; the
   * odd entries lit.
   */
  lemma LedPatterns()
    ensures |Zeros| == |StartLeds| == |OddFrame| == |EvenFrame| == NumLeds
    ensures forall i | 0 <= i < NumLeds :: Zeros[i] == 0
    ensures forall i | 0 <= i < NumLeds :: StartLeds[i] == (if i >= CoinLed then 1 else 0)
    ensures forall i | 0 <= i < NumLeds :: OddFrame[i] == (if i % 2 == 0 then 1 else 0)
    ensures forall i | 0 <= i < NumLeds :: EvenFrame[i] == 1 - OddFrame[i]
  {
  }

  /*------------------------------- GetNewPlanet -------------------------------*/

  /**
   * The planet GetNewPlanet picks with random value rnd: any of 0..3 from no
   * target, otherwise one of the three others (rand() % 3, moved up by one
   * from the current target on).
   */
  function NewPlanet(t: int8, rnd: nat): (p: int8)
    requires -1 <= t <= 3
    ensures 0 <= p <= 3 && (t != -1 ==> p != t)
  {
    if t == -1 then rnd % 4
    else
      var r := rnd % 3;
      if r >= t then r + 1 else r
  }

  /** Every planet the ensures of NewPlanet allows is the pick for some random value. */
  lemma NewPlanetReaches(t: int8, p: int8)
    requires -1 <= t <= 3 && 0 <= p <= 3 && p != t
    ensures exists rnd: nat :: NewPlanet(t, rnd) == p
  {
    var rnd: nat := if t == -1 || p < t then p else p - 1;
    assert NewPlanet(t, rnd) == p;
  }

  /** GetNewPlanet: the old target's LED off, the new one's on, ES_UPDATE_SHIFT posted. */
  function NewTarget(v: GameVars, leds: seq<uint8>, priority: uint8, rnd: nat): (r: GameResult)
    requires -1 <= v.target <= 3 && |leds| == NumLeds
  {
    var p := NewPlanet(v.target, rnd);
    var cleared := if v.target == -1 then leds else leds[v.target := 0];
    GameResult(v.(target := p), cleared[p := 1], [ShiftPost(priority)])
  }

  /**
   * GetNewPlanet changes the target to a new planet, lights its LED, puts
   * out the old target's LED and leaves every other entry as it was.
   */
  lemma NewTargetLeds(v: GameVars, leds: seq<uint8>, priority: uint8, rnd: nat)
    requires -1 <= v.target <= 3 && |leds| == NumLeds
    ensures var r := NewTarget(v, leds, priority, rnd); var p := r.vars.target;
      r.vars == v.(target := p) && 0 <= p <= 3 && p != v.target &&
      |r.leds| == NumLeds && r.leds[p] == 1 && (v.target != -1 ==> r.leds[v.target] == 0) &&
      (forall i | 0 <= i < NumLeds && i != p && i != v.target :: r.leds[i] == leds[i]) &&
      r.actions == [ShiftPost(priority)]
  {
  }

  /*------------------------- UpdateScore, GetDifficulty -------------------------*/

  /** UpdateScore: the delta added in int16 arithmetic (the Score < 0 branch changes nothing). */
  function UpdateScore(v: GameVars, delta: int16): GameVars {
    v.(score := ToInt16(v.score + delta))
  }

  /** The display of the score UpdateScore posts. */
  function ShowScore(v: GameVars): Action {
    Display(1, Decimal(v.score))
  }

  /** No clamping: a score that stays in range moves by exactly the delta, negative or not. */
  lemma ScoreDelta(v: GameVars, delta: int16)
    requires -0x8000 <= v.score + delta < 0x8000
    ensures UpdateScore(v, delta).score == v.score + delta
    ensures UpdateScore(v, delta) == v.(score := v.score + delta)
  {
  }

  /** PlanetSwitchTime = MIN + (MAX - MIN) * (1 - Level / 100), in int arithmetic stored in a uint32. */
  function SwitchTime(level: uint8): uint32 {
    ToUint32(SwitchTimeMin + (SwitchTimeMax - SwitchTimeMin) * (1 - level / 100))
  }

  /** GetDifficulty: the switch time and the black-hole probability for a level. */
  function GetDifficulty(v: GameVars, level: uint8): GameVars {
    v.(switchTime := SwitchTime(level), blackHoleProb := level)
  }

  /**
   * Integer division makes the switch time a step, not a ramp: the maximum
   * 5000 for levels 0..99, the minimum 1000 for 100..199, and a wrapped
   * 2^32 - 3000 beyond. BlackHoleProb is the level itself.
   */
  lemma DifficultyLevels(v: GameVars, level: uint8)
    ensures var w := GetDifficulty(v, level);
      w.blackHoleProb == level &&
      (level < 100 ==> w.switchTime == SwitchTimeMax) &&
      (100 <= level < 200 ==> w.switchTime == SwitchTimeMin) &&
      (200 <= level ==> w.switchTime == 0x1_0000_0000 - 3000)
  {
  }

  /*------------------------------ InitGameService ------------------------------*/

  /** The level of the reading at start-up, which the code inverts: PotLevel of 1023 - reading. */
  function InitLevel(reading: uint32): (l: uint8)
    ensures 1 <= l <= 100
  {
    PotLevel(ToUint32(1023 - reading))
  }

  /** The statics after InitGameService: the game variables reset and Waiting2Coins next. */
  function InitVars(reading: uint32): GameVars {
    var l := InitLevel(reading);
    GameVars(Waiting2Coins, 6, -1, 0, false, false, false, SwitchTime(l), l, 0)
  }

  /**
   * A reading of 0..1023 gives level 100 at 0 and 1 at 1023, and a higher
   * reading never gives a higher level.
   */
  lemma InitLevelInverted(x: uint32, y: uint32)
    requires x <= y <= 1023
    ensures InitLevel(0) == 100 && InitLevel(1023) == 1 && InitLevel(y) <= InitLevel(x)
  {
    assert ToUint32(1023 - x) == 1023 - x && ToUint32(1023 - y) == 1023 - y;
    PotLevelMonotone(1023 - y, 1023 - x);
    PotLevelScale(0);
  }

  /*------------------------------- Waiting2Coins -------------------------------*/

  /** What every event in Waiting2Coins resets first. */
  function Reset(v: GameVars): GameVars {
    v.(score := 0, blackHole := false, asteroidTimeout := false, coinTimeout := false, countdown := 6, target := -1)
  }

  /** ES_NEW_POT in the waiting states: the level shown and applied, the countdown and input timers restarted. */
  function NewLevel(v: GameVars, leds: seq<uint8>, param: uint16): GameResult {
    var l := ToUint8(param);
    GameResult(GetDifficulty(v.(level := l), l), leds,
      [Display(2, Decimal(l)), Display(1, "LEVEL"),
       InitTimer(CountdownTimer, LevelDisplayTime), InitTimer(UserInputTimer, UserInputTimeout)])
  }

  /** The Waiting2Coins branch. */
  function Waiting2CoinsStep(v: GameVars, leds: seq<uint8>, priority: uint8, ev: Event): GameResult
    requires |leds| == NumLeds
  {
    var w := Reset(v);
    if ev.kind == Init then GameResult(w, leds, TwoCoins())
    else if ev.kind == Timeout then
      if ev.param == CountdownTimer then GameResult(w, Zeros, TwoCoins() + [ShiftPost(priority)])
      else GameResult(w, leds, [])
    else if ev.kind == CoinInsert then
      GameResult(w.(coinTimeout := true, state := Waiting1Coins), leds[CoinLed := 1],
        OneCoin() + [BuzzPost(4), ShiftPost(priority),
                     InitTimer(CoinDelayTimer, CoinDelay), InitTimer(UserInputTimer, UserInputTimeout)])
    else if ev.kind == NewPot then NewLevel(w, leds, ev.param)
    else GameResult(w, leds, [])
  }

  /**
   * Every event in Waiting2Coins leaves score 0, no black hole, no asteroid
   * cooldown, countdown 6 and no target; the coin cooldown is set exactly
   * when the event is a coin, which is also exactly when the state changes.
   */
  lemma Waiting2CoinsResets(v: GameVars, leds: seq<uint8>, priority: uint8, ev: Event)
    requires |leds| == NumLeds && v.state == Waiting2Coins
    ensures var w := Waiting2CoinsStep(v, leds, priority, ev).vars;
      w.score == 0 && !w.blackHole && !w.asteroidTimeout && w.countdown == 6 && w.target == -1 &&
      (w.coinTimeout <==> ev.kind == CoinInsert) &&
      (w.state == Waiting1Coins <==> ev.kind == CoinInsert) &&
      (w.state != Waiting1Coins ==> w.state == Waiting2Coins)
  {
  }

  /**
   * The first coin: on to Waiting1Coins with the coin cooldown set, the coin
   * LED lit and nothing else in the vector changed, the coin tone requested
   * and the coin-delay and input timers armed.
   */
  lemma FirstCoin(v: GameVars, leds: seq<uint8>, priority: uint8)
    requires |leds| == NumLeds && v.state == Waiting2Coins
    ensures var r := Waiting2CoinsStep(v, leds, priority, Plain(CoinInsert));
      r.vars == Reset(v).(state := Waiting1Coins, coinTimeout := true) &&
      |r.leds| == NumLeds && r.leds[CoinLed] == 1 &&
      (forall i | 0 <= i < NumLeds && i != CoinLed :: r.leds[i] == leds[i]) &&
      BuzzPost(4) in r.actions && InitTimer(CoinDelayTimer, CoinDelay) in r.actions &&
      InitTimer(UserInputTimer, UserInputTimeout) in r.actions
  {
    var r := Waiting2CoinsStep(v, leds, priority, Plain(CoinInsert));
    assert r.actions[2] == BuzzPost(4) && r.actions[4] == InitTimer(CoinDelayTimer, CoinDelay);
    assert r.actions[5] == InitTimer(UserInputTimer, UserInputTimeout);
  }

  /** The countdown timeout in Waiting2Coins puts every LED out. */
  lemma Waiting2CoinsClears(v: GameVars, leds: seq<uint8>, priority: uint8)
    requires |leds| == NumLeds && v.state == Waiting2Coins
    ensures var r := Waiting2CoinsStep(v, leds, priority, WithParam(Timeout, CountdownTimer));
      r.vars == Reset(v) && |r.leds| == NumLeds && (forall i | 0 <= i < NumLeds :: r.leds[i] == 0) &&
      r.actions == TwoCoins() + [ShiftPost(priority)]
  {
    LedPatterns();
  }

  /*------------------------------- Waiting1Coins -------------------------------*/

  /** The second coin: the start vector, a first target, the start tune and all game timers. */
  function StartGame(v: GameVars, leds: seq<uint8>, priority: uint8, rnd: nat): GameResult
    requires -1 <= v.target <= 3
  {
    var u := UpdateScore(v, 0);
    var g := NewTarget(u, StartLeds, priority, rnd);
    GameResult(g.vars.(state := GameOn), g.leds,
      [Display(2, "PLAY!"), ShowScore(u), BuzzPost(5), ShiftPost(priority)] + g.actions +
      [InitTimer(PlanetTimer, v.switchTime), InitTimer(BlackHoleTimer, BlackHoleSampleTime),
       InitTimer(CountdownTimer, GameInterval), InitTimer(UserInputTimer, UserInputTimeout)])
  }

  /** The Waiting1Coins branch. */
  function Waiting1CoinsStep(v: GameVars, leds: seq<uint8>, priority: uint8, ev: Event, rnd: nat): GameResult
    requires -1 <= v.target <= 3
  {
    if ev.kind == CoinInsert && !v.coinTimeout then StartGame(v, leds, priority, rnd)
    else if ev.kind == Timeout then
      if ev.param == CoinDelayTimer then GameResult(v.(coinTimeout := false), leds, [])
      else if ev.param == CountdownTimer then GameResult(v, leds, OneCoin())
      else if ev.param == UserInputTimer then
        GameResult(v.(state := Waiting2Coins), leds, TooSlow() + [InitTimer(CountdownTimer, SlowDisplayTime)])
      else GameResult(v, leds, [])
    else if ev.kind == NewPot then NewLevel(v, leds, ev.param)
    else GameResult(v, leds, [])
  }

  /**
   * With one coin in: a second coin starts the game only after the coin
   * cooldown is over (a coin during it changes nothing), the coin-delay
   * timeout ends the cooldown, and the input timeout goes back to
   * Waiting2Coins.
   */
  lemma SecondCoin(v: GameVars, leds: seq<uint8>, priority: uint8, rnd: nat)
    requires -1 <= v.target <= 3 && v.state == Waiting1Coins
    ensures var r := Waiting1CoinsStep(v, leds, priority, Plain(CoinInsert), rnd);
      (r.vars.state == GameOn <==> !v.coinTimeout) &&
      (v.coinTimeout ==> r == GameResult(v, leds, []))
    ensures Waiting1CoinsStep(v, leds, priority, WithParam(Timeout, CoinDelayTimer), rnd).vars == v.(coinTimeout := false)
    ensures Waiting1CoinsStep(v, leds, priority, WithParam(Timeout, UserInputTimer), rnd).vars == v.(state := Waiting2Coins)
  {
  }

  /*---------------------------------- GameOn ----------------------------------*/

  /** The black-hole sample: rand() % 100 below BlackHoleProb turns it on, below 100 - BlackHoleProb off. */
  function BlackHoleSample(v: GameVars, leds: seq<uint8>, priority: uint8, rnd: nat): GameResult
    requires |leds| == NumLeds
  {
    var x := rnd % 100;
    var arm := [InitTimer(BlackHoleTimer, BlackHoleSampleTime)];
    if !v.blackHole then
      if x < v.blackHoleProb then GameResult(v.(blackHole := true), leds[BlackHoleLed := 1], [ShiftPost(priority)] + arm)
      else GameResult(v, leds, arm)
    else if x < 100 - v.blackHoleProb then GameResult(v.(blackHole := false), leds[BlackHoleLed := 0], [ShiftPost(priority)] + arm)
    else GameResult(v, leds, arm)
  }

  /** The timeouts in GameOn. */
  function GameOnTimeout(v: GameVars, leds: seq<uint8>, priority: uint8, param: uint16, rnd: nat): GameResult
    requires -1 <= v.target <= 3 && v.countdown <= 6 && |leds| == NumLeds
  {
    if param == PlanetTimer then
      var g := NewTarget(v, leds, priority, rnd);
      GameResult(g.vars, g.leds, g.actions + [InitTimer(PlanetTimer, v.switchTime)])
    else if param == BlackHoleTimer then BlackHoleSample(v, leds, priority, rnd)
    else if param == CountdownTimer then
      if v.countdown > 1 then
        GameResult(v.(countdown := v.countdown - 1), leds[TimingLed + v.countdown - 1 := 0],
                   [InitTimer(CountdownTimer, GameInterval), ShiftPost(priority)])
      else
        GameResult(v.(state := GameOver, countdown := 6), leds,
                   [BuzzPost(6), InitTimer(CountdownTimer, FrameTime), StopTimer(PlanetTimer), StopTimer(BlackHoleTimer)])
    else if param == UserInputTimer then
      // this ES_UPDATE_SHIFT is a local whose parameter is never set; 0 here
      GameResult(v.(state := Waiting), Zeros,
                 TooSlow() + [BuzzPost(6), Post(ShiftService, Plain(UpdateShift)),
                              InitTimer(DelayTimer, LeaveDelay), StopTimer(PlanetTimer), StopTimer(BlackHoleTimer)])
    else if param == DelayTimer then GameResult(v.(asteroidTimeout := false), leds, [])
    else GameResult(v, leds, [])
  }

  /** ES_PLANET_HIT in GameOn: the target planet scores +10, moves the target and restarts the planet and input timers. */
  function PlanetHitStep(v: GameVars, leds: seq<uint8>, priority: uint8, param: uint16, rnd: nat): GameResult
    requires -1 <= v.target <= 3 && |leds| == NumLeds
  {
    if param == v.target then
      var g := NewTarget(v, leds, priority, rnd);
      var u := UpdateScore(g.vars, 10);
      GameResult(u, g.leds, g.actions + [ShowScore(u), BuzzPost(1),
        InitTimer(PlanetTimer, v.switchTime), InitTimer(UserInputTimer, UserInputTimeout)])
    else GameResult(v, leds, [])
  }

  /** ES_ASTEROID_HIT in GameOn: -3 and the cooldown, unless the cooldown is on. */
  function AsteroidHitStep(v: GameVars, leds: seq<uint8>): GameResult {
    if !v.asteroidTimeout then
      var u := UpdateScore(v, -3);
      GameResult(u.(asteroidTimeout := true), leds, [ShowScore(u), BuzzPost(2),
        InitTimer(DelayTimer, AsteroidDelay), InitTimer(UserInputTimer, UserInputTimeout)])
    else GameResult(v, leds, [])
  }

  /** ES_BLACKHOLE_HIT in GameOn: -5 and the black hole off while it is on; the input timer restarts either way. */
  function BlackHoleHitStep(v: GameVars, leds: seq<uint8>, priority: uint8): GameResult
    requires |leds| == NumLeds
  {
    if v.blackHole then
      var u := UpdateScore(v, -5);
      GameResult(u.(blackHole := false), leds[BlackHoleLed := 0], [ShowScore(u), BuzzPost(3), ShiftPost(priority),
        InitTimer(BlackHoleTimer, BlackHoleSampleTime), InitTimer(UserInputTimer, UserInputTimeout)])
    else GameResult(v, leds, [InitTimer(UserInputTimer, UserInputTimeout)])
  }

  /** The hits in GameOn (and any other event, which changes nothing). */
  function GameOnHit(v: GameVars, leds: seq<uint8>, priority: uint8, ev: Event, rnd: nat): GameResult
    requires -1 <= v.target <= 3 && |leds| == NumLeds
  {
    if ev.kind == PlanetHit then PlanetHitStep(v, leds, priority, ev.param, rnd)
    else if ev.kind == AsteroidHit then AsteroidHitStep(v, leds)
    else if ev.kind == BlackHoleHit then BlackHoleHitStep(v, leds, priority)
    else GameResult(v, leds, [])
  }

  /** The GameOn branch. */
  function GameOnStep(v: GameVars, leds: seq<uint8>, priority: uint8, ev: Event, rnd: nat): GameResult
    requires -1 <= v.target <= 3 && v.countdown <= 6 && |leds| == NumLeds
  {
    if ev.kind == Timeout then GameOnTimeout(v, leds, priority, ev.param, rnd)
    else GameOnHit(v, leds, priority, ev, rnd)
  }

  /** The target planet scores +10 and moves the target; any other planet changes nothing. */
  lemma PlanetScoring(v: GameVars, leds: seq<uint8>, priority: uint8, p: uint16, rnd: nat)
    requires 0 <= v.target <= 3 && |leds| == NumLeds
    ensures var r := GameOnHit(v, leds, priority, WithParam(PlanetHit, p), rnd);
      (p == v.target ==> r.vars.score == ToInt16(v.score + 10) && r.vars.target != v.target &&
                         r.vars == v.(score := r.vars.score, target := r.vars.target)) &&
      (p != v.target ==> r == GameResult(v, leds, []))
  {
    NewTargetLeds(v, leds, priority, rnd);
  }

  /**
   * An asteroid scores -3 only outside its cooldown and starts it; the delay
   * timeout ends the cooldown.
   */
  lemma AsteroidScoring(v: GameVars, leds: seq<uint8>, priority: uint8, p: uint16, rnd: nat)
    requires 0 <= v.target <= 3 && v.countdown <= 6 && |leds| == NumLeds
    ensures var r := GameOnHit(v, leds, priority, WithParam(AsteroidHit, p), rnd);
      (!v.asteroidTimeout ==> r.vars == v.(score := ToInt16(v.score - 3), asteroidTimeout := true) && r.leds == leds) &&
      (v.asteroidTimeout ==> r == GameResult(v, leds, []))
    ensures GameOnTimeout(v, leds, priority, DelayTimer, rnd) == GameResult(v.(asteroidTimeout := false), leds, [])
  {
  }

  /**
   * A black hole scores -5 only while it is on, and turns it and its LED
   * off; either way the input timer restarts.
   */
  lemma BlackHoleScoring(v: GameVars, leds: seq<uint8>, priority: uint8, p: uint16, rnd: nat)
    requires 0 <= v.target <= 3 && |leds| == NumLeds
    ensures var r := GameOnHit(v, leds, priority, WithParam(BlackHoleHit, p), rnd);
      (v.blackHole ==> r.vars == v.(score := ToInt16(v.score - 5), blackHole := false) && r.leds == leds[BlackHoleLed := 0]) &&
      (!v.blackHole ==> r.vars == v && r.leds == leds) &&
      InitTimer(UserInputTimer, UserInputTimeout) == r.actions[|r.actions| - 1]
  {
  }

  /**
   * The countdown timeout in GameOn: above 1 it puts out timing LED
   * 6 + Countdown (one of 8..12) and counts down; at 1 the game is over,
   * with the end tune, countdown 6 and the planet and black-hole timers
   * stopped.
   */
  lemma Countdown(v: GameVars, leds: seq<uint8>, priority: uint8, rnd: nat)
    requires -1 <= v.target <= 3 && 1 <= v.countdown <= 6 && |leds| == NumLeds
    ensures var r := GameOnTimeout(v, leds, priority, CountdownTimer, rnd);
      (v.countdown > 1 ==>
        8 <= 6 + v.countdown <= 12 && r.vars == v.(countdown := v.countdown - 1) &&
        r.leds == leds[6 + v.countdown := 0]) &&
      (v.countdown == 1 ==>
        r.vars == v.(state := GameOver, countdown := 6) && r.leds == leds &&
        BuzzPost(6) in r.actions && StopTimer(PlanetTimer) in r.actions && StopTimer(BlackHoleTimer) in r.actions)
  {
    var r := GameOnTimeout(v, leds, priority, CountdownTimer, rnd);
    if v.countdown == 1 {
      assert r.actions[0] == BuzzPost(6) && r.actions[2] == StopTimer(PlanetTimer) && r.actions[3] == StopTimer(BlackHoleTimer);
    }
  }

  /*------------------------------ Waiting, GameOver ------------------------------*/

  /** The Waiting branch: only the delay timeout leaves it, for Waiting2Coins. */
  function WaitingStep(v: GameVars, leds: seq<uint8>, ev: Event): GameResult {
    if ev.kind == Timeout && ev.param == DelayTimer then GameResult(v.(state := Waiting2Coins), leds, TwoCoins())
    else GameResult(v, leds, [])
  }

  /** The three calls of one game-over frame. */
  function FrameActions(c: uint8, priority: uint8): seq<Action> {
    [Display(2, if c % 2 == 1 then "SCORE!" else "FINAL!"), ShiftPost(priority), InitTimer(CountdownTimer, FrameTime)]
  }

  /** The GameOver branch: a frame per countdown timeout while Countdown > 0, then the restart. */
  function GameOverStep(v: GameVars, leds: seq<uint8>, priority: uint8, ev: Event): GameResult {
    if ev.kind == Timeout && ev.param == CountdownTimer then
      if v.countdown > 0 then
        GameResult(v.(countdown := v.countdown - 1), if v.countdown % 2 == 1 then OddFrame else EvenFrame,
                   FrameActions(v.countdown, priority))
      else
        GameResult(v.(state := Waiting2Coins, score := 0), Zeros,
                   TwoCoins() + [ShiftPost(priority), InitTimer(CountdownTimer, RestartDelay)])
    else GameResult(v, leds, [])
  }

  /*------------------------------- the whole step -------------------------------*/

  /** The LED vector during a game: the target's LED alone among the planets, the black hole's, and the timing LEDs. */
  predicate OnInv(v: GameVars, leds: seq<uint8>)
    requires |leds| == NumLeds
  {
    0 <= v.target <= 3 && 1 <= v.countdown &&
    (forall i | 0 <= i < 4 :: leds[i] == (if i == v.target then 1 else 0)) &&
    leds[BlackHoleLed] == (if v.blackHole then 1 else 0) &&
    (forall i | CoinLed <= i < NumLeds :: leds[i] == (if i <= 6 + v.countdown then 1 else 0))
  }

  /** Every reachable state. */
  predicate GameInv(v: GameVars, leds: seq<uint8>) {
    |leds| == NumLeds && -1 <= v.target <= 3 && v.countdown <= 6 &&
    (v.state == Waiting1Coins ==> v.target == -1 && !v.blackHole && v.score == 0 && v.countdown == 6) &&
    (v.state == GameOn ==> OnInv(v, leds))
  }

  /** RunGameService on one event, with the value of the rand() call it may make. */
  function GameStep(v: GameVars, leds: seq<uint8>, priority: uint8, ev: Event, rnd: nat): (r: GameResult)
    requires GameInv(v, leds)
  {
    match v.state
    case Waiting2Coins => Waiting2CoinsStep(v, leds, priority, ev)
    case Waiting1Coins => Waiting1CoinsStep(v, leds, priority, ev, rnd)
    case GameOn => GameOnStep(v, leds, priority, ev, rnd)
    case Waiting => WaitingStep(v, leds, ev)
    case GameOver => GameOverStep(v, leds, priority, ev)
  }

  lemma InitKeepsInvariant(reading: uint32, leds: seq<uint8>)
    requires |leds| == NumLeds
    ensures GameInv(InitVars(reading), leds)
  {
  }

  /** The start of a game establishes the LED invariant. */
  lemma StartGameInvariant(v: GameVars, leds: seq<uint8>, priority: uint8, rnd: nat)
    requires v.target == -1 && !v.blackHole && v.countdown == 6
    ensures var r := StartGame(v, leds, priority, rnd);
      |r.leds| == NumLeds && r.vars.state == GameOn && OnInv(r.vars, r.leds) && r.vars.score == v.score
  {
    LedPatterns();
    var u := UpdateScore(v, 0);
    NewTargetLeds(u, StartLeds, priority, rnd);
  }

  /** The timeouts of GameOn keep the LED invariant while they stay in GameOn. */
  lemma GameOnTimeoutInvariant(v: GameVars, leds: seq<uint8>, priority: uint8, param: uint16, rnd: nat)
    requires GameInv(v, leds) && v.state == GameOn
    ensures var r := GameOnTimeout(v, leds, priority, param, rnd); GameInv(r.vars, r.leds)
  {
    if param == PlanetTimer {
      PlanetTimerInvariant(v, leds, priority, rnd);
    } else if param == BlackHoleTimer {
      BlackHoleSampleInvariant(v, leds, priority, rnd);
    } else if param == CountdownTimer {
      CountdownInvariant(v, leds, priority, rnd);
    } else if param == UserInputTimer {
      LedPatterns();
    }
  }

  lemma PlanetTimerInvariant(v: GameVars, leds: seq<uint8>, priority: uint8, rnd: nat)
    requires GameInv(v, leds) && v.state == GameOn
    ensures var r := GameOnTimeout(v, leds, priority, PlanetTimer, rnd); GameInv(r.vars, r.leds) && r.vars.state == GameOn
  {
    NewTargetLeds(v, leds, priority, rnd);
  }

  lemma BlackHoleSampleInvariant(v: GameVars, leds: seq<uint8>, priority: uint8, rnd: nat)
    requires GameInv(v, leds) && v.state == GameOn
    ensures var r := BlackHoleSample(v, leds, priority, rnd); GameInv(r.vars, r.leds) && r.vars.state == GameOn
  {
  }

  lemma CountdownInvariant(v: GameVars, leds: seq<uint8>, priority: uint8, rnd: nat)
    requires GameInv(v, leds) && v.state == GameOn
    ensures var r := GameOnTimeout(v, leds, priority, CountdownTimer, rnd); GameInv(r.vars, r.leds)
  {
  }

  /** The hits of GameOn keep the LED invariant. */
  lemma GameOnHitInvariant(v: GameVars, leds: seq<uint8>, priority: uint8, ev: Event, rnd: nat)
    requires GameInv(v, leds) && v.state == GameOn
    ensures var r := GameOnHit(v, leds, priority, ev, rnd); GameInv(r.vars, r.leds) && r.vars.state == GameOn
  {
    NewTargetLeds(v, leds, priority, rnd);
  }

  lemma Waiting2CoinsInvariant(v: GameVars, leds: seq<uint8>, priority: uint8, ev: Event)
    requires GameInv(v, leds) && v.state == Waiting2Coins
    ensures var r := Waiting2CoinsStep(v, leds, priority, ev); GameInv(r.vars, r.leds)
  {
    LedPatterns();
  }

  lemma Waiting1CoinsInvariant(v: GameVars, leds: seq<uint8>, priority: uint8, ev: Event, rnd: nat)
    requires GameInv(v, leds) && v.state == Waiting1Coins
    ensures var r := Waiting1CoinsStep(v, leds, priority, ev, rnd); GameInv(r.vars, r.leds)
  {
    if ev.kind == CoinInsert && !v.coinTimeout {
      StartGameInvariant(v, leds, priority, rnd);
    }
  }

  /**
   * Every event keeps the invariant; in particular, throughout GameOn the
   * target planet's LED is the only planet LED lit, the black-hole LED is
   * lit exactly while the black hole is on, and the timing LEDs show the
   * countdown.
   */
  lemma GameStepKeepsInvariant(v: GameVars, leds: seq<uint8>, priority: uint8, ev: Event, rnd: nat)
    requires GameInv(v, leds)
    ensures var r := GameStep(v, leds, priority, ev, rnd); GameInv(r.vars, r.leds)
  {
    match v.state
    case Waiting2Coins => Waiting2CoinsInvariant(v, leds, priority, ev);
    case Waiting1Coins => Waiting1CoinsInvariant(v, leds, priority, ev, rnd);
    case GameOn =>
      if ev.kind == Timeout {
        GameOnTimeoutInvariant(v, leds, priority, ev.param, rnd);
      } else {
        GameOnHitInvariant(v, leds, priority, ev, rnd);
      }
    case Waiting =>
    case GameOver => LedPatterns();
  }

  /*---------------------------------- event runs ----------------------------------*/

  /** An event with the random value its dispatch draws. */
  datatype Input = Input(ev: Event, rnd: nat)

  /** RunGameService on each input in turn. */
  function Steps(v: GameVars, leds: seq<uint8>, priority: uint8, ins: seq<Input>): (r: GameResult)
    requires GameInv(v, leds)
    ensures GameInv(r.vars, r.leds)
    decreases |ins|
  {
    if ins == [] then GameResult(v, leds, [])
    else
      var a := GameStep(v, leds, priority, ins[0].ev, ins[0].rnd);
      GameStepKeepsInvariant(v, leds, priority, ins[0].ev, ins[0].rnd);
      var b := Steps(a.vars, a.leds, priority, ins[1..]);
      GameResult(b.vars, b.leds, a.actions + b.actions)
  }

  /** The calls of the game-over frames for Countdown c down to 1. */
  function Frames(c: uint8, priority: uint8): seq<Action>
    decreases c
  {
    if c == 0 then [] else FrameActions(c, priority) + Frames(c - 1, priority)
  }

  /** Inputs that are all countdown timeouts. */
  predicate AllCountdowns(ins: seq<Input>) {
    forall i | 0 <= i < |ins| :: ins[i].ev == WithParam(Timeout, CountdownTimer)
  }

  /** One countdown timeout in GameOver with frames left. */
  lemma FrameStep(v: GameVars, leds: seq<uint8>, priority: uint8, rnd: nat)
    requires GameInv(v, leds) && v.state == GameOver && v.countdown > 0
    ensures var r := GameStep(v, leds, priority, WithParam(Timeout, CountdownTimer), rnd);
      r.vars == v.(countdown := v.countdown - 1) && r.actions == FrameActions(v.countdown, priority) &&
      r.leds == (if v.countdown % 2 == 1 then OddFrame else EvenFrame)
  {
  }

  /** The countdown timeout in GameOver with no frames left. */
  lemma RestartStep(v: GameVars, leds: seq<uint8>, priority: uint8, rnd: nat)
    requires GameInv(v, leds) && v.state == GameOver && v.countdown == 0
    ensures var r := GameStep(v, leds, priority, WithParam(Timeout, CountdownTimer), rnd);
      r.vars == v.(state := Waiting2Coins, score := 0) && r.leds == Zeros &&
      r.actions == TwoCoins() + [ShiftPost(priority), InitTimer(CountdownTimer, RestartDelay)]
  {
  }

  /**
   * GameOver with Countdown c plays c frames, one per countdown timeout,
   * alternating by the parity of the countdown, and the next timeout
   * restarts: every LED out, score 0 and on to Waiting2Coins.
   */
  lemma {:induction false} GameOverRun(v: GameVars, leds: seq<uint8>, priority: uint8, ins: seq<Input>)
    requires GameInv(v, leds) && v.state == GameOver
    requires |ins| == v.countdown + 1 && AllCountdowns(ins)
    ensures var r := Steps(v, leds, priority, ins);
      r.vars == v.(state := Waiting2Coins, score := 0, countdown := 0) && r.leds == Zeros &&
      r.actions == Frames(v.countdown, priority) + TwoCoins() + [ShiftPost(priority), InitTimer(CountdownTimer, RestartDelay)]
    decreases v.countdown
  {
    var t := WithParam(Timeout, CountdownTimer);
    assert ins[0].ev == t;
    if v.countdown == 0 {
      RestartStep(v, leds, priority, ins[0].rnd);
      assert ins[1..] == [];
    } else {
      FrameStep(v, leds, priority, ins[0].rnd);
      var a := GameStep(v, leds, priority, t, ins[0].rnd);
      assert AllCountdowns(ins[1..]) by {
        forall i | 0 <= i < |ins[1..]| ensures ins[1..][i].ev == t {
          assert ins[1..][i] == ins[i + 1];
        }
      }
      GameOverRun(a.vars, a.leds, priority, ins[1..]);
      var b := Steps(a.vars, a.leds, priority, ins[1..]);
      AppendAssoc(FrameActions(v.countdown, priority), Frames(v.countdown - 1, priority),
                  TwoCoins() + [ShiftPost(priority), InitTimer(CountdownTimer, RestartDelay)]);
      AppendAssoc(Frames(v.countdown - 1, priority), TwoCoins(), [ShiftPost(priority), InitTimer(CountdownTimer, RestartDelay)]);
      AppendAssoc(Frames(v.countdown, priority), TwoCoins(), [ShiftPost(priority), InitTimer(CountdownTimer, RestartDelay)]);
    }
  }

  /*--------------------------------- the service ---------------------------------*/

  /** The service's statics, the LED vector it owns, and the framework calls so far. */
  class Service {
    const priority: uint8
    const leds: array<uint8>
    var current: GameState
    var state: GameState
    var countdown: uint8
    var target: int8
    var score: int16
    var blackHole: bool
    var asteroidTimeout: bool
    var coinTimeout: bool
    var switchTime: uint32
    var blackHoleProb: uint8
    var level: uint8
    var out: seq<Action>

    ghost predicate Valid()
      reads this, leds
    {
      GameInv(Vars(), leds[..])
    }

    /** The statics other than CurrentState, which only copies NextState at the start of a dispatch. */
    function Vars(): GameVars
      reads this
    {
      GameVars(state, countdown, target, score, blackHole, asteroidTimeout, coinTimeout, switchTime, blackHoleProb, level)
    }

    /**
     * InitGameService, with the potentiometer reading it takes: the level
     * from the inverted reading, the game variables reset, Waiting2Coins
     * next, and ES_INIT posted to itself.
     */
    constructor (priority: uint8, leds: array<uint8>, reading: uint32)
      requires leds.Length == NumLeds
      ensures Valid() && Vars() == InitVars(reading) && this.priority == priority && this.leds == leds
      ensures out == [Post(GameService, Plain(Init))]
    {
      this.priority := priority;
      this.leds := leds;
      current, state := Waiting2Coins, Waiting2Coins;
      countdown, target, score := 6, -1, 0;
      blackHole, asteroidTimeout, coinTimeout := false, false, false;
      switchTime, blackHoleProb, level := 5000, 50, 0;
      out := [];
      new;
      var val := PotLevel(ToUint32(1023 - reading));
      switchTime, blackHoleProb := SwitchTime(val), val;
      out := out + [Post(GameService, Plain(Init))];
    }

    /** The memcpy of a 13-entry vector into ShiftRegisterVals. */
    method CopyLeds(vals: seq<uint8>)
      requires |vals| == leds.Length
      modifies leds
      ensures leds[..] == vals
    {
      var i := 0;
      while i < leds.Length
        invariant 0 <= i <= leds.Length
        invariant forall j | 0 <= j < i :: leds[j] == vals[j]
      {
        leds[i] := vals[i];
        i := i + 1;
      }
    }

    /** GetNewPlanet, with the value of its rand() call; the ES_UPDATE_SHIFT it posts is returned. */
    method GetNewPlanet(rnd: nat) returns (posts: seq<Action>)
      requires -1 <= target <= 3 && leds.Length == NumLeds
      modifies this`target, leds
      ensures var r := NewTarget(old(Vars()), old(leds[..]), priority, rnd);
        target == r.vars.target && leds[..] == r.leds && posts == r.actions
    {
      var newPlanet: int8;
      if target == -1 {
        newPlanet := rnd % 4;
      } else {
        var randNum: int8 := rnd % 3;
        if randNum >= target {
          newPlanet := randNum + 1;
        } else {
          newPlanet := randNum;
        }
        leds[target] := 0;
      }
      leds[newPlanet] := 1;
      posts := [ShiftPost(priority)];
      target := newPlanet;
    }

    /**
     * RunGameService: CurrentState takes NextState, then the branch of that
     * state; what the branch posts is appended to the record of posts.
     */
    method Run(ev: Event, rnd: nat)
      requires Valid()
      modifies this, leds
      ensures Valid() && current == old(state)
      ensures var r := GameStep(old(Vars()), old(leds[..]), priority, ev, rnd);
        Vars() == r.vars && leds[..] == r.leds && out == old(out) + r.actions
    {
      GameStepKeepsInvariant(Vars(), leds[..], priority, ev, rnd);
      current := state;
      var posts := Dispatch(ev, rnd);
      out := out + posts;
    }

    /** The branch of the current state. */
    method Dispatch(ev: Event, rnd: nat) returns (posts: seq<Action>)
      requires GameInv(Vars(), leds[..]) && current == state
      modifies this, leds
      ensures current == old(current) && out == old(out)
      ensures var r := GameStep(old(Vars()), old(leds[..]), priority, ev, rnd);
        Vars() == r.vars && leds[..] == r.leds && posts == r.actions
    {
      match current
      case Waiting2Coins => posts := RunWaiting2Coins(ev);
      case Waiting1Coins => posts := RunWaiting1Coins(ev, rnd);
      case GameOn =>
        if ev.kind == Timeout {
          posts := RunGameOnTimeout(ev.param, rnd);
        } else {
          posts := RunGameOnHit(ev, rnd);
        }
      case Waiting => posts := RunWaiting(ev);
      case GameOver => posts := RunGameOver(ev);
    }

    /** The Waiting2Coins branch. */
    method RunWaiting2Coins(ev: Event) returns (posts: seq<Action>)
      requires leds.Length == NumLeds
      modifies this, leds
      ensures current == old(current) && out == old(out)
      ensures var r := Waiting2CoinsStep(old(Vars()), old(leds[..]), priority, ev);
        Vars() == r.vars && leds[..] == r.leds && posts == r.actions
    {
      score, blackHole, asteroidTimeout, coinTimeout, countdown, target := 0, false, false, false, 6, -1;
      assert Vars() == Reset(old(Vars()));
      posts := [];
      if ev.kind == Init {
        posts := TwoCoins();
      } else if ev.kind == Timeout {
        if ev.param == CountdownTimer {
          CopyLeds(Zeros);
          posts := TwoCoins() + [ShiftPost(priority)];
        }
      } else if ev.kind == CoinInsert {
        leds[CoinLed] := 1;
        coinTimeout, state := true, Waiting1Coins;
        posts := OneCoin() + [BuzzPost(4), ShiftPost(priority),
          InitTimer(CoinDelayTimer, CoinDelay), InitTimer(UserInputTimer, UserInputTimeout)];
      } else if ev.kind == NewPot {
        posts := RunNewPot(ev.param);
      }
    }

    /** ES_NEW_POT in either waiting state: the level shown and applied as in GetDifficulty. */
    method RunNewPot(param: uint16) returns (posts: seq<Action>)
      modifies this
      ensures current == old(current) && out == old(out)
      ensures var r := NewLevel(old(Vars()), [], param);
        Vars() == r.vars && posts == r.actions
    {
      level := ToUint8(param);
      switchTime, blackHoleProb := SwitchTime(level), level;
      posts := [Display(2, Decimal(level)), Display(1, "LEVEL"),
        InitTimer(CountdownTimer, LevelDisplayTime), InitTimer(UserInputTimer, UserInputTimeout)];
    }

    /** The Waiting1Coins branch. */
    method RunWaiting1Coins(ev: Event, rnd: nat) returns (posts: seq<Action>)
      requires -1 <= target <= 3 && leds.Length == NumLeds
      modifies this, leds
      ensures current == old(current) && out == old(out)
      ensures var r := Waiting1CoinsStep(old(Vars()), old(leds[..]), priority, ev, rnd);
        Vars() == r.vars && leds[..] == r.leds && posts == r.actions
    {
      posts := [];
      if ev.kind == CoinInsert && !coinTimeout {
        posts := RunStartGame(rnd);
      } else if ev.kind == Timeout {
        if ev.param == CoinDelayTimer {
          coinTimeout := false;
        } else if ev.param == CountdownTimer {
          posts := OneCoin();
        } else if ev.param == UserInputTimer {
          state := Waiting2Coins;
          posts := TooSlow() + [InitTimer(CountdownTimer, SlowDisplayTime)];
        }
      } else if ev.kind == NewPot {
        posts := RunNewPot(ev.param);
      }
    }

    /** The second coin: the score reset through UpdateScore(0), the start vector, a first target and the game timers. */
    method RunStartGame(rnd: nat) returns (posts: seq<Action>)
      requires -1 <= target <= 3 && leds.Length == NumLeds
      modifies this, leds
      ensures current == old(current) && out == old(out)
      ensures var r := StartGame(old(Vars()), old(leds[..]), priority, rnd);
        Vars() == r.vars && leds[..] == r.leds && posts == r.actions
    {
      score := ToInt16(score + 0);
      var shown := Display(1, Decimal(score));
      CopyLeds(StartLeds);
      var moved := GetNewPlanet(rnd);
      posts := [Display(2, "PLAY!"), shown, BuzzPost(5), ShiftPost(priority)] + moved +
        [InitTimer(PlanetTimer, switchTime), InitTimer(BlackHoleTimer, BlackHoleSampleTime),
         InitTimer(CountdownTimer, GameInterval), InitTimer(UserInputTimer, UserInputTimeout)];
      state := GameOn;
    }

    /** The timeouts in GameOn. */
    method RunGameOnTimeout(param: uint16, rnd: nat) returns (posts: seq<Action>)
      requires -1 <= target <= 3 && countdown <= 6 && leds.Length == NumLeds
      modifies this, leds
      ensures current == old(current) && out == old(out)
      ensures var r := GameOnTimeout(old(Vars()), old(leds[..]), priority, param, rnd);
        Vars() == r.vars && leds[..] == r.leds && posts == r.actions
    {
      posts := [];
      if param == PlanetTimer {
        var moved := GetNewPlanet(rnd);
        posts := moved + [InitTimer(PlanetTimer, switchTime)];
      } else if param == BlackHoleTimer {
        posts := RunBlackHoleSample(rnd);
      } else if param == CountdownTimer {
        if countdown > 1 {
          leds[TimingLed + countdown - 1] := 0;
          countdown := countdown - 1;
          posts := [InitTimer(CountdownTimer, GameInterval), ShiftPost(priority)];
        } else {
          state, countdown := GameOver, 6;
          posts := [BuzzPost(6), InitTimer(CountdownTimer, GameOverTime / 6), StopTimer(PlanetTimer), StopTimer(BlackHoleTimer)];
        }
      } else if param == UserInputTimer {
        CopyLeds(Zeros);
        state := Waiting;
        posts := TooSlow() + [BuzzPost(6), Post(ShiftService, Plain(UpdateShift)),
          InitTimer(DelayTimer, LeaveDelay), StopTimer(PlanetTimer), StopTimer(BlackHoleTimer)];
      } else if param == DelayTimer {
        asteroidTimeout := false;
      }
    }

    /** The BLACKHOLE_TIMER timeout, with the value of its rand() call. */
    method RunBlackHoleSample(rnd: nat) returns (posts: seq<Action>)
      requires leds.Length == NumLeds
      modifies this`blackHole, leds
      ensures var r := BlackHoleSample(old(Vars()), old(leds[..]), priority, rnd);
        blackHole == r.vars.blackHole && leds[..] == r.leds && posts == r.actions
      ensures BlackHoleSample(old(Vars()), old(leds[..]), priority, rnd).vars == old(Vars()).(blackHole := blackHole)
    {
      posts := [];
      if !blackHole {
        if rnd % 100 < blackHoleProb {
          blackHole := true;
          leds[BlackHoleLed] := 1;
          posts := [ShiftPost(priority)];
        }
      } else {
        if rnd % 100 < 100 - blackHoleProb {
          blackHole := false;
          leds[BlackHoleLed] := 0;
          posts := [ShiftPost(priority)];
        }
      }
      posts := posts + [InitTimer(BlackHoleTimer, BlackHoleSampleTime)];
    }

    /** The hits in GameOn. */
    method RunGameOnHit(ev: Event, rnd: nat) returns (posts: seq<Action>)
      requires -1 <= target <= 3 && leds.Length == NumLeds
      modifies this, leds
      ensures current == old(current) && out == old(out)
      ensures var r := GameOnHit(old(Vars()), old(leds[..]), priority, ev, rnd);
        Vars() == r.vars && leds[..] == r.leds && posts == r.actions
    {
      posts := [];
      if ev.kind == PlanetHit {
        posts := RunPlanetHit(ev.param, rnd);
      } else if ev.kind == AsteroidHit {
        posts := RunAsteroidHit();
      } else if ev.kind == BlackHoleHit {
        posts := RunBlackHoleHit();
      }
    }

    /** ES_PLANET_HIT: a new target, then UpdateScore(10). */
    method RunPlanetHit(param: uint16, rnd: nat) returns (posts: seq<Action>)
      requires -1 <= target <= 3 && leds.Length == NumLeds
      modifies this, leds
      ensures current == old(current) && out == old(out)
      ensures var r := PlanetHitStep(old(Vars()), old(leds[..]), priority, param, rnd);
        Vars() == r.vars && leds[..] == r.leds && posts == r.actions
    {
      posts := [];
      if param == target {
        var moved := GetNewPlanet(rnd);
        score := ToInt16(score + 10);
        posts := moved + [Display(1, Decimal(score)), BuzzPost(1),
          InitTimer(PlanetTimer, switchTime), InitTimer(UserInputTimer, UserInputTimeout)];
      }
    }

    /** ES_ASTEROID_HIT: UpdateScore(-3) and the cooldown. */
    method RunAsteroidHit() returns (posts: seq<Action>)
      modifies this
      ensures current == old(current) && out == old(out)
      ensures var r := AsteroidHitStep(old(Vars()), []);
        Vars() == r.vars && posts == r.actions
    {
      posts := [];
      if !asteroidTimeout {
        score := ToInt16(score - 3);
        asteroidTimeout := true;
        posts := [Display(1, Decimal(score)), BuzzPost(2),
          InitTimer(DelayTimer, AsteroidDelay), InitTimer(UserInputTimer, UserInputTimeout)];
      }
    }

    /** ES_BLACKHOLE_HIT: UpdateScore(-5) and the black hole off while it is on. */
    method RunBlackHoleHit() returns (posts: seq<Action>)
      requires leds.Length == NumLeds
      modifies this, leds
      ensures current == old(current) && out == old(out)
      ensures var r := BlackHoleHitStep(old(Vars()), old(leds[..]), priority);
        Vars() == r.vars && leds[..] == r.leds && posts == r.actions
    {
      posts := [InitTimer(UserInputTimer, UserInputTimeout)];
      if blackHole {
        score, blackHole := ToInt16(score - 5), false;
        leds[BlackHoleLed] := 0;
        posts := [Display(1, Decimal(score)), BuzzPost(3), ShiftPost(priority),
          InitTimer(BlackHoleTimer, BlackHoleSampleTime)] + posts;
      }
    }

    /** The Waiting branch. */
    method RunWaiting(ev: Event) returns (posts: seq<Action>)
      modifies this
      ensures current == old(current) && out == old(out)
      ensures var r := WaitingStep(old(Vars()), [], ev);
        Vars() == r.vars && posts == r.actions
    {
      posts := [];
      if ev.kind == Timeout {
        if ev.param == DelayTimer {
          state := Waiting2Coins;
          posts := TwoCoins();
        }
      }
    }

    /** The GameOver branch. */
    method RunGameOver(ev: Event) returns (posts: seq<Action>)
      requires leds.Length == NumLeds
      modifies this, leds
      ensures current == old(current) && out == old(out)
      ensures var r := GameOverStep(old(Vars()), old(leds[..]), priority, ev);
        Vars() == r.vars && leds[..] == r.leds && posts == r.actions
    {
      posts := [];
      if ev.kind == Timeout {
        if ev.param == CountdownTimer {
          if countdown > 0 {
            if countdown % 2 == 1 {
              CopyLeds(OddFrame);
              posts := [Display(2, "SCORE!"), ShiftPost(priority)];
            } else {
              CopyLeds(EvenFrame);
              posts := [Display(2, "FINAL!"), ShiftPost(priority)];
            }
            countdown := countdown - 1;
            posts := posts + [InitTimer(CountdownTimer, GameOverTime / 6)];
          } else {
            CopyLeds(Zeros);
            state, score := Waiting2Coins, 0;
            posts := TwoCoins() + [ShiftPost(priority), InitTimer(CountdownTimer, RestartDelay)];
          }
        }
      }
    }
  }
}
