/*
 * The event checkers the framework polls: the six hall-effect sensors of
 * the planets, the asteroid and the black hole, the infrared coin beam and
 * the difficulty potentiometer. Each remembers the last value it read in
 * a static and posts to every service (ES_PostAll) when the value changes
 * the way that counts as an event. The port and ADC reads are parameters.
 */
module Sensors {
  import opened Framework

  /** A port pin as the PORTxbits fields read it. */
  type bit = x: uint8 | x <= 1

  /** C's int32_t. */
  type int32 = x: int | -0x8000_0000 <= x < 0x8000_0000

  /** The conversion of a uint32 to int32 (two's complement, as the target does). */
  function ToInt32(x: uint32): int32 {
    if x < 0x8000_0000 then x else x - 0x1_0000_0000
  }

  /** NUM_HALL_EFFECT and HALL_PIN_LO. */
  const NumHallEffect := 6
  const HallPinLo := 0

  /*------------------------------ CheckHallEffect ------------------------------*/

  /**
   * HallEffectEvents, with the entry the loop reads one past its end: the
   * loop runs i = 0..NUM_HALL_EFFECT inclusive, so index 6 reads whatever
   * lies beyond the table (`stray`), and likewise beyond both value arrays.
   */
  function HallEffectEvents(stray: EventKind): seq<EventKind> {
    [PlanetHit, PlanetHit, PlanetHit, PlanetHit, AsteroidHit, BlackHoleHit, stray]
  }

  /** The condition of an event: the pin changed and is now low. */
  predicate Edge(cur: uint8, last: uint8) {
    cur != last && cur == HallPinLo
  }

  /**
   * The posts of loop iterations 0..n-1 against the last values: one
   * ES_PostAll per sensor with an edge, of its table entry's kind and with
   * the sensor's index as parameter, in index order.
   */
  function HallPosts(cur: seq<uint8>, last: seq<uint8>, kinds: seq<EventKind>, n: nat): (r: seq<Action>)
    requires n <= |cur| && n <= |last| && n <= |kinds| && n <= NumHallEffect + 1
    ensures |r| <= n
    ensures forall k | 0 <= k < |r| ::
      r[k].PostAll? && r[k].event.param < n && r[k].event == WithParam(kinds[r[k].event.param], r[k].event.param)
    ensures forall j, k | 0 <= j < k < |r| :: r[j].event.param < r[k].event.param
  {
    if n == 0 then []
    else
      HallPosts(cur, last, kinds, n - 1) +
      (if Edge(cur[n - 1], last[n - 1]) then [PostAll(WithParam(kinds[n - 1], n - 1))] else [])
  }

  /** Sensor i is reported, with its kind and index, exactly when it has an edge. */
  lemma {:induction false} HallPostsIff(cur: seq<uint8>, last: seq<uint8>, kinds: seq<EventKind>, n: nat, i: nat)
    requires n <= |cur| && n <= |last| && n <= |kinds| && n <= NumHallEffect + 1 && i < n
    ensures PostAll(WithParam(kinds[i], i)) in HallPosts(cur, last, kinds, n) <==> Edge(cur[i], last[i])
  {
    var prefix := HallPosts(cur, last, kinds, n - 1);
    var e := PostAll(WithParam(kinds[i], i));
    if i == n - 1 {
      assert e !in prefix;
    } else {
      HallPostsIff(cur, last, kinds, n - 1, i);
    }
  }

  /** The checker reports something exactly when some sensor has an edge. */
  lemma {:induction false} HallFound(cur: seq<uint8>, last: seq<uint8>, kinds: seq<EventKind>, n: nat)
    requires n <= |cur| && n <= |last| && n <= |kinds| && n <= NumHallEffect + 1
    ensures HallPosts(cur, last, kinds, n) != [] <==> exists i | 0 <= i < n :: Edge(cur[i], last[i])
  {
    if n > 0 {
      HallFound(cur, last, kinds, n - 1);
      if Edge(cur[n - 1], last[n - 1]) {
        assert |HallPosts(cur, last, kinds, n)| > 0;
      }
    }
  }

  /** Reads that have not changed since the last poll post nothing. */
  lemma {:induction false} HallSteady(cur: seq<uint8>, kinds: seq<EventKind>, n: nat)
    requires n <= |cur| && n <= |kinds| && n <= NumHallEffect + 1
    ensures HallPosts(cur, cur, kinds, n) == []
  {
    if n > 0 {
      HallSteady(cur, kinds, n - 1);
    }
  }

  /**
   * The first poll reads the six pins twice: once into the last values
   * (`firstPins`) and once into the current values (`pins`). A real sensor
   * posts on it exactly when it went from high to low between those two
   * reads, so when both reads agree only the slot past the end can post.
   */
  lemma HallFirstPoll(firstPins: seq<bit>, pins: seq<bit>, cur6: uint8, last6: uint8, stray: EventKind)
    requires |firstPins| == NumHallEffect && |pins| == NumHallEffect
    ensures var p := HallPosts(pins + [cur6], firstPins + [last6], HallEffectEvents(stray), NumHallEffect + 1);
      forall i | 0 <= i < NumHallEffect ::
        PostAll(WithParam(HallEffectEvents(stray)[i], i)) in p <==> firstPins[i] == 1 && pins[i] == 0
    ensures firstPins == pins ==>
      HallPosts(pins + [cur6], firstPins + [last6], HallEffectEvents(stray), NumHallEffect + 1) ==
        (if Edge(cur6, last6) then [PostAll(WithParam(stray, 6))] else [])
  {
    var cur, last, kinds := pins + [cur6], firstPins + [last6], HallEffectEvents(stray);
    forall i | 0 <= i < NumHallEffect
      ensures PostAll(WithParam(kinds[i], i)) in HallPosts(cur, last, kinds, NumHallEffect + 1) <==>
              firstPins[i] == 1 && pins[i] == 0
    {
      HallPostsIff(cur, last, kinds, NumHallEffect + 1, i);
    }
    if firstPins == pins {
      assert cur[..NumHallEffect] == pins;
      HallSteady(cur, kinds, NumHallEffect);
      assert HallPosts(cur, last, kinds, NumHallEffect) == HallPosts(cur, cur, kinds, NumHallEffect) by {
        HallPrefix(cur, last, cur, kinds, NumHallEffect);
      }
    }
  }

  /** Only the first n values take part in the first n iterations. */
  lemma {:induction false} HallPrefix(cur: seq<uint8>, last: seq<uint8>, last': seq<uint8>, kinds: seq<EventKind>, n: nat)
    requires n <= |cur| && n <= |last| && n <= |last'| && n <= |kinds| && n <= NumHallEffect + 1
    requires forall i | 0 <= i < n :: last[i] == last'[i]
    ensures HallPosts(cur, last, kinds, n) == HallPosts(cur, last', kinds, n)
  {
    if n > 0 {
      HallPrefix(cur, last, last', kinds, n - 1);
    }
  }

  /*------------------------------- CheckIRSensor ------------------------------*/

  /** The coin beam's event: the pin changed and is now low (the beam broken). */
  predicate CoinEdge(cur: bit, last: uint8) {
    cur != last && cur == 0
  }

  /** The number of ES_COIN_INSERT posts of a run of polls, from a last value. */
  function CoinPosts(last: uint8, pins: seq<bit>): (n: nat)
    ensures n <= |pins|
    decreases |pins|
  {
    if pins == [] then 0
    else (if CoinEdge(pins[0], last) then 1 else 0) + CoinPosts(pins[0], pins[1..])
  }

  /**
   * Posts never come from two polls in a row, since the beam must be seen
   * unbroken again before a new edge: at most one post per two polls, and
   * one more from the initial last value 1.
   */
  lemma {:induction false} CoinPostsBound(last: uint8, pins: seq<bit>)
    ensures CoinPosts(last, pins) <= (|pins| + (if last != 0 then 1 else 0)) / 2
    decreases |pins|
  {
    if pins != [] {
      CoinPostsBound(pins[0], pins[1..]);
    }
  }

  /** A beam held broken from the start posts once, however many polls see it. */
  lemma {:induction false} CoinHeldLow(last: uint8, n: nat)
    ensures CoinPosts(last, seq(n, _ => 0)) == (if n > 0 && last != 0 then 1 else 0)
  {
    if n > 0 {
      var pins: seq<bit> := seq(n, _ => 0);
      assert pins[1..] == seq(n - 1, _ => 0);
      CoinHeldLow(0, n - 1);
    }
  }

  /*------------------------------- CheckPotSensor ------------------------------*/

  /** abs(CurrentVal - LastVal): the unsigned difference wraps, then goes to int (abs(INT_MIN) stays INT_MIN). */
  function PotDiff(cur: uint32, last: uint32): int {
    var d := ToInt32(ToUint32(cur - last));
    if d == -0x8000_0000 then d else if d < 0 then -d else d
  }

  /** The condition of an ES_NEW_POT post. */
  predicate PotMoved(cur: uint32, last: uint32) {
    cur != last && PotDiff(cur, last) > 10
  }

  /** On the ADC's range 0..1023 the wrapped difference is the distance between the readings. */
  lemma PotDiffDistance(cur: uint32, last: uint32)
    requires cur <= 1023 && last <= 1023
    ensures PotDiff(cur, last) == (if cur < last then last - cur else cur - last)
    ensures PotMoved(cur, last) <==> (cur > last + 10 || last > cur + 10)
  {
    if cur < last {
      assert ToUint32(cur - last) == 0x1_0000_0000 - (last - cur);
    } else {
      assert ToUint32(cur - last) == cur - last;
    }
  }

  /** One poll of CheckPotSensor on the (first, last) statics: the new statics and the post, if any. */
  function PotPoll(first: bool, last: uint32, reading: uint32): (r: (bool, uint32, Option<Action>))
    ensures !r.0
    ensures r.2.Some? <==> !first && PotMoved(reading, last)
    ensures r.1 == (if first || r.2.Some? then reading else last)
  {
    if !first then
      if PotMoved(reading, last) then (false, reading, Some(PostAll(WithParam(NewPot, PotLevel(reading)))))
      else (false, last, None)
    else (false, reading, None)
  }

  /** The number of posts of a run of polls. */
  function PotPosts(first: bool, last: uint32, readings: seq<uint32>): (n: nat)
    ensures n <= |readings|
    decreases |readings|
  {
    if readings == [] then 0
    else
      var r := PotPoll(first, last, readings[0]);
      (if r.2.Some? then 1 else 0) + PotPosts(r.0, r.1, readings[1..])
  }

  /**
   * Hysteresis: after the baseline, readings that stay within 10 of the last
   * posted value never post, since the last value only moves on a post.
   */
  lemma {:induction false} PotWithinBand(last: uint32, readings: seq<uint32>)
    requires last <= 1023
    requires forall k | 0 <= k < |readings| :: readings[k] <= 1023 && readings[k] <= last + 10 && last <= readings[k] + 10
    ensures PotPosts(false, last, readings) == 0
    decreases |readings|
  {
    if readings != [] {
      PotDiffDistance(readings[0], last);
      PotWithinBand(last, readings[1..]);
    }
  }

  /** The level of a post is that of the reading, clamped to 1..100, and higher readings give higher levels. */
  lemma PotPostLevel(last: uint32, x: uint32, y: uint32)
    requires x <= y <= 1023 && PotMoved(x, last) && PotMoved(y, last)
    ensures var a := PotPoll(false, last, x).2; var b := PotPoll(false, last, y).2;
      a.Some? && b.Some? && a.value.event.kind == NewPot && 1 <= a.value.event.param <= b.value.event.param <= 100
  {
    PotLevelMonotone(x, y);
  }

  /*--------------------------------- the statics --------------------------------*/

  /**
   * The statics of the three checkers. The hall-effect arrays have a seventh
   * slot for the byte the loop reads and writes past each array's end.
   */
  class Checkers {
    const lastHall: array<uint8>   // LastHallEffectVals
    const hall: array<uint8>       // HallEffectVal
    const stray: EventKind         // what HallEffectEvents[6] reads
    var firstRun: bool
    var irCurrent: uint8
    var irLast: uint8
    var potCurrent: uint32
    var potLast: uint32
    var firstTrigger: bool
    var posted: seq<Action>

    ghost predicate Valid()
      reads this
    {
      lastHall.Length == NumHallEffect + 1 && hall.Length == NumHallEffect + 1 && lastHall != hall
    }

    /**
     * The statics at start-up: zeroed arrays (past their ends, whatever
     * is there), FirstRun and FirstTrigger set, the coin beam's LastVal 1.
     */
    constructor (hallBeyond: uint8, lastBeyond: uint8, stray: EventKind)
      ensures Valid() && this.stray == stray && firstRun && firstTrigger
      ensures hall[..] == [0, 0, 0, 0, 0, 0, hallBeyond] && lastHall[..] == [0, 0, 0, 0, 0, 0, lastBeyond]
      ensures irLast == 1 && potLast == 0 && posted == []
    {
      hall := new uint8[NumHallEffect + 1] [0, 0, 0, 0, 0, 0, hallBeyond];
      lastHall := new uint8[NumHallEffect + 1] [0, 0, 0, 0, 0, 0, lastBeyond];
      this.stray := stray;
      firstRun, firstTrigger := true, true;
      irCurrent, irLast := 0, 1;
      potCurrent, potLast := 0, 0;
      posted := [];
    }

    /**
     * CheckHallEffect on the six pin reads: `firstPins` is the extra read
     * the first poll makes into the last values (ignored afterwards) and
     * `pins` the read into the current values. The posts are those of
     * every edge against the last values, and every last value, the stray
     * slot included, is overwritten with the current one.
     */
    method CheckHallEffect(firstPins: seq<bit>, pins: seq<bit>) returns (returnVal: bool)
      requires Valid() && |firstPins| == NumHallEffect && |pins| == NumHallEffect
      modifies this`firstRun, this`posted, hall, lastHall
      ensures !firstRun
      ensures var cur := pins + [old(hall[NumHallEffect])];
        var last := if old(firstRun) then firstPins + [old(lastHall[NumHallEffect])] else old(lastHall[..]);
        var p := HallPosts(cur, last, HallEffectEvents(stray), NumHallEffect + 1);
        hall[..] == cur && lastHall[..] == cur && posted == old(posted) + p && (returnVal <==> p != [])
    {
      if firstRun {
        ReadPins(lastHall, firstPins);
        firstRun := false;
      }
      ReadPins(hall, pins);
      returnVal := Scan();
    }

    /** The six pin reads stored into one of the value arrays, whose slot past the end keeps its byte. */
    static method ReadPins(a: array<uint8>, pins: seq<bit>)
      requires a.Length == NumHallEffect + 1 && |pins| == NumHallEffect
      modifies a
      ensures a[..] == pins + [old(a[NumHallEffect])]
    {
      a[0] := pins[0];
      a[1] := pins[1];
      a[2] := pins[2];
      a[3] := pins[3];
      a[4] := pins[4];
      a[5] := pins[5];
    }

    /** The loop of CheckHallEffect: i = 0..NUM_HALL_EFFECT, a post per edge, each last value overwritten. */
    method Scan() returns (returnVal: bool)
      requires Valid()
      modifies lastHall, this`posted
      ensures var p := HallPosts(hall[..], old(lastHall[..]), HallEffectEvents(stray), NumHallEffect + 1);
        lastHall[..] == hall[..] && posted == old(posted) + p && (returnVal <==> p != [])
    {
      returnVal := false;
      var kinds := HallEffectEvents(stray);
      ghost var cur, last := hall[..], lastHall[..];
      var i := 0;
      while i <= NumHallEffect
        invariant 0 <= i <= NumHallEffect + 1
        invariant forall j | 0 <= j < i :: lastHall[j] == cur[j]
        invariant forall j | i <= j < NumHallEffect + 1 :: lastHall[j] == last[j]
        invariant posted == old(posted) + HallPosts(cur, last, kinds, i)
        invariant returnVal <==> HallPosts(cur, last, kinds, i) != []
      {
        assert lastHall[i] == last[i];
        if hall[i] != lastHall[i] && hall[i] == HallPinLo {
          posted := posted + [PostAll(WithParam(kinds[i], i))];
          returnVal := true;
        }
        lastHall[i] := hall[i];
        i := i + 1;
      }
      assert lastHall[..] == hall[..];
    }

    /** CheckIRSensor on the RB2 read: ES_COIN_INSERT on a falling edge; LastVal takes the read. */
    method CheckIRSensor(pin: bit) returns (returnVal: bool)
      modifies this`irCurrent, this`irLast, this`posted
      ensures returnVal == CoinEdge(pin, old(irLast))
      ensures irCurrent == pin && irLast == pin
      ensures posted == old(posted) + (if returnVal then [PostAll(Plain(CoinInsert))] else [])
    {
      returnVal := false;
      irCurrent := pin;
      if irCurrent != irLast && irCurrent == 0 {
        posted := posted + [PostAll(Plain(CoinInsert))];
        returnVal := true;
      }
      irLast := irCurrent;
    }

    /**
     * CheckPotSensor on the ADC_MultiRead sample: the first poll only
     * records it; later ones post ES_NEW_POT with the reading's level when
     * it has moved more than 10 from LastVal, which only a post updates.
     */
    method CheckPotSensor(reading: uint32) returns (returnVal: bool)
      modifies this`potCurrent, this`potLast, this`firstTrigger, this`posted
      ensures var r := PotPoll(old(firstTrigger), old(potLast), reading);
        firstTrigger == r.0 && potLast == r.1 && potCurrent == reading &&
        (returnVal <==> r.2.Some?) &&
        posted == old(posted) + (if r.2.Some? then [r.2.value] else [])
    {
      returnVal := false;
      potCurrent := reading;
      if !firstTrigger {
        if potCurrent != potLast && PotDiff(potCurrent, potLast) > 10 {
          var val := PotLevel(potCurrent);
          posted := posted + [PostAll(WithParam(NewPot, val))];
          returnVal := true;
          potLast := potCurrent;
        }
      } else {
        firstTrigger := false;
        potLast := potCurrent;
      }
    }
  }
}
