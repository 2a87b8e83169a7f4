/*
 * What the services of the arcade game share: the event record of the
 * events-and-services framework, the identities of the services and timers,
 * and the calls into the framework (posting, timers, recall of deferred
 * events), which the model records as actions instead of performing them.
 */
module Framework {

  /** An optional value; `None` stands for C's NULL. */
  datatype Option<T> = None | Some(value: T)

  /** C's fixed-width unsigned integers, as subsets of int. */
  type uint8 = x: int | 0 <= x < 0x100
  type uint16 = x: int | 0 <= x < 0x1_0000
  type uint32 = x: int | 0 <= x < 0x1_0000_0000

  /** Conversion to uint8 / uint16 / uint32 (C keeps the low bits). */
  function ToUint8(x: int): uint8 { x % 0x100 }
  function ToUint16(x: int): uint16 { x % 0x1_0000 }
  function ToUint32(x: int): uint32 { x % 0x1_0000_0000 }

  /** C's signed 8- and 16-bit integers. */
  type int8 = x: int | -0x80 <= x < 0x80
  type int16 = x: int | -0x8000 <= x < 0x8000

  /** Conversion to int16 (two's complement wrap-around of the low 16 bits). */
  function ToInt16(x: int): int16 {
    var low := x % 0x1_0000;
    if low < 0x8000 then low else low - 0x1_0000
  }

  /**
   * The difficulty level of a potentiometer reading x: 100 * x / 1023 in
   * unsigned 32-bit arithmetic, stored in an int16 and clamped to 1..100.
   */
  function PotLevel(x: uint32): (l: int16)
    ensures 1 <= l <= 100
  {
    var val := ToInt16(ToUint32(100 * x) / 1023);
    if val <= 0 then 1 else if val >= 100 then 100 else val
  }

  /**
   * On the ADC's range 0..1023 nothing wraps: the level is 100 * x / 1023
   * raised to at least 1, and the ends of the range give 1 and 100.
   */
  lemma PotLevelScale(x: uint32)
    requires x <= 1023
    ensures PotLevel(x) == (if 100 * x / 1023 == 0 then 1 else 100 * x / 1023)
    ensures PotLevel(0) == 1 && PotLevel(1023) == 100
  {
    var q := 100 * x / 1023;
    assert 0 <= q <= 100 by {
      assert 100 * x <= 102300;
    }
    assert ToUint32(100 * x) == 100 * x;
    assert ToInt16(q) == q;
  }

  /** A larger reading never gives a smaller level. */
  lemma PotLevelMonotone(x: uint32, y: uint32)
    requires x <= y <= 1023
    ensures PotLevel(x) <= PotLevel(y)
  {
    PotLevelScale(x);
    PotLevelScale(y);
    assert 100 * x <= 100 * y;
  }

  /** The event kinds the application uses. */
  datatype EventKind =
    | NoEvent | Init | Timeout | NewKey
    | CoinInsert | PlanetHit | AsteroidHit | BlackHoleHit | NewPot
    | Buzz | NewWord | Scroll | RowUpdate | UpdateShift

  /**
   * ES_Event_t: a kind, a 16-bit parameter and a text payload. The payload is
   * the contents of the C string the event points to ("" where the source
   * leaves the message field unset).
   */
  datatype Event = Event(kind: EventKind, param: uint16, msg: string)

  function Plain(kind: EventKind): Event { Event(kind, 0, "") }
  function WithParam(kind: EventKind, param: uint16): Event { Event(kind, param, "") }

  /** The services that events are posted to. */
  datatype ServiceId = GameService | LedService | ShiftService | BuzzService

  /** Every call the core makes into the framework. */
  datatype Action =
    | Post(to: ServiceId, event: Event)          // ES_PostToService
    | PostAll(event: Event)                      // ES_PostAll
    | InitTimer(timer: int, ticks: int)          // ES_Timer_InitTimer (re-arms)
    | StopTimer(timer: int)                      // ES_Timer_StopTimer
    | Recall(to: ServiceId, events: seq<Event>)  // ES_RecallEvents, oldest first

  /** Timer identities (the parameter of a Timeout event). */
  const ScrollTimer := 6
  const CoinDelayTimer := 7
  const BuzzerTimer := 8
  const ShiftTimer := 9
  const UserInputTimer := 10
  const CountdownTimer := 11
  const DelayTimer := 12
  const BlackHoleTimer := 13
  const PlanetTimer := 14

  /**
   * ES_DeferEvent on a bounded FIFO: the event is appended when there is room;
   * the boolean says whether it was.
   */
  function Defer(queue: seq<Event>, capacity: nat, e: Event): (r: (seq<Event>, bool))
    ensures r.1 <==> |queue| < capacity
    ensures r.1 ==> r.0 == queue + [e]
    ensures !r.1 ==> r.0 == queue
  {
    if |queue| < capacity then (queue + [e], true) else (queue, false)
  }

  /** Concatenation is associative (stated once, so that proofs about long traces need not re-derive it). */
  lemma AppendAssoc<T>(a: seq<T>, b: seq<T>, c: seq<T>)
    ensures (a + b) + c == a + (b + c)
  {
  }
}
