/*
 * The shift-register service (ProjectSource/ShiftService.c): on each
 * ES_UPDATE_SHIFT it bit-bangs the 13 entries of the shared LED vector into
 * the shift registers, one pin write per SHIFT_TIMER timeout (data, clock
 * high, clock low for each bit, last entry first), then pulses the output
 * latch low and high.
 *
 * The state names the source assigns (Waiting2Coins_P, GameOn_P,
 * UpdatingShift_P) are not members of ShiftState_t; they are read as
 * Waiting, Waiting and UpdatingShift.
 */
module Shift {
  import opened Framework

  /** ShiftState_t. */
  datatype ShiftState = Waiting | UpdatingShift

  /** A write to one of the three port pins the registers are wired to. */
  datatype PinWrite = Data(bit: nat) | Clk(level: nat) | Output(level: nat)

  /** NUM_SHIFT: the outputs used on the shift registers. */
  const NumShift := 13

  /** ShiftInterval: the timer period between pin writes, in ticks. */
  const ShiftInterval := 1

  /** The service's statics: NextState, ShiftsRemaining and the two function-local statics. */
  datatype ShiftVars = ShiftVars(state: ShiftState, shiftsRemaining: uint8, shiftStep: uint8, latchHi: bool)

  /** The statics as the program starts. */
  const InitialVars := ShiftVars(Waiting, NumShift, 0, true)

  /** The values the statics keep in every reachable state. */
  predicate ShiftInv(v: ShiftVars) {
    v.shiftsRemaining <= NumShift && v.shiftStep <= 2
  }

  /** The outcome of one event: new statics, the vector, the pin writes and the framework calls. */
  datatype ShiftResult = ShiftResult(vars: ShiftVars, vals: seq<uint8>, pins: seq<PinWrite>, actions: seq<Action>)

  /** The 13 zeros of the ES_INIT branch. */
  function ZeroVals(): (z: seq<uint8>)
    ensures |z| == NumShift && forall i | 0 <= i < NumShift :: z[i] == 0
  {
    seq(NumShift, _ => 0)
  }

  /** A uint8_t assigned to a one-bit port field keeps its low bit. */
  function PinBit(x: uint8): (b: nat)
    ensures b <= 1 && (x <= 1 ==> b == x)
  {
    x % 2
  }

  /** RunShiftService on one event. */
  function ShiftStep(v: ShiftVars, vals: seq<uint8>, priority: uint8, ev: Event): (r: ShiftResult)
    requires ShiftInv(v) && |vals| == NumShift
  {
    match v.state
    case Waiting =>
      if ev.kind == Init then
        ShiftResult(v, ZeroVals(), [], [Post(ShiftService, WithParam(UpdateShift, priority))])
      else if ev.kind == UpdateShift then
        ShiftResult(v.(state := UpdatingShift), vals, [Output(1)], [InitTimer(ShiftTimer, ShiftInterval)])
      else ShiftResult(v, vals, [], [])
    case UpdatingShift =>
      if ev.param == ShiftTimer && ev.kind == Timeout then
        if v.shiftsRemaining > 0 then
          if v.shiftStep == 0 then
            ShiftResult(v.(shiftStep := 1), vals, [Data(PinBit(vals[v.shiftsRemaining - 1]))],
                        [InitTimer(ShiftTimer, ShiftInterval)])
          else if v.shiftStep == 1 then
            ShiftResult(v.(shiftStep := 2), vals, [Clk(1)], [InitTimer(ShiftTimer, ShiftInterval)])
          else
            ShiftResult(v.(shiftStep := 0, shiftsRemaining := v.shiftsRemaining - 1), vals, [Clk(0)],
                        [InitTimer(ShiftTimer, ShiftInterval)])
        else if v.latchHi then
          ShiftResult(v.(latchHi := false), vals, [Output(0)], [InitTimer(ShiftTimer, ShiftInterval)])
        else
          ShiftResult(v.(state := Waiting, latchHi := true, shiftsRemaining := NumShift), vals, [Output(1)], [])
      else ShiftResult(v, vals, [], [])
  }

  lemma ShiftStepKeepsInvariant(v: ShiftVars, vals: seq<uint8>, priority: uint8, ev: Event)
    requires ShiftInv(v) && |vals| == NumShift
    ensures var r := ShiftStep(v, vals, priority, ev);
      ShiftInv(r.vars) && |r.vals| == NumShift
  {
  }

  /**
   * Waiting: ES_INIT zeroes the vector and posts ES_UPDATE_SHIFT (with the
   * priority as parameter); ES_UPDATE_SHIFT raises OUTPUT, arms the shift
   * timer and starts a transaction; anything else changes nothing.
   */
  lemma WaitingEvents(v: ShiftVars, vals: seq<uint8>, priority: uint8, ev: Event)
    requires ShiftInv(v) && |vals| == NumShift && v.state == Waiting
    ensures var r := ShiftStep(v, vals, priority, ev);
      (ev.kind == Init ==>
        (r.vals == ZeroVals() && r.vars == v && r.pins == [] &&
         r.actions == [Post(ShiftService, WithParam(UpdateShift, priority))])) &&
      (ev.kind == UpdateShift ==>
        (r.vars == v.(state := UpdatingShift) && r.vals == vals &&
         r.pins == [Output(1)] && r.actions == [InitTimer(ShiftTimer, ShiftInterval)])) &&
      (ev.kind != Init && ev.kind != UpdateShift ==> r == ShiftResult(v, vals, [], []))
  {
  }

  /**
   * UpdatingShift: every event other than a SHIFT_TIMER timeout is ignored
   * (an ES_UPDATE_SHIFT is dropped, not deferred); each SHIFT_TIMER timeout
   * makes exactly one pin write and leaves the vector as it was.
   */
  lemma UpdatingEvents(v: ShiftVars, vals: seq<uint8>, priority: uint8, ev: Event)
    requires ShiftInv(v) && |vals| == NumShift && v.state == UpdatingShift
    ensures var r := ShiftStep(v, vals, priority, ev);
      r.vals == vals &&
      (!(ev.kind == Timeout && ev.param == ShiftTimer) ==> r == ShiftResult(v, vals, [], [])) &&
      (ev.kind == Timeout && ev.param == ShiftTimer ==> |r.pins| == 1)
  {
  }

  /**
   * While bits remain, a timeout advances ShiftStep 0 -> 1 -> 2 -> 0, and only
   * the step back to 0 (clock low) takes one off ShiftsRemaining.
   */
  lemma BitCycle(v: ShiftVars, vals: seq<uint8>, priority: uint8)
    requires ShiftInv(v) && |vals| == NumShift && v.state == UpdatingShift && v.shiftsRemaining > 0
    ensures var r := ShiftStep(v, vals, priority, WithParam(Timeout, ShiftTimer));
      r.vars.shiftStep == (v.shiftStep + 1) % 3 &&
      (r.vars.shiftsRemaining == v.shiftsRemaining - 1 <==> v.shiftStep == 2) &&
      (v.shiftStep != 2 ==> r.vars.shiftsRemaining == v.shiftsRemaining) &&
      r.vars.state == UpdatingShift && r.vars.latchHi == v.latchHi &&
      r.pins == [if v.shiftStep == 0 then Data(PinBit(vals[v.shiftsRemaining - 1]))
                 else if v.shiftStep == 1 then Clk(1) else Clk(0)]
  {
  }

  /*------------------------------- event runs --------------------------------*/

  /** RunShiftService on each event in turn. */
  function Steps(v: ShiftVars, vals: seq<uint8>, priority: uint8, evs: seq<Event>): (r: ShiftResult)
    requires ShiftInv(v) && |vals| == NumShift
    ensures ShiftInv(r.vars) && |r.vals| == NumShift
    decreases |evs|
  {
    if evs == [] then ShiftResult(v, vals, [], [])
    else
      var a := ShiftStep(v, vals, priority, evs[0]);
      ShiftStepKeepsInvariant(v, vals, priority, evs[0]);
      var b := Steps(a.vars, a.vals, priority, evs[1..]);
      ShiftResult(b.vars, b.vals, a.pins + b.pins, a.actions + b.actions)
  }

  /** n SHIFT_TIMER timeouts. */
  function Ticks(n: nat): (evs: seq<Event>)
    ensures |evs| == n
  {
    if n == 0 then [] else [WithParam(Timeout, ShiftTimer)] + Ticks(n - 1)
  }

  /** n re-arms of the shift timer. */
  function Arms(n: nat): (acts: seq<Action>)
    ensures |acts| == n
  {
    if n == 0 then [] else [InitTimer(ShiftTimer, ShiftInterval)] + Arms(n - 1)
  }

  /** The pin writes for entries k-1 down to 0: data, clock high, clock low for each. */
  function BitPins(vals: seq<uint8>, k: nat): (ps: seq<PinWrite>)
    requires k <= |vals|
    ensures |ps| == 3 * k
  {
    if k == 0 then []
    else [Data(PinBit(vals[k - 1])), Clk(1), Clk(0)] + BitPins(vals, k - 1)
  }

  /** The first event of a run, then the rest from where it left off. */
  lemma StepsCons(v: ShiftVars, vals: seq<uint8>, priority: uint8, ev: Event, evs: seq<Event>)
    requires ShiftInv(v) && |vals| == NumShift
    ensures var a := ShiftStep(v, vals, priority, ev);
      ShiftInv(a.vars) && |a.vals| == NumShift &&
      var b := Steps(a.vars, a.vals, priority, evs);
      Steps(v, vals, priority, [ev] + evs) == ShiftResult(b.vars, b.vals, a.pins + b.pins, a.actions + b.actions)
  {
    ShiftStepKeepsInvariant(v, vals, priority, ev);
    assert ([ev] + evs)[0] == ev && ([ev] + evs)[1..] == evs;
  }

  /** Running a + b is running a, then b from where a left off. */
  lemma {:induction false} StepsAppend(v: ShiftVars, vals: seq<uint8>, priority: uint8, a: seq<Event>, b: seq<Event>)
    requires ShiftInv(v) && |vals| == NumShift
    ensures var x := Steps(v, vals, priority, a);
      var y := Steps(x.vars, x.vals, priority, b);
      Steps(v, vals, priority, a + b) == ShiftResult(y.vars, y.vals, x.pins + y.pins, x.actions + y.actions)
    decreases |a|
  {
    if a == [] {
      assert a + b == b;
    } else {
      var e, a' := a[0], a[1..];
      assert a == [e] + a';
      AppendAssoc([e], a', b);
      StepsCons(v, vals, priority, e, a');
      StepsCons(v, vals, priority, e, a' + b);
      var s := ShiftStep(v, vals, priority, e);
      StepsAppend(s.vars, s.vals, priority, a', b);
      var x := Steps(s.vars, s.vals, priority, a');
      var y := Steps(x.vars, x.vals, priority, b);
      AppendAssoc(s.pins, x.pins, y.pins);
      AppendAssoc(s.actions, x.actions, y.actions);
    }
  }

  /** Three timeouts send one bit: its data value, clock high, clock low. */
  lemma OneBit(v: ShiftVars, vals: seq<uint8>, priority: uint8)
    requires ShiftInv(v) && |vals| == NumShift && v.state == UpdatingShift && v.shiftStep == 0 && v.shiftsRemaining > 0
    ensures Steps(v, vals, priority, Ticks(3)) ==
      ShiftResult(v.(shiftsRemaining := v.shiftsRemaining - 1), vals,
                  [Data(PinBit(vals[v.shiftsRemaining - 1])), Clk(1), Clk(0)], Arms(3))
  {
    var t := WithParam(Timeout, ShiftTimer);
    assert Ticks(3) == [t] + ([t] + ([t] + []));
    StepsCons(v, vals, priority, t, [t] + ([t] + []));
    StepsCons(v.(shiftStep := 1), vals, priority, t, [t] + []);
    StepsCons(v.(shiftStep := 2), vals, priority, t, []);
  }

  /** One bit, then whatever follows from where it leaves off. */
  lemma OneBitThen(v: ShiftVars, vals: seq<uint8>, priority: uint8, rest: seq<Event>)
    requires ShiftInv(v) && |vals| == NumShift && v.state == UpdatingShift && v.shiftStep == 0 && v.shiftsRemaining > 0
    ensures var y := Steps(v.(shiftsRemaining := v.shiftsRemaining - 1), vals, priority, rest);
      Steps(v, vals, priority, Ticks(3) + rest) ==
        ShiftResult(y.vars, y.vals, [Data(PinBit(vals[v.shiftsRemaining - 1])), Clk(1), Clk(0)] + y.pins, Arms(3) + y.actions)
  {
    StepsAppend(v, vals, priority, Ticks(3), rest);
    OneBit(v, vals, priority);
  }

  /** 3k timeouts send the entries k-1 down to 0, leaving no bits to send. */
  lemma {:induction false} AllBits(v: ShiftVars, vals: seq<uint8>, priority: uint8)
    requires ShiftInv(v) && |vals| == NumShift && v.state == UpdatingShift && v.shiftStep == 0
    ensures Steps(v, vals, priority, Ticks(3 * v.shiftsRemaining)) ==
      ShiftResult(v.(shiftsRemaining := 0), vals, BitPins(vals, v.shiftsRemaining), Arms(3 * v.shiftsRemaining))
    decreases v.shiftsRemaining
  {
    var k := v.shiftsRemaining;
    if k > 0 {
      TicksAppend(3, 3 * (k - 1));
      OneBitThen(v, vals, priority, Ticks(3 * (k - 1)));
      AllBits(v.(shiftsRemaining := k - 1), vals, priority);
      ArmsAppend(3, 3 * (k - 1));
    }
  }

  lemma {:induction false} TicksAppend(m: nat, n: nat)
    ensures Ticks(m) + Ticks(n) == Ticks(m + n)
    decreases m
  {
    if m == 0 {
      assert Ticks(0) + Ticks(n) == Ticks(n);
    } else {
      TicksAppend(m - 1, n);
      AppendAssoc([WithParam(Timeout, ShiftTimer)], Ticks(m - 1), Ticks(n));
    }
  }

  lemma {:induction false} ArmsAppend(m: nat, n: nat)
    ensures Arms(m) + Arms(n) == Arms(m + n)
    decreases m
  {
    if m == 0 {
      assert Arms(0) + Arms(n) == Arms(n);
    } else {
      ArmsAppend(m - 1, n);
      AppendAssoc([InitTimer(ShiftTimer, ShiftInterval)], Arms(m - 1), Arms(n));
    }
  }

  /** The two latch timeouts: OUTPUT low, then OUTPUT high and back to Waiting at rest. */
  lemma Latch(v: ShiftVars, vals: seq<uint8>, priority: uint8)
    requires |vals| == NumShift && v == ShiftVars(UpdatingShift, 0, 0, true)
    ensures Steps(v, vals, priority, Ticks(2)) ==
      ShiftResult(InitialVars, vals, [Output(0), Output(1)], Arms(1))
  {
    var t := WithParam(Timeout, ShiftTimer);
    assert Ticks(2) == [t] + ([t] + []);
    StepsCons(v, vals, priority, t, [t] + []);
    StepsCons(v.(latchHi := false), vals, priority, t, []);
  }

  /**
   * One transaction from rest: ES_UPDATE_SHIFT and 41 SHIFT_TIMER timeouts
   * write OUTPUT high, then the 13 entries last one first (data, clock high,
   * clock low each), then OUTPUT low on timeout 40 and high on timeout 41;
   * the timer is armed 41 times, the vector is only read, and the service is
   * back at rest.
   */
  lemma {:induction false} Transaction(vals: seq<uint8>, priority: uint8)
    requires |vals| == NumShift
    ensures var r := Steps(InitialVars, vals, priority, [Plain(UpdateShift)] + Ticks(3 * NumShift + 2));
      r.vars == InitialVars && r.vals == vals &&
      r.pins == [Output(1)] + BitPins(vals, NumShift) + [Output(0), Output(1)] &&
      r.actions == Arms(3 * NumShift + 2) && |r.actions| == 41
  {
    var v := InitialVars.(state := UpdatingShift);
    StepsCons(InitialVars, vals, priority, Plain(UpdateShift), Ticks(3 * NumShift + 2));
    TicksAppend(3 * NumShift, 2);
    StepsAppend(v, vals, priority, Ticks(3 * NumShift), Ticks(2));
    AllBits(v, vals, priority);
    Latch(v.(shiftsRemaining := 0), vals, priority);
    AppendAssoc([Output(1)], BitPins(vals, NumShift), [Output(0), Output(1)]);
    ArmsAppend(3 * NumShift, 1);
    ArmsAppend(1, 3 * NumShift + 1);
  }

  /** The data bits of a transaction are the vector's entries, last first. */
  lemma {:induction false} BitPinsData(vals: seq<uint8>, k: nat, i: nat)
    requires k <= |vals| && i < k
    ensures BitPins(vals, k)[3 * i] == Data(PinBit(vals[k - 1 - i])) &&
      BitPins(vals, k)[3 * i + 1] == Clk(1) && BitPins(vals, k)[3 * i + 2] == Clk(0)
    decreases k
  {
    if i > 0 {
      BitPinsData(vals, k - 1, i - 1);
    }
  }

  /*------------------------------- the service -------------------------------*/

  /** The service's statics, the shared LED vector, and the pin writes and framework calls so far. */
  class Service {
    const priority: uint8
    const vals: array<uint8>
    var state: ShiftState
    var shiftsRemaining: uint8
    var shiftStep: uint8
    var latchHi: bool
    var pins: seq<PinWrite>
    var out: seq<Action>

    ghost predicate Valid()
      reads this
    {
      vals.Length == NumShift && ShiftInv(Vars())
    }

    function Vars(): ShiftVars
      reads this
    {
      ShiftVars(state, shiftsRemaining, shiftStep, latchHi)
    }

    /** InitShiftService: OUTPUT high, Waiting, and ES_INIT posted to itself. */
    constructor (priority: uint8, vals: array<uint8>)
      requires vals.Length == NumShift
      ensures Valid() && Vars() == InitialVars && this.priority == priority && this.vals == vals
      ensures pins == [Output(1)] && out == [Post(ShiftService, Plain(Init))]
    {
      this.priority := priority;
      this.vals := vals;
      state := Waiting;
      shiftsRemaining := NumShift;
      shiftStep := 0;
      latchHi := true;
      pins := [Output(1)];
      out := [Post(ShiftService, Plain(Init))];
    }

    /** The memcpy of 13 zeros into ShiftRegisterVals. */
    method ClearVals()
      requires vals.Length == NumShift
      modifies vals
      ensures vals[..] == ZeroVals()
    {
      var i := 0;
      while i < NumShift
        invariant 0 <= i <= NumShift
        invariant forall j | 0 <= j < i :: vals[j] == 0
      {
        vals[i] := 0;
        i := i + 1;
      }
    }

    /** RunShiftService. */
    method Run(ev: Event)
      requires Valid()
      modifies this, vals
      ensures Valid()
      ensures var r := ShiftStep(old(Vars()), old(vals[..]), priority, ev);
        Vars() == r.vars && vals[..] == r.vals && pins == old(pins) + r.pins && out == old(out) + r.actions
    {
      ShiftStepKeepsInvariant(Vars(), vals[..], priority, ev);
      match state
      case Waiting =>
        if ev.kind == Init {
          ClearVals();
          out := out + [Post(ShiftService, WithParam(UpdateShift, priority))];
        } else if ev.kind == UpdateShift {
          pins := pins + [Output(1)];
          state := UpdatingShift;
          out := out + [InitTimer(ShiftTimer, ShiftInterval)];
        }
      case UpdatingShift =>
        if ev.param == ShiftTimer && ev.kind == Timeout {
          if shiftsRemaining > 0 {
            if shiftStep == 0 {
              pins := pins + [Data(PinBit(vals[shiftsRemaining - 1]))];
              out := out + [InitTimer(ShiftTimer, ShiftInterval)];
              shiftStep := shiftStep + 1;
            } else if shiftStep == 1 {
              pins := pins + [Clk(1)];
              out := out + [InitTimer(ShiftTimer, ShiftInterval)];
              shiftStep := shiftStep + 1;
            } else if shiftStep == 2 {
              pins := pins + [Clk(0)];
              out := out + [InitTimer(ShiftTimer, ShiftInterval)];
              shiftStep := 0;
              shiftsRemaining := shiftsRemaining - 1;
            }
          } else if latchHi {
            pins := pins + [Output(0)];
            out := out + [InitTimer(ShiftTimer, ShiftInterval)];
            latchHi := false;
          } else {
            pins := pins + [Output(1)];
            latchHi := true;
            state := Waiting;
            shiftsRemaining := NumShift;
          }
        }
    }
  }
}
