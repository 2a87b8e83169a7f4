/*
 * The LED display service (ProjectSource/LEDService.c): an IDLE/UPDATING
 * machine in front of the dot-matrix engine. While IDLE it composes and
 * centres a word on one display, changes the scrolling string, or steps the
 * string across display 2 on each scroll-timer tick; every such change puts it
 * in UPDATING, where it copies the buffers out one row per self-posted
 * ES_ROWUPDATE and parks timer, word and scroll events in a bounded deferral
 * queue, recalling them all once the copy is complete.
 */
module Led {
  import opened Framework
  import opened DotMatrix

  /** LED_State_t. */
  datatype LedState = Idle | Updating

  /** The service's statics other than the engine's. */
  datatype LedVars = LedVars(
    state: LedState,
    scrollString: Option<string>,
    scrollIndex: uint8,
    scrollLen: uint8,
    deferred: seq<Event>)

  /** The scroll timer's period, in ticks. */
  const ScrollTicks := 1200

  /** Each character of a word takes this many columns. */
  const ColumnsPerChar: uint8 := 4

  /** The display the scrolling string runs across. */
  const ScrollDisplayId: uint8 := 2

  /** A character cast to unsigned char. */
  function CharCode(c: char): uint8 { (c as int) % 0x100 }

  /** s[i] as unsigned char, where index |s| holds the terminating NUL. */
  function CharAt(s: string, i: nat): uint8 {
    if i < |s| then CharCode(s[i]) else 0
  }

  /** strlen(s) stored in a uint8_t. */
  function Length8(s: string): (n: uint8)
    ensures n <= |s| && (|s| < 0x100 ==> n == |s|)
  {
    ToUint8(|s|)
  }

  /** C's int division by 2, which truncates toward zero. */
  function HalfTowardZero(x: int): int {
    if x >= 0 then x / 2 else -((-x) / 2)
  }

  /**
   * The column count the word is shifted by to centre it:
   * (32 - WordLength*4)/2 in int, passed on as a uint8_t. Up to eight
   * characters this leaves equal margins on both sides. Beyond that the
   * negative quotient 16 - 2*len wraps modulo 256: from 9 to 120 and from
   * 137 to 248 characters to a count of 32 or more, which C leaves undefined
   * and ShiftLeft resolves as 0; from 121 to 136 and from 249 to 255
   * characters back below 32, to a real shift.
   */
  function CentreShift(len: uint8): (n: uint8)
    ensures len <= 8 ==> n + 4 * len + n == 32
    ensures 9 <= len <= 120 ==> n >= 32
    ensures 121 <= len <= 136 ==> n < 32 && n + 2 * len == 272
    ensures 137 <= len ==> n + 2 * len == 528 && (n < 32 <==> len >= 249)
  {
    ToUint8(HalfTowardZero(32 - 4 * len))
  }

  /*----------------------------- composing a word ----------------------------*/

  /** The first len characters of msg as unsigned chars. */
  function WordChars(msg: string, len: nat): (cs: seq<uint8>)
    requires len <= |msg|
    ensures |cs| == len && forall i | 0 <= i < len :: cs[i] == CharCode(msg[i])
  {
    seq(len, i requires 0 <= i < len => CharCode(msg[i]))
  }

  /**
   * The frame after the loop of the ES_NEW_WORD branch has run n times:
   * each character after the first shifts the display 4 columns before it is
   * added.
   */
  function ComposedPrefix(f: Frame, font: Font, cs: seq<uint8>, n: nat, which: uint8): (h: Frame)
    requires f.Valid() && n <= |cs|
    ensures h.Valid()
    decreases n
  {
    if n == 0 then f
    else
      var g := ComposedPrefix(f, font, cs, n - 1, which);
      AddCharToDisplay(if n > 1 then ScrollDisplay(g, ColumnsPerChar, which) else g, font, cs[n - 1], which)
  }

  /** The ES_NEW_WORD frame: clear, compose every character, then centre. */
  function NewWordFrame(f: Frame, font: Font, msg: string, which: uint8): (h: Frame)
    requires f.Valid()
    ensures h.Valid()
  {
    var len := Length8(msg);
    var cs := WordChars(msg, len);
    ScrollDisplay(ComposedPrefix(ClearDisplay(f, which), font, cs, len, which), CentreShift(len), which)
  }

  /** The display a frame's rows are taken from (1 or 2). */
  function Rows(f: Frame, which: uint8): seq<bv32> {
    if which == 1 then f.d1 else f.d2
  }

  /**
   * Reference definition of one composed line: the glyph lines of the
   * characters side by side, the first character in the most significant
   * columns, 4 columns per character.
   */
  function WordRow(font: Font, cs: seq<uint8>, line: uint8): bv32
    decreases |cs|
  {
    if cs == [] then 0
    else (WordRow(font, cs[..|cs| - 1], line) << 4) | (font(cs[|cs| - 1], line) as bv32)
  }

  /** The cell past the buffer: font line 7 of every character ORed in, unshifted. */
  function OrLines(cell: bv32, font: Font, cs: seq<uint8>): bv32
    decreases |cs|
  {
    if cs == [] then cell
    else OrIntoLowByte(OrLines(cell, font, cs[..|cs| - 1]), font(cs[|cs| - 1], 7))
  }

  /** A 4-column scroll of a row is the plain shift. */
  lemma ShiftLeftBy4(w: bv32)
    ensures ShiftLeft(w, 4) == w << 4
  {
  }

  /**
   * The rows of one display after composing cs on blank rows: row 0 blank,
   * rows 1..7 the composed lines 0..6, and line 7 of every character ORed
   * into the cell past the buffer, which held `cell` before.
   */
  ghost predicate ComposedLines(rows: seq<bv32>, font: Font, cs: seq<uint8>, cell: bv32) {
    |rows| == NumRows + 1 && rows[0] == 0 &&
    (forall r | 1 <= r < NumRows :: rows[r] == WordRow(font, cs, (r - 1) as uint8)) &&
    rows[NumRows] == OrLines(cell, font, cs)
  }

  /** One more character: shift (unless it is the first) and add its glyph. */
  lemma GlyphStep(rows: seq<bv32>, font: Font, cs: seq<uint8>, c: uint8, cell: bv32)
    requires ComposedLines(rows, font, cs, cell)
    ensures ComposedLines(WithGlyph(if cs == [] then rows else ShiftedRows(rows, 4), font, c), font, cs + [c], cell)
  {
    var s := if cs == [] then rows else ShiftedRows(rows, 4);
    var h := WithGlyph(s, font, c);
    var cs' := cs + [c];
    assert cs'[..|cs'| - 1] == cs;
    assert cs'[|cs'| - 1] == c;
    forall r | 1 <= r < NumRows
      ensures h[r] == WordRow(font, cs', (r - 1) as uint8)
    {
      var line := (r - 1) as uint8;
      assert h[line as int + 1] == OrIntoLowByte(s[r], font(c, line));
      if cs != [] {
        ShiftLeftBy4(WordRow(font, cs, line));
      }
    }
    assert h[(NumRows - 1) + 1] == OrIntoLowByte(s[NumRows], font(c, 7));
  }

  /** GlyphStep on a frame: the other display is left alone. */
  lemma ComposeFrameStep(g: Frame, font: Font, cs: seq<uint8>, c: uint8, cell: bv32, which: uint8)
    requires g.Valid() && (which == 1 || which == 2) && ComposedLines(Rows(g, which), font, cs, cell)
    ensures var g' := if cs != [] then ScrollDisplay(g, ColumnsPerChar, which) else g;
      var h := AddCharToDisplay(g', font, c, which);
      ComposedLines(Rows(h, which), font, cs + [c], cell) &&
      (which == 1 ==> h.d2 == g.d2) && (which == 2 ==> h.d1 == g.d1)
  {
    var g' := if cs != [] then ScrollDisplay(g, ColumnsPerChar, which) else g;
    assert Rows(g', which) == if cs == [] then Rows(g, which) else ShiftedRows(Rows(g, which), 4);
    GlyphStep(Rows(g, which), font, cs, c, cell);
  }

  /**
   * Composing the first n characters on a display whose rows are blank:
   * the composed lines as ComposedLines states them, and the other display
   * untouched.
   */
  lemma {:induction false} ComposedRows(f: Frame, font: Font, cs: seq<uint8>, n: nat, which: uint8)
    requires f.Valid() && n <= |cs| && (which == 1 || which == 2)
    requires forall r | 0 <= r < NumRows :: Rows(f, which)[r] == 0
    ensures var h := ComposedPrefix(f, font, cs, n, which);
      ComposedLines(Rows(h, which), font, cs[..n], Rows(f, which)[NumRows]) &&
      (which == 1 ==> h.d2 == f.d2) && (which == 2 ==> h.d1 == f.d1)
    decreases n
  {
    if n == 0 {
      assert cs[..0] == [];
    } else {
      ComposedRows(f, font, cs, n - 1, which);
      var g := ComposedPrefix(f, font, cs, n - 1, which);
      assert n > 1 <==> cs[..n - 1] != [];
      ComposeFrameStep(g, font, cs[..n - 1], cs[n - 1], Rows(f, which)[NumRows], which);
      assert cs[..n - 1] + [cs[n - 1]] == cs[..n];
    }
  }

  /** On a display id other than 1 or 2 the composition changes nothing. */
  lemma {:induction false} ComposedOther(f: Frame, font: Font, cs: seq<uint8>, n: nat, which: uint8)
    requires f.Valid() && n <= |cs| && which != 1 && which != 2
    ensures ComposedPrefix(f, font, cs, n, which) == f
    decreases n
  {
    if n > 0 {
      ComposedOther(f, font, cs, n - 1, which);
    }
  }

  /**
   * ES_NEW_WORD on display 1 or 2: row 0 is blank, rows 1..7 hold the lines
   * of the word shifted by the centring count, the cell past the buffer
   * collects line 7 and the other display is untouched; any other display id
   * leaves the frame as it was.
   */
  lemma NewWordRows(f: Frame, font: Font, msg: string, which: uint8)
    requires f.Valid()
    ensures var h := NewWordFrame(f, font, msg, which);
      var len := Length8(msg);
      var cs := WordChars(msg, len);
      (which == 1 || which == 2 ==>
        Rows(h, which)[0] == 0 &&
        (forall r | 1 <= r < NumRows ::
          Rows(h, which)[r] == ShiftLeft(WordRow(font, cs, (r - 1) as uint8), CentreShift(len))) &&
        Rows(h, which)[NumRows] == OrLines(Rows(f, which)[NumRows], font, cs) &&
        (which == 1 ==> h.d2 == f.d2) && (which == 2 ==> h.d1 == f.d1)) &&
      (which != 1 && which != 2 ==> h == f)
  {
    var len := Length8(msg);
    var cs := WordChars(msg, len);
    var c := ClearDisplay(f, which);
    if which == 1 || which == 2 {
      ComposedRows(c, font, cs, len, which);
      assert cs[..len] == cs;
      var g := ComposedPrefix(c, font, cs, len, which);
      assert Rows(NewWordFrame(f, font, msg, which), which) == ShiftedRows(Rows(g, which), CentreShift(len));
    } else {
      ComposedOther(c, font, cs, len, which);
    }
  }

  /*--------------------------------- the step --------------------------------*/

  /** ScrollIndex after the wrap check of a scroll tick. */
  function ScrollTickIndex(v: LedVars): uint8 {
    if v.scrollIndex >= v.scrollLen then 0 else v.scrollIndex
  }

  /** The outcome of one event: the new statics, the new engine state, the framework calls and the SPI transfers. */
  datatype LedResult = LedResult(vars: LedVars, engine: EngineState, actions: seq<Action>, calls: seq<Transfer>)

  /** Events the UPDATING state parks in the deferral queue. */
  predicate Deferrable(e: Event) {
    e.kind == Timeout || e.kind == NewWord || e.kind == Scroll
  }

  /**
   * The buffers after a scroll tick. The arguments reach
   * DM_AddChar2DisplayBuffer in the order of the source: character code 2
   * goes onto the display numbered by the current character c.
   */
  function ScrollTickFrame(f: Frame, font: Font, c: uint8): (h: Frame)
    requires f.Valid()
    ensures h.Valid()
  {
    AddCharToDisplay(ScrollDisplay(f, ColumnsPerChar, ScrollDisplayId), font, ScrollDisplayId, c)
  }

  /** RunLEDService in IDLE. */
  function IdleStep(v: LedVars, es: EngineState, font: Font, ev: Event): (r: LedResult)
    requires es.Valid()
    ensures r.engine.Valid()
  {
    if ev.kind == Timeout && ev.param == ScrollTimer && v.scrollString.Some? then
      var i := ScrollTickIndex(v);
      LedResult(v.(state := Updating, scrollIndex := ToUint8(i + 1)),
                es.(frame := ScrollTickFrame(es.frame, font, CharAt(v.scrollString.value, i))),
                [Post(LedService, Plain(RowUpdate)), InitTimer(ScrollTimer, ScrollTicks)], [])
    else if ev.kind == Scroll then
      LedResult(v.(scrollString := Some(ev.msg), scrollLen := Length8(ev.msg), scrollIndex := 0), es,
                [StopTimer(ScrollTimer), InitTimer(ScrollTimer, ScrollTicks)], [])
    else if ev.kind == NewWord then
      LedResult(v.(state := Updating, scrollIndex := 0),
                es.(frame := NewWordFrame(es.frame, font, ev.msg, ToUint8(ev.param))),
                [StopTimer(ScrollTimer), Post(LedService, Plain(RowUpdate))], [])
    else LedResult(v, es, [], [])
  }

  /** RunLEDService in UPDATING. */
  function UpdatingStep(v: LedVars, es: EngineState, capacity: nat, ev: Event): (r: LedResult)
    requires es.Valid()
    ensures r.engine.Valid()
  {
    if Deferrable(ev) then
      LedResult(v.(deferred := Defer(v.deferred, capacity, ev).0), es, [], [])
    else if ev.kind == RowUpdate then
      var u := UpdateStep(es);
      if u.done then
        LedResult(v.(state := Idle, deferred := []), u.state, [Recall(LedService, v.deferred)], u.calls)
      else
        LedResult(v, u.state, [Post(LedService, ev)], u.calls)
    else LedResult(v, es, [], [])
  }

  /** RunLEDService on one event. */
  function LedStep(v: LedVars, es: EngineState, font: Font, capacity: nat, ev: Event): (r: LedResult)
    requires es.Valid()
    ensures r.engine.Valid()
  {
    match v.state
    case Idle => IdleStep(v, es, font, ev)
    case Updating => UpdatingStep(v, es, capacity, ev)
  }

  /**
   * What the service keeps true: the queue never exceeds its capacity and is
   * empty while IDLE, and a scrolling string's stored length is its strlen
   * as a uint8 with the index at most that length (at most 1 for a string
   * of stored length 0, whose only character read is the NUL).
   */
  ghost predicate LedInv(v: LedVars, capacity: nat) {
    |v.deferred| <= capacity &&
    (v.state == Idle ==> v.deferred == []) &&
    (v.scrollString.Some? ==>
      v.scrollLen == Length8(v.scrollString.value) &&
      v.scrollIndex <= if v.scrollLen == 0 then 1 else v.scrollLen)
  }

  lemma LedStepKeepsInvariant(v: LedVars, es: EngineState, font: Font, capacity: nat, ev: Event)
    requires es.Valid() && LedInv(v, capacity)
    ensures LedInv(LedStep(v, es, font, capacity, ev).vars, capacity)
  {
  }

  /** A scroll tick reads inside the string: below the stored length, or the first character when that is 0. */
  lemma ScrollTickIndexInside(v: LedVars, capacity: nat)
    requires LedInv(v, capacity) && v.scrollString.Some?
    ensures var i := ScrollTickIndex(v);
      (i < v.scrollLen || (i == 0 && v.scrollLen == 0)) && i <= |v.scrollString.value| &&
      (v.scrollLen > 0 ==> i < |v.scrollString.value|)
  {
  }

  /**
   * CurrentState changes exactly on ES_NEW_WORD or a scroll tick with a
   * string while IDLE, and on the ES_ROWUPDATE that completes the copy while
   * UPDATING; every other event leaves it alone.
   */
  lemma LedStateChanges(v: LedVars, es: EngineState, font: Font, capacity: nat, ev: Event)
    requires es.Valid()
    ensures LedStep(v, es, font, capacity, ev).vars.state != v.state <==>
      (v.state == Idle &&
        (ev.kind == NewWord || (ev.kind == Timeout && ev.param == ScrollTimer && v.scrollString.Some?))) ||
      (v.state == Updating && ev.kind == RowUpdate && UpdateStep(es).done)
  {
  }

  /**
   * As written, a scroll tick whose character is not code 1 or 2 only shifts
   * display 2: the character never reaches the buffer.
   */
  lemma ScrollTickAddsNoGlyph(v: LedVars, es: EngineState, font: Font, capacity: nat, ev: Event)
    requires es.Valid() && v.state == Idle && ev.kind == Timeout && ev.param == ScrollTimer
    requires v.scrollString.Some? && CharAt(v.scrollString.value, ScrollTickIndex(v)) !in {1, 2}
    ensures LedStep(v, es, font, capacity, ev).engine.frame == ScrollDisplay(es.frame, ColumnsPerChar, ScrollDisplayId)
  {
  }

  /*------------------------------- event runs --------------------------------*/

  /** RunLEDService on each event in turn. */
  function Steps(v: LedVars, es: EngineState, font: Font, capacity: nat, evs: seq<Event>): (r: LedResult)
    requires es.Valid()
    ensures r.engine.Valid()
    decreases |evs|
  {
    if evs == [] then LedResult(v, es, [], [])
    else
      var a := LedStep(v, es, font, capacity, evs[0]);
      var b := Steps(a.vars, a.engine, font, capacity, evs[1..]);
      LedResult(b.vars, b.engine, a.actions + b.actions, a.calls + b.calls)
  }

  /** ES_DeferEvent applied to each event in turn. */
  function DeferAll(queue: seq<Event>, capacity: nat, evs: seq<Event>): (q: seq<Event>)
    decreases |evs|
  {
    if evs == [] then queue else DeferAll(Defer(queue, capacity, evs[0]).0, capacity, evs[1..])
  }

  /** The queue keeps the oldest events: everything that fits, in arrival order, and drops the rest. */
  lemma {:induction false} DeferAllKeepsOldest(queue: seq<Event>, capacity: nat, evs: seq<Event>)
    requires |queue| <= capacity
    ensures var n := if |queue| + |evs| <= capacity then |queue| + |evs| else capacity;
      DeferAll(queue, capacity, evs) == (queue + evs)[..n]
    decreases |evs|
  {
    if evs != [] {
      var q := Defer(queue, capacity, evs[0]).0;
      DeferAllKeepsOldest(q, capacity, evs[1..]);
      if |queue| < capacity {
        assert q + evs[1..] == queue + evs;
      } else {
        assert (q + evs[1..])[..capacity] == q == (queue + evs)[..capacity];
      }
    } else {
      assert queue + evs == queue;
    }
  }

  /** Every event of evs is one UPDATING parks. */
  predicate AllDeferrable(evs: seq<Event>) {
    forall i | 0 <= i < |evs| :: Deferrable(evs[i])
  }

  /** One deferrable event while UPDATING: it is queued and nothing else happens. */
  lemma DeferStep(v: LedVars, es: EngineState, font: Font, capacity: nat, ev: Event)
    requires es.Valid() && v.state == Updating && Deferrable(ev)
    ensures LedStep(v, es, font, capacity, ev) == LedResult(v.(deferred := Defer(v.deferred, capacity, ev).0), es, [], [])
  {
  }

  /**
   * While UPDATING, timer, word and scroll events only join the queue, and
   * whatever follows them runs from the state they leave.
   */
  lemma {:induction false} DeferRun(v: LedVars, es: EngineState, font: Font, capacity: nat, evs: seq<Event>, tail: seq<Event>)
    requires es.Valid() && v.state == Updating && AllDeferrable(evs)
    ensures Steps(v, es, font, capacity, evs + tail) ==
      Steps(v.(deferred := DeferAll(v.deferred, capacity, evs)), es, font, capacity, tail)
    decreases |evs|
  {
    if evs != [] {
      assert Deferrable(evs[0]);
      DeferStep(v, es, font, capacity, evs[0]);
      var w := v.(deferred := Defer(v.deferred, capacity, evs[0]).0);
      assert AllDeferrable(evs[1..]) by {
        forall i | 0 <= i < |evs[1..]| ensures Deferrable(evs[1..][i]) {
          assert evs[1..][i] == evs[i + 1];
        }
      }
      DeferRun(w, es, font, capacity, evs[1..], tail);
      assert (evs + tail)[0] == evs[0];
      assert (evs + tail)[1..] == evs[1..] + tail;
    } else {
      assert evs + tail == tail;
    }
  }

  /** n ES_ROWUPDATE events. */
  function RowUpdates(n: nat): (evs: seq<Event>)
    ensures |evs| == n
  {
    if n == 0 then [] else [Plain(RowUpdate)] + RowUpdates(n - 1)
  }

  /** n re-posts of ES_ROWUPDATE to the service itself. */
  function Reposts(n: nat): (acts: seq<Action>)
    ensures |acts| == n
  {
    if n == 0 then [] else [Post(LedService, Plain(RowUpdate))] + Reposts(n - 1)
  }

  /** The first event of a run, then the rest from where it left off. */
  lemma StepsCons(v: LedVars, es: EngineState, font: Font, capacity: nat, ev: Event, evs: seq<Event>)
    requires es.Valid()
    ensures var a := LedStep(v, es, font, capacity, ev);
      var b := Steps(a.vars, a.engine, font, capacity, evs);
      Steps(v, es, font, capacity, [ev] + evs) == LedResult(b.vars, b.engine, a.actions + b.actions, a.calls + b.calls)
  {
    assert ([ev] + evs)[0] == ev && ([ev] + evs)[1..] == evs;
  }

  /**
   * One ES_ROWUPDATE while UPDATING sends row k; before the last row it
   * re-posts itself, after it the service returns to IDLE and recalls the queue.
   */
  lemma RowUpdateStep(v: LedVars, es: EngineState, font: Font, capacity: nat)
    requires es.Valid() && v.state == Updating
    ensures var k := es.whichRow;
      var r := LedStep(v, es, font, capacity, Plain(RowUpdate));
      r.calls == [RowTransfer(es.frame, k)] &&
      (k < NumRows ==> r == LedResult(v, es.(whichRow := k + 1), [Post(LedService, Plain(RowUpdate))], r.calls)) &&
      (k == NumRows ==> r == LedResult(v.(state := Idle, deferred := []), es.(whichRow := 0), [Recall(LedService, v.deferred)], r.calls))
  {
  }

  /**
   * While UPDATING with the copy at row k, the service takes exactly 9 - k
   * ES_ROWUPDATEs: each but the last re-posts itself, the last returns to
   * IDLE and recalls the whole queue in the order the events were parked.
   * The rows sent are the rest of one refresh, the frame is left as it was.
   */
  lemma {:induction false} RowUpdatesComplete(v: LedVars, es: EngineState, font: Font, capacity: nat)
    requires es.Valid() && v.state == Updating
    ensures var r := Steps(v, es, font, capacity, RowUpdates(NumRows + 1 - es.whichRow));
      r.vars == v.(state := Idle, deferred := []) && r.engine == es.(whichRow := 0) &&
      r.actions == Reposts(NumRows - es.whichRow) + [Recall(LedService, v.deferred)] &&
      r.calls == PassTransfers(es.frame, es.whichRow)
    decreases NumRows - es.whichRow
  {
    var k := es.whichRow;
    StepsCons(v, es, font, capacity, Plain(RowUpdate), RowUpdates(NumRows - k));
    RowUpdateStep(v, es, font, capacity);
    if k < NumRows {
      RowUpdatesComplete(v, es.(whichRow := k + 1), font, capacity);
      AppendAssoc([Post(LedService, Plain(RowUpdate))], Reposts(NumRows - k - 1), [Recall(LedService, v.deferred)]);
    }
  }

  /**
   * Events parked during a refresh come back in order: from UPDATING at row 0
   * with an empty queue of room enough, deferrable events followed by nine
   * ES_ROWUPDATEs end IDLE with one recall of exactly those events.
   */
  lemma DeferredReplayInOrder(v: LedVars, es: EngineState, font: Font, capacity: nat, evs: seq<Event>)
    requires es.Valid() && es.whichRow == 0 && v.state == Updating && v.deferred == []
    requires |evs| <= capacity && AllDeferrable(evs)
    ensures var r := Steps(v, es, font, capacity, evs + RowUpdates(NumRows + 1));
      r.vars == v.(state := Idle) && r.engine == es && r.actions == Reposts(NumRows) + [Recall(LedService, evs)]
  {
    DeferRun(v, es, font, capacity, evs, RowUpdates(NumRows + 1));
    DeferAllKeepsOldest([], capacity, evs);
    assert ([] + evs)[..|evs|] == evs;
    RowUpdatesComplete(v.(deferred := evs), es, font, capacity);
  }

  /*---------------------------- the init-time loop ---------------------------*/

  /** Calls of DM_TakeInitDisplayStep until one returns true, from state s. */
  function InitCallsLeft(s: EngineState): (n: nat)
    requires s.Valid()
  {
    match s.initStep
    case StartShutdown => NumRows + 7 - s.whichRow
    case FillBufferZeros => NumRows + 6 - s.whichRow
    case DisableCodeB => NumRows + 5 - s.whichRow
    case EnableScanAll => NumRows + 4 - s.whichRow
    case SetBrightness => NumRows + 3 - s.whichRow
    case CopyBuffer2Display => NumRows + 2 - s.whichRow
    case EndShutdown => 1
  }

  /** Each init step either reports completion, when one call was left, or leaves one call fewer. */
  lemma InitCallsLeftDecreases(s: EngineState)
    requires s.Valid()
    ensures var u := InitDisplayStep(s);
      (u.done <==> InitCallsLeft(s) == 1) && (!u.done ==> InitCallsLeft(u.state) == InitCallsLeft(s) - 1)
  {
  }

  /** One more init step after n of them. */
  lemma {:induction false} InitRunSnoc(s: EngineState, n: nat)
    requires s.Valid()
    ensures var r := InitRun(s, n);
      var u := InitDisplayStep(r.state);
      var t := InitRun(s, n + 1);
      t.state == u.state && t.flags == r.flags + [u.done] && t.calls == r.calls + u.calls
    decreases n
  {
    var a := InitDisplayStep(s);
    if n > 0 {
      InitRunSnoc(a.state, n - 1);
      var r := InitRun(a.state, n - 1);
      var u := InitDisplayStep(r.state);
      AppendAssoc([a.done], r.flags, [u.done]);
      AppendAssoc(a.calls, r.calls, u.calls);
    } else {
      assert InitRun(s, 1) == Run(a.state, [a.done] + [], a.calls + []);
    }
  }

  /** The bookkeeping of the busy loop for one more call, after calls that all returned false. */
  lemma InitLoopStep(s0: EngineState, calls: nat)
    requires s0.Valid()
    requires InitRun(s0, calls).flags == Falses(calls)
    requires calls + InitCallsLeft(InitRun(s0, calls).state) == InitCallsLeft(s0)
    ensures var r := InitRun(s0, calls);
      var u := InitDisplayStep(r.state);
      var t := InitRun(s0, calls + 1);
      t.state == u.state && Words(t.calls) == Words(r.calls) + Words(u.calls) &&
      (u.done ==> calls + 1 == InitCallsLeft(s0) && t.flags == Falses(calls) + [true]) &&
      (!u.done ==> t.flags == Falses(calls + 1) && calls + 1 + InitCallsLeft(t.state) == InitCallsLeft(s0))
  {
    var r := InitRun(s0, calls);
    var u := InitDisplayStep(r.state);
    InitRunSnoc(s0, calls);
    InitCallsLeftDecreases(r.state);
    WordsAppend(r.calls, u.calls);
    FalsesSnoc(calls);
  }

  /**
   * The busy loop of InitLEDService: DM_TakeInitDisplayStep until it returns
   * true. It makes exactly InitCallsLeft calls, only the last returning true.
   */
  method RunInitDisplay(e: Engine) returns (calls: nat)
    requires e.Valid()
    modifies e, e.display1, e.display2
    ensures e.Valid() && calls == InitCallsLeft(old(e.State()))
    ensures var r := InitRun(old(e.State()), calls);
      e.State() == r.state && e.spi == old(e.spi) + Words(r.calls) && r.flags == Falses(calls - 1) + [true]
  {
    ghost var s0 := e.State();
    ghost var spi0 := e.spi;
    calls := 0;
    var done := false;
    while !done
      invariant e.Valid()
      invariant e.State() == InitRun(s0, calls).state && e.spi == spi0 + Words(InitRun(s0, calls).calls)
      invariant !done ==> InitRun(s0, calls).flags == Falses(calls)
      invariant !done ==> calls + InitCallsLeft(e.State()) == InitCallsLeft(s0)
      invariant done ==> calls >= 1 && calls == InitCallsLeft(s0)
      invariant done ==> InitRun(s0, calls).flags == Falses(calls - 1) + [true]
      decreases if done then 0 else InitCallsLeft(e.State())
    {
      ghost var r := InitRun(s0, calls);
      ghost var u := InitDisplayStep(r.state);
      InitLoopStep(s0, calls);
      done := e.TakeInitDisplayStep();
      AppendAssoc(spi0, Words(r.calls), Words(u.calls));
      calls := calls + 1;
    }
  }

  lemma {:induction false} FalsesSnoc(n: nat)
    ensures Falses(n) + [false] == Falses(n + 1)
    decreases n
  {
    if n > 0 {
      FalsesSnoc(n - 1);
      AppendAssoc([false], Falses(n - 1), [false]);
    }
  }

  /** The words InitLEDService sends: setup commands, one refresh of the blank buffers, end of shutdown. */
  const InitTranscript: seq<Transfer> :=
    SetupTransfers + PassTransfers(BlankFrame, 0) + [CmdCall(EndShutdownCmd)]

  /** From power-up the loop takes 15 calls and leaves the buffers blank and the engine at its first step. */
  lemma InitFromReset()
    ensures var s := EngineState(BlankFrame, StartShutdown, 0);
      var r := InitRun(s, InitCallsLeft(s));
      InitCallsLeft(s) == 15 && r.state == s && r.calls == InitTranscript
  {
    var s := EngineState(BlankFrame, StartShutdown, 0);
    InitSequence(s);
    assert ClearedFrame(BlankFrame).d1 == ZeroRows;
    assert ClearedFrame(BlankFrame).d2 == ZeroRows;
  }

  /** The busy loop started from power-up: 15 calls, the transcript InitTranscript, the engine back at its first step. */
  method InitDisplay(e: Engine)
    requires e.Valid() && e.State() == EngineState(BlankFrame, StartShutdown, 0)
    modifies e, e.display1, e.display2
    ensures e.Valid() && e.State() == EngineState(BlankFrame, StartShutdown, 0)
    ensures e.spi == old(e.spi) + Words(InitTranscript)
  {
    InitFromReset();
    var calls := RunInitDisplay(e);
  }

  /*------------------------------- the service -------------------------------*/

  /** The service's statics, the engine it drives, and the framework calls made so far. */
  class Service {
    const engine: Engine
    const capacity: nat
    var state: LedState
    var scrollString: Option<string>
    var scrollIndex: uint8
    var scrollLen: uint8
    var deferred: seq<Event>
    var out: seq<Action>

    ghost predicate Valid()
      reads this, engine
    {
      engine.Valid() && LedInv(Vars(), capacity)
    }

    function Vars(): LedVars
      reads this
    {
      LedVars(state, scrollString, scrollIndex, scrollLen, deferred)
    }

    /**
     * InitLEDService: IDLE, the display initialised by the busy loop, an
     * empty deferral queue of the given capacity and ES_INIT posted to itself.
     */
    constructor (font: Font, capacity: nat)
      ensures Valid() && fresh(engine) && engine.font == font && this.capacity == capacity
      ensures Vars() == LedVars(Idle, None, 0, 0, [])
      ensures engine.State() == EngineState(BlankFrame, StartShutdown, 0)
      ensures engine.spi == Words(InitTranscript)
      ensures out == [Post(LedService, Plain(Init))]
    {
      var e := new Engine(font);
      InitDisplay(e);
      assert e.spi == Words(InitTranscript);
      engine := e;
      this.capacity := capacity;
      state := Idle;
      scrollString := None;
      scrollIndex := 0;
      scrollLen := 0;
      deferred := [];
      out := [Post(LedService, Plain(Init))];
    }

    /** The loop of the ES_NEW_WORD branch and the centring shift. */
    method ComposeWord(msg: string, which: uint8)
      requires Valid()
      modifies engine.display1, engine.display2
      ensures Valid()
      ensures engine.State() == old(engine.State()).(frame := NewWordFrame(old(engine.State()).frame, engine.font, msg, which))
    {
      ghost var s0 := engine.State();
      var len := Length8(msg);
      ghost var cs := WordChars(msg, len);
      engine.ClearDisplayBuffer(which);
      ghost var cleared := engine.State().frame;
      var i: nat := 0;
      while i < len
        invariant 0 <= i <= len && Valid()
        invariant engine.State() == s0.(frame := ComposedPrefix(cleared, engine.font, cs, i, which))
      {
        if i > 0 {
          engine.ScrollDisplayBuffer(ColumnsPerChar, which);
        }
        engine.AddChar2DisplayBuffer(CharCode(msg[i]), which);
        i := i + 1;
      }
      engine.ScrollDisplayBuffer(CentreShift(len), which);
    }

    /** The ES_TIMEOUT branch of IDLE: wrap the index, scroll, add the next character, start a refresh. */
    method ScrollTick()
      requires Valid() && state == Idle && scrollString.Some?
      modifies this, engine.display1, engine.display2
      ensures engine.Valid()
      ensures Vars() == old(Vars()).(state := Updating, scrollIndex := ToUint8(ScrollTickIndex(old(Vars())) + 1))
      ensures engine.State() == old(engine.State()).(frame :=
        ScrollTickFrame(old(engine.State()).frame, engine.font, CharAt(scrollString.value, ScrollTickIndex(old(Vars())))))
      ensures out == old(out) + [Post(LedService, Plain(RowUpdate)), InitTimer(ScrollTimer, ScrollTicks)]
    {
      if scrollIndex >= scrollLen {
        scrollIndex := 0;
      }
      engine.ScrollDisplayBuffer(ColumnsPerChar, ScrollDisplayId);
      engine.AddChar2DisplayBuffer(ScrollDisplayId, CharAt(scrollString.value, scrollIndex));
      scrollIndex := ToUint8(scrollIndex + 1);
      state := Updating;
      out := out + [Post(LedService, Plain(RowUpdate))];
      out := out + [InitTimer(ScrollTimer, ScrollTicks)];
    }

    /** The ES_NEW_WORD branch of IDLE: compose the word and start a refresh. */
    method ShowWord(ev: Event)
      requires Valid() && state == Idle
      modifies this, engine.display1, engine.display2
      ensures engine.Valid()
      ensures Vars() == old(Vars()).(state := Updating, scrollIndex := 0)
      ensures engine.State() == old(engine.State()).(frame := NewWordFrame(old(engine.State()).frame, engine.font, ev.msg, ToUint8(ev.param)))
      ensures out == old(out) + [StopTimer(ScrollTimer), Post(LedService, Plain(RowUpdate))]
    {
      out := out + [StopTimer(ScrollTimer)];
      scrollIndex := 0;
      ComposeWord(ev.msg, ToUint8(ev.param));
      state := Updating;
      out := out + [Post(LedService, Plain(RowUpdate))];
    }

    /** RunLEDService in IDLE. */
    method RunIdle(ev: Event)
      requires Valid() && state == Idle
      modifies this, engine.display1, engine.display2
      ensures Valid()
      ensures var r := IdleStep(old(Vars()), old(engine.State()), engine.font, ev);
        Vars() == r.vars && engine.State() == r.engine && out == old(out) + r.actions && r.calls == []
    {
      LedStepKeepsInvariant(Vars(), engine.State(), engine.font, capacity, ev);
      if ev.kind == Timeout && ev.param == ScrollTimer && scrollString.Some? {
        ScrollTick();
      } else if ev.kind == Scroll {
        out := out + [StopTimer(ScrollTimer)];
        scrollString := Some(ev.msg);
        scrollLen := Length8(ev.msg);
        scrollIndex := 0;
        out := out + [InitTimer(ScrollTimer, ScrollTicks)];
      } else if ev.kind == NewWord {
        ShowWord(ev);
      }
    }

    /** RunLEDService in UPDATING. */
    method RunUpdating(ev: Event)
      requires Valid() && state == Updating
      modifies this, engine
      ensures Valid()
      ensures var r := UpdatingStep(old(Vars()), old(engine.State()), capacity, ev);
        Vars() == r.vars && engine.State() == r.engine &&
        out == old(out) + r.actions && engine.spi == old(engine.spi) + Words(r.calls)
    {
      LedStepKeepsInvariant(Vars(), engine.State(), engine.font, capacity, ev);
      if Deferrable(ev) {
        deferred := Defer(deferred, capacity, ev).0;
      } else if ev.kind == RowUpdate {
        var done := engine.TakeDisplayUpdateStep();
        if !done {
          out := out + [Post(LedService, ev)];
        } else {
          state := Idle;
          out := out + [Recall(LedService, deferred)];
          deferred := [];
        }
      }
    }

    /** RunLEDService. */
    method Run(ev: Event)
      requires Valid()
      modifies this, engine, engine.display1, engine.display2
      ensures Valid()
      ensures var r := LedStep(old(Vars()), old(engine.State()), engine.font, capacity, ev);
        Vars() == r.vars && engine.State() == r.engine &&
        out == old(out) + r.actions && engine.spi == old(engine.spi) + Words(r.calls)
    {
      match state
      case Idle =>
        RunIdle(ev);
      case Updating =>
        RunUpdating(ev);
    }
  }
}
