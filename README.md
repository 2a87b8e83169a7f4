# Coin-operated space arcade game: verified model of the application services

This project models the application layer of a small coin-operated arcade game. The
game runs on a PIC32 under an event-driven framework. Each service is a `Run…Service(event)`
dispatch over module-level state. The modelled services are:

- **DotMatrix** (`dm_display.dfy`): the frame-buffer engine for two 4-module MAX7219 dot-matrix
  displays. It keeps two buffers of 32-bit rows and offers clear, shift, OR-in-a-glyph and
  put/query for a row. It has a bit-reversal table, mirrors rows into MAX7219 address/data
  words, and runs two re-entrant step machines: the power-up init sequence and the
  one-row-per-call refresh.
- **Led** (`led_service.dfy`): the IDLE/UPDATING display service. It composes and centres a
  word, steps a scrolling string one character per timer tick, and drives the refresh one row
  per self-posted `ES_ROWUPDATE`. While busy it parks events in a bounded deferral queue and
  recalls them when the refresh is done.
- **Shift** (`shift_service.dfy`): bit-bangs the 13-entry LED vector shared with the game into
  a shift register. Each bit takes three timer ticks (data, clock high, clock low), then a
  two-tick latch pulse follows.
- **Buzz** (`buzz_service.dfy`): the buzzer sequencer. It plays counter-driven arpeggios (planet
  up, asteroid down, black hole alternating five times), a coin beep and two table tunes, and
  switches the vibration motor.
- **Game** (`game_service.dfy`): the five-state game orchestrator (Waiting2Coins,
  Waiting1Coins, GameOn, Waiting, GameOver). It handles scoring, cooldown flags, the countdown,
  re-rolling the target planet and the difficulty mapping, and owns the 13-entry LED vector.
- **Sensors** (`event_checkers.dfy`): the event checkers. They cover falling-edge detection on
  the six hall-effect sensors and the coin beam, and hysteresis on the potentiometer.
- **Framework** (`framework.dfy`): what the services share. It defines the event and action
  records, fixed-width integer conversions, the pot level scaling and the bounded deferral queue.

Every service with module statics is a `class` whose fields are those statics. Its `Run`
method's postcondition ties the new fields to a pure step function of the old fields and the
event. That step function is what the lemmas reason about, over one event or a sequence of
events. Outgoing posts, timer arms and stops, SPI words, pin writes and buzzer tones are
appended to a recorded output sequence.

Inputs from outside the modelled code are method parameters:

| input | becomes |
|---|---|
| `rand()` | a natural number `rnd`, reduced `% 4`, `% 3` or `% 100` as the code does |
| pin reads | parameters, one sample per read (the first hall-effect poll reads the six pins twice and takes two) |
| the ADC sample | a parameter |
| the font lookup `getFontLine` | an uninterpreted function |

A few places differ from what the comments in `GameService.c` and `LEDService.c` say, or from what the
code evidently means; the model follows the code there:

- `GetDifficulty` divides with integers, so only level 100 reaches the fastest planet switch time.
- `UpdateScore` does not clamp the score.
- The LED scroll tick passes its arguments to `DM_AddChar2DisplayBuffer` in swapped order.

Each of these is modelled as written and stated in a lemma.

The source also reads or writes one element past the end of an array in a few places. The model:

- keeps each access as written;
- models the element past the end as one extra cell that nothing else touches;
- states in its contracts what that access does.

Those places are:

- row 8 of the display buffers (`DM_DisplayStarter.c:185-186, 229, 231`);
- index 6 of the hall-effect arrays and of the event-kind table (`EventCheckers.c:138-148`).

`ShiftService.c` assigns state names that do not exist in its state enum. The model reads them
this way:

- `Waiting2Coins_P` and `GameOn_P` are `Waiting`;
- `UpdatingShift_P` is `UpdatingShift`.

## Model

| member | source | states |
|---|---|---|
| Framework.PotLevel | ProjectSource/EventCheckers.c:193-198 | the scaled pot level is always clamped into 1..100 |
| Framework.PotLevelScale | ProjectSource/EventCheckers.c:193-198 | for readings up to 1023 the level is 100·x/1023 with 0 raised to 1; reading 0 gives 1 and 1023 gives 100 |
| Framework.PotLevelMonotone | ProjectSource/EventCheckers.c:193-198 | a larger reading never gives a smaller level |
| Framework.Defer | ProjectSource/LEDService.c:207-212 | deferring succeeds exactly when the queue is below capacity; it then appends the event at the back, and otherwise leaves the queue unchanged |
| DotMatrix.SetBrightnessCmd | ProjectSource/DM_DisplayStarter.c:31 | the brightness command has address 0x0A and carries the level in its low nibble |
| DotMatrix.BitReverseTableIsReversal | ProjectSource/DM_DisplayStarter.c:68-86 | every one of the 256 table entries is the bit reversal of its index |
| DotMatrix.ReverseBitsMirrors | ProjectSource/DM_DisplayStarter.c:68-86 | bit i of a reversed byte is bit 7−i of the byte |
| DotMatrix.ReverseBitsInvolution | ProjectSource/DM_DisplayStarter.c:68-86 | reversing the bits of a byte twice gives the byte back |
| DotMatrix.BitReverseTableInvolution | ProjectSource/DM_DisplayStarter.c:68-86 | looking a byte up in the table twice gives the byte back |
| DotMatrix.OrIntoLowByteBytes | ProjectSource/DM_DisplayStarter.c:223-235 | OR-ing a font line into a row sets bits in byte 0 only and keeps bytes 1..3 |
| DotMatrix.ClearedRows | ProjectSource/DM_DisplayStarter.c:244-256 | rows 0..7 become 0 and the cell past the end is kept |
| DotMatrix.ShiftedRows | ProjectSource/DM_DisplayStarter.c:202-213 | every row 0..7 is shifted left by n, losing the bits past bit 31 (a count of 32 or more gives 0, see Left out), and the cell past the end is kept |
| DotMatrix.ClearDisplay | ProjectSource/DM_DisplayStarter.c:244-256 | display 1 or 2 has all 8 rows zeroed and the other display is untouched; any other id changes nothing |
| DotMatrix.ScrollDisplay | ProjectSource/DM_DisplayStarter.c:202-213 | display 1 or 2 has every row shifted left by n and the other display is untouched; any other id changes nothing |
| DotMatrix.WithGlyph | ProjectSource/DM_DisplayStarter.c:223-235 | font line k is OR-ed into row k+1 for k = 0..7, so line 7 lands on the cell past the end; row 0 is kept |
| DotMatrix.AddCharToDisplay | ProjectSource/DM_DisplayStarter.c:223-235 | for display 1 or 2, font line k of the character is OR-ed into row k+1 of that display for k = 0..7 (line 7 into the cell past the end), row 0 is kept and the other display is untouched; any other id changes nothing |
| DotMatrix.PutRow | ProjectSource/DM_DisplayStarter.c:266-282 | the result is true iff row < 8; row ≥ 8 leaves both buffers unchanged; otherwise only that row of the selected display is replaced; an unknown id reports true with no change |
| DotMatrix.CmdWords | ProjectSource/DM_DisplayStarter.c:320-328 | a command is sent as 8 copies of the same word, and only the last uses the waiting send |
| DotMatrix.RowWordFields | ProjectSource/DM_DisplayStarter.c:338-358 | a row word has address byte 8−r and carries the bit-reversed data byte |
| DotMatrix.RowWordsMirror | ProjectSource/DM_DisplayStarter.c:338-358 | sending row r emits exactly 8 words with address byte 8−r; their data, un-reversed, are bytes 0..3 of display 2 then bytes 0..3 of display 1; only the last word waits |
| DotMatrix.WordsAppend | ProjectSource/DM_DisplayStarter.c:320-358 | the SPI trace of consecutive transfers is the concatenation of their traces |
| DotMatrix.PassTransfersAt | ProjectSource/DM_DisplayStarter.c:180-192 | transfer i of a refresh pass that starts at row `from` sends row `from`+i |
| DotMatrix.FalsesThenTrue | ProjectSource/DM_DisplayStarter.c:180-192 | helper for the refresh result trace: n falses after one more false still end in the single true |
| DotMatrix.UpdateStep | ProjectSource/DM_DisplayStarter.c:180-192 | one refresh step keeps the engine state well formed |
| DotMatrix.InitDisplayStep | ProjectSource/DM_DisplayStarter.c:104-170 | one init step keeps the engine state well formed |
| DotMatrix.UpdateRunFrom | ProjectSource/DM_DisplayStarter.c:180-192 | from row k the refresh reports false 8−k times and then true once; that sends rows k..8 and resets the row counter to 0 |
| DotMatrix.UpdatePass | ProjectSource/DM_DisplayStarter.c:180-192 | from row 0 the refresh returns false on its first 8 calls and true on the 9th, and ends where it started |
| DotMatrix.InitCopyFrom | ProjectSource/DM_DisplayStarter.c:147-163 | the copy step repeats until the refresh is done; then end-shutdown returns true and goes back to the start step |
| DotMatrix.ClearedFrame | ProjectSource/DM_DisplayStarter.c:118-124 | the fill step zeroes all 8 rows of both displays |
| DotMatrix.InitRunCons | ProjectSource/DM_DisplayStarter.c:104-170 | helper: an init run is its first step followed by the rest |
| DotMatrix.InitConfigure | ProjectSource/DM_DisplayStarter.c:126-145 | the code-B, scan-limit and brightness steps are three calls that each return false and send their commands |
| DotMatrix.InitPrefix | ProjectSource/DM_DisplayStarter.c:111-145 | the first five steps each return false, send the set-up commands and clear both buffers |
| DotMatrix.InitSequence | ProjectSource/DM_DisplayStarter.c:104-170 | from the start step the sequence is five set-up calls, a full refresh pass and end-shutdown; only the last call returns true, and the engine is back at the start with cleared buffers |
| DotMatrix.Engine.constructor | ProjectSource/DM_DisplayStarter.c:55-56 | the engine starts at the start step, at row 0, with blank buffers |
| DotMatrix.Engine.ClearDisplayBuffer | ProjectSource/DM_DisplayStarter.c:244-256 | the buffer arrays become ClearDisplay of the old frame |
| DotMatrix.Engine.ScrollDisplayBuffer | ProjectSource/DM_DisplayStarter.c:202-213 | the buffer arrays become ScrollDisplay of the old frame |
| DotMatrix.Engine.AddChar2DisplayBuffer | ProjectSource/DM_DisplayStarter.c:223-235 | the buffer arrays become AddCharToDisplay of the old frame |
| DotMatrix.Engine.PutDataIntoBufferRow | ProjectSource/DM_DisplayStarter.c:266-282 | the result and the new buffers are those of PutRow |
| DotMatrix.Engine.QueryRowData | ProjectSource/DM_DisplayStarter.c:292-305 | returns true and display 1's row iff row < 8; otherwise returns false and leaves the caller's value alone |
| DotMatrix.Engine.SendCmd | ProjectSource/DM_DisplayStarter.c:320-328 | appends CmdWords to the SPI trace and changes nothing else |
| DotMatrix.Engine.SendRow | ProjectSource/DM_DisplayStarter.c:338-358 | appends RowWords to the SPI trace and changes nothing else |
| DotMatrix.Engine.TakeDisplayUpdateStep | ProjectSource/DM_DisplayStarter.c:180-192 | the new state, result and SPI words are those of UpdateStep |
| DotMatrix.Engine.TakeInitDisplayStep | ProjectSource/DM_DisplayStarter.c:104-170 | the new state, result and SPI words are those of InitDisplayStep |
| Led.Length8 | ProjectSource/LEDService.c:187 | the 8-bit word length equals the string length for strings shorter than 256 |
| Led.CentreShift | ProjectSource/LEDService.c:197 | for up to 8 characters the two margins and the 4-column glyphs fill exactly 32 columns; the uint8 cast of the negative quotient gives a count of at least 32 for 9..120 and 137..248 characters, and a real shift below 32 (272−2·len, then 528−2·len) for 121..136 and 249..255 characters |
| Led.WordChars | ProjectSource/LEDService.c:189-194 | the composed characters are the first len characters of the message, as bytes |
| Led.ShiftLeftBy4 | ProjectSource/LEDService.c:191 | the model's row shift by 4 is the 32-bit left shift |
| Led.GlyphStep | ProjectSource/LEDService.c:189-194 | adding a glyph after a 4-column shift extends the composed word by that character |
| Led.ComposeFrameStep | ProjectSource/LEDService.c:189-194 | one loop iteration composes one more character on the selected display and leaves the other display alone |
| Led.ComposedRows | ProjectSource/LEDService.c:186-194 | after clearing, the loop leaves the selected display holding the rows of the word's font lines side by side |
| Led.ComposedOther | ProjectSource/LEDService.c:186-194 | with an unknown display id the loop changes nothing |
| Led.NewWordRows | ProjectSource/LEDService.c:182-202 | a new word becomes the font rows of its characters shifted by the centring amount; only the selected display changes |
| Led.ScrollTickFrame | ProjectSource/LEDService.c:155-157 | one scroll tick keeps the frame well formed |
| Led.IdleStep | ProjectSource/LEDService.c:140-203 | IDLE handling keeps the engine state well formed |
| Led.UpdatingStep | ProjectSource/LEDService.c:205-226 | UPDATING handling keeps the engine state well formed |
| Led.LedStepKeepsInvariant | ProjectSource/LEDService.c:127-233 | every event keeps these: the queue within capacity, the queue empty in IDLE, and the scroll index within the stored length |
| Led.ScrollTickIndexInside | ProjectSource/LEDService.c:146-153 | after wrapping, the scroll index always reads a character inside the string |
| Led.LedStateChanges | ProjectSource/LEDService.c:127-233 | the state changes iff IDLE meets a new word or a scroll tick with a string, or UPDATING meets the row update that finishes the pass |
| Led.ScrollTickAddsNoGlyph | ProjectSource/LEDService.c:155-157 | because of the swapped arguments, a scroll tick over an ordinary character only shifts display 2 by 4 |
| Led.DeferAllKeepsOldest | ProjectSource/LEDService.c:207-212 | deferring a run of events keeps the oldest ones that fit and silently drops the rest |
| Led.DeferStep | ProjectSource/LEDService.c:207-212 | in UPDATING a timeout, word or scroll event is only deferred: no state change, no output |
| Led.DeferRun | ProjectSource/LEDService.c:207-212 | a run of such events only fills the deferral queue |
| Led.StepsCons | ProjectSource/LEDService.c:127-233 | running events one after the other composes their results |
| Led.RowUpdateStep | ProjectSource/LEDService.c:213-225 | a row update sends the current row; it re-posts itself before the last row, and on the last row returns to IDLE and recalls the queue |
| Led.RowUpdatesComplete | ProjectSource/LEDService.c:213-225 | from row k, 9−k row updates finish the pass: back in IDLE with the queue recalled and rows k..8 sent |
| Led.DeferredReplayInOrder | ProjectSource/LEDService.c:207-225 | events deferred during a refresh are recalled in arrival order after exactly 9 row updates |
| Led.InitCallsLeftDecreases | ProjectSource/LEDService.c:81 | each init step that does not finish lowers the remaining call count by one |
| Led.InitRunSnoc | ProjectSource/LEDService.c:81 | one more busy-loop call extends the init run by one step |
| Led.InitLoopStep | ProjectSource/LEDService.c:81 | the busy loop's invariant survives one more call |
| Led.RunInitDisplay | ProjectSource/LEDService.c:81 | the busy loop calls the init stepper until it returns true, which happens on the last of the remaining calls |
| Led.InitFromReset | ProjectSource/LEDService.c:81 | from reset the init sequence takes 15 calls and sends the fixed power-up transcript |
| Led.InitDisplay | ProjectSource/LEDService.c:81 | initialising leaves the engine at reset and sends exactly the power-up transcript |
| Led.Service.constructor | ProjectSource/LEDService.c:56-97 | the service starts IDLE with no scroll string and an empty queue, the display initialised, and ES_INIT posted to itself |
| Led.Service.ComposeWord | ProjectSource/LEDService.c:186-197 | the buffers become NewWordFrame of the old frame |
| Led.Service.ScrollTick | ProjectSource/LEDService.c:142-170 | enters UPDATING, advances the wrapped index, shifts the frame as ScrollTickFrame says, posts a row update and re-arms the scroll timer |
| Led.Service.ShowWord | ProjectSource/LEDService.c:182-202 | stops the scroll timer, zeroes the index, composes the word, enters UPDATING and posts a row update |
| Led.Service.RunIdle | ProjectSource/LEDService.c:140-203 | the new fields, frame and posts are those of IdleStep |
| Led.Service.RunUpdating | ProjectSource/LEDService.c:205-226 | the new fields, engine and posts are those of UpdatingStep, and the sent rows are appended to the SPI trace |
| Led.Service.Run | ProjectSource/LEDService.c:127-233 | the new fields, engine state, posts and SPI words are those of LedStep |
| Shift.ZeroVals | ProjectSource/ShiftService.c:145-149 | the cleared vector is 13 zeros |
| Shift.PinBit | ProjectSource/ShiftService.c:171 | a 0/1 value is written to the data pin unchanged, and any value writes a bit |
| Shift.ShiftStepKeepsInvariant | ProjectSource/ShiftService.c:134-203 | every event keeps the remaining count within 13 and the step within 0..2 |
| Shift.WaitingEvents | ProjectSource/ShiftService.c:143-161 | in Waiting, ES_INIT zeroes the vector and posts an update; ES_UPDATE_SHIFT drives OUTPUT high, enters UpdatingShift and arms the shift timer; anything else is ignored |
| Shift.UpdatingEvents | ProjectSource/ShiftService.c:163-195 | in UpdatingShift only the shift-timer timeout acts, with exactly one pin write; the vector is never written |
| Shift.BitCycle | ProjectSource/ShiftService.c:169-183 | each tick with bits left cycles the step 0→1→2→0; it writes DATA of the next bit, then CLK high, then CLK low, and only the third step counts the bit |
| Shift.StepsAppend | ProjectSource/ShiftService.c:134-203 | running two event runs in sequence composes their results |
| Shift.OneBit | ProjectSource/ShiftService.c:169-183 | three ticks shift out exactly one bit: DATA, CLK=1, CLK=0 |
| Shift.AllBits | ProjectSource/ShiftService.c:169-183 | 3·n ticks shift out the remaining n bits from the highest index down |
| Shift.TicksAppend | ProjectSource/ShiftService.c:169-193 | helper: tick runs concatenate |
| Shift.ArmsAppend | ProjectSource/ShiftService.c:169-193 | helper: timer re-arm runs concatenate |
| Shift.Latch | ProjectSource/ShiftService.c:184-193 | with no bits left, two ticks pulse OUTPUT low then high and return to Waiting ready for 13 bits |
| Shift.Transaction | ProjectSource/ShiftService.c:156-193 | one update takes exactly 41 ticks; it writes OUTPUT 1, entries 12 down to 0, then OUTPUT 0 and 1, reads the vector only, and ends in the initial state |
| Shift.BitPinsData | ProjectSource/ShiftService.c:171 | bit i of a transaction drives DATA with entry 12−i, then CLK=1 and CLK=0 |
| Shift.Service.constructor | ProjectSource/ShiftService.c:72-100 | starts in Waiting with 13 bits to send, step 0, latch high, OUTPUT driven high and ES_INIT posted |
| Shift.Service.ClearVals | ProjectSource/ShiftService.c:145-149 | the shared vector becomes 13 zeros |
| Shift.Service.Run | ProjectSource/ShiftService.c:134-203 | the new fields, vector, pin writes and posts are those of ShiftStep |
| Buzz.BuzzStepKeepsInvariant | ProjectSource/BuzzService.c:150-281 | every event keeps the tune counters within their tables |
| Buzz.TuneIndices | ProjectSource/BuzzService.c:197-202 | the start tune ticks read indices 1..7 of 8, and the end tune ticks read indices 2..12 of 13 |
| Buzz.Tones | ProjectSource/BuzzService.c:286-290 | the tone trace holds only buzzer tones, no more than there are outputs |
| Buzz.TonesAppend | ProjectSource/BuzzService.c:286-290 | the tones of two output runs concatenate |
| Buzz.TickCounts | ProjectSource/BuzzService.c:165-206 | a tick with count > 0 in types 1–4 lowers the count by exactly one and sounds one tone; other types only silence |
| Buzz.Silence | ProjectSource/BuzzService.c:165-170 | with count 0 and no cycles left, the tick mutes, turns the motor off, becomes quiet and arms nothing |
| Buzz.DownMotor | ProjectSource/BuzzService.c:186-196 | while falling, the motor goes off at count % 8 = 0 and on at count % 8 = 4, and is not touched otherwise |
| Buzz.BlackHoleReload | ProjectSource/BuzzService.c:171-181 | an exhausted arpeggio with cycles left reloads count 15 and time 500, flips direction by cycle parity, motor on and one tone |
| Buzz.CoinTone | ProjectSource/BuzzService.c:244-251 | the coin request sounds 1200 Hz for 200, becomes quiet and keeps the count |
| Buzz.StepsCons | ProjectSource/BuzzService.c:150-281 | running events one after the other composes their results |
| Buzz.TicksRun | ProjectSource/BuzzService.c:162-208 | n timer events are n ticks |
| Buzz.RunThen | ProjectSource/BuzzService.c:162-208 | a + b ticks are a ticks then b ticks |
| Buzz.RunOne | ProjectSource/BuzzService.c:162-208 | helper: one tick of a run is the tick |
| Buzz.SlideExact | ProjectSource/BuzzService.c:182-196 | while it does not wrap, n slides move the frequency by exactly 50·n |
| Buzz.Ramp | ProjectSource/BuzzService.c:182-196 | an arpeggio of n ticks has n tones |
| Buzz.RampAt | ProjectSource/BuzzService.c:182-196 | tone i of an arpeggio is at the frequency after i+1 slides |
| Buzz.Silent | ProjectSource/BuzzService.c:286-290 | outputs without a buzzer call contain no tones |
| Buzz.ArpeggioTick | ProjectSource/BuzzService.c:182-196 | an up or down tick slides once and sounds that frequency for time/15 |
| Buzz.UpTick | ProjectSource/BuzzService.c:182-185 | a rising tick emits exactly its one tone |
| Buzz.DownTick | ProjectSource/BuzzService.c:186-196 | a falling tick emits exactly one tone |
| Buzz.Arpeggio | ProjectSource/BuzzService.c:182-196 | n ticks of an arpeggio slide n times and sound the ramp |
| Buzz.ArpeggioEnd | ProjectSource/BuzzService.c:165-196 | the tick after the ramp is the exhausted-count tick |
| Buzz.FinalArpeggio | ProjectSource/BuzzService.c:165-196 | with no cycles left an arpeggio ends quiet after its ramp |
| Buzz.CycleArpeggio | ProjectSource/BuzzService.c:165-196 | with cycles left an arpeggio reloads and emits the reload tone after its ramp |
| Buzz.PlayEvents | ProjectSource/BuzzService.c:150-281 | a request followed by n timer events plays the request and n ticks |
| Buzz.PlayTones | ProjectSource/BuzzService.c:210-273 | a pattern's tones are the request tone followed by the ticks' tones |
| Buzz.RequestTone | ProjectSource/BuzzService.c:210-273 | every known request starts with exactly one tone |
| Buzz.PlanetPattern | ProjectSource/BuzzService.c:213-222 | a planet hit rises from 1000 Hz by 50 for 15 ticks to 1750, then goes quiet |
| Buzz.AsteroidPattern | ProjectSource/BuzzService.c:223-232 | an asteroid hit falls from 800 Hz by 50 for 15 ticks to 50, then goes quiet |
| Buzz.SeriesRun | ProjectSource/BuzzService.c:165-196 | an arpeggio with c cycles plays c+1 ramps that alternate in direction, in 16·(c+1) ticks |
| Buzz.Alternate | ProjectSource/BuzzService.c:171-174 | the reloaded direction alternates with the cycle count |
| Buzz.ReloadFlips | ProjectSource/BuzzService.c:171-181 | a reload flips the direction and uses up one cycle |
| Buzz.FirstCycle | ProjectSource/BuzzService.c:171-196 | the first arpeggio of a series ends in its reload |
| Buzz.SeriesNextVars | ProjectSource/BuzzService.c:171-196 | the end state of a series follows from the end state of its tail |
| Buzz.SeriesNextTones | ProjectSource/BuzzService.c:171-196 | the tones of a series follow from the tones of its tail |
| Buzz.SeriesGlue | ProjectSource/BuzzService.c:171-196 | a ramp, its reload tone and the rest of the series make the series |
| Buzz.BlackHolePattern | ProjectSource/BuzzService.c:233-243 | a black-hole hit plays five ramps (up, down, up, down, up) between 600 and 1350 Hz, then goes quiet |
| Buzz.BlackHoleEnd | ProjectSource/BuzzService.c:233-243 | the black-hole series ends at 1350 Hz |
| Buzz.BlackHoleSwings | ProjectSource/BuzzService.c:233-243 | the black-hole series written out is five alternating ramps |
| Buzz.Table | ProjectSource/BuzzService.c:46-72 | the start tune has 8 notes and the end tune 13 |
| Buzz.Notes | ProjectSource/BuzzService.c:286-290 | a tune run has one tone per table entry |
| Buzz.NotesAt | ProjectSource/BuzzService.c:286-290 | note i of a run sounds entry i |
| Buzz.Melody | ProjectSource/BuzzService.c:197-202 | c tune ticks sound c notes |
| Buzz.MelodyNotes | ProjectSource/BuzzService.c:197-202 | c tune ticks play the last c table entries in order |
| Buzz.TuneStep | ProjectSource/BuzzService.c:197-202 | a tune tick only lowers the count |
| Buzz.TuneRunVars | ProjectSource/BuzzService.c:197-202 | count tune ticks bring the count to 0 and change nothing else |
| Buzz.TuneTick | ProjectSource/BuzzService.c:197-202 | a tune tick with count c sounds table entry length−c |
| Buzz.TuneTicks | ProjectSource/BuzzService.c:197-202 | the tune ticks play the tail of the table in order |
| Buzz.StartTunePattern | ProjectSource/BuzzService.c:197-261 | the start tune sounds entry 4 at request, then entries 1..7, each for 1600/15 = 106, then goes quiet |
| Buzz.EndTunePattern | ProjectSource/BuzzService.c:200-271 | the end tune sounds entry 1 at request, then entries 2..12, each for 2400/15 = 160, then goes quiet |
| Buzz.TunePlay | ProjectSource/BuzzService.c:197-271 | a tune request plus its ticks sounds the request note and then the melody |
| Buzz.TuneEnd | ProjectSource/BuzzService.c:165-202 | a tune ends quiet one tick after its last note |
| Buzz.Finish | ProjectSource/BuzzService.c:165-170 | once everything is exhausted the next tick only goes quiet |
| Buzz.Service.constructor | ProjectSource/BuzzService.c:89-117 | the buzzer starts quiet with the PWM muted and ES_INIT posted |
| Buzz.Service.SoundBuzzer | ProjectSource/BuzzService.c:286-290 | appends one (frequency, duration) tone |
| Buzz.Service.Run | ProjectSource/BuzzService.c:150-281 | the new fields and buzzer outputs are those of BuzzStep, with nothing posted |
| Buzz.Service.RunTick | ProjectSource/BuzzService.c:162-208 | the new fields and outputs are those of one tick |
| Buzz.Service.RunRequest | ProjectSource/BuzzService.c:210-273 | the new fields and outputs are those of the request |
| Game.Digits | ProjectSource/GameService.c:642 | a non-negative number prints as at least one decimal digit |
| Game.Decimal | ProjectSource/GameService.c:642 | the score text starts with a minus sign exactly when the score is negative; every other character is a decimal digit, and there is at least one digit |
| Game.DigitsRoundTrip | ProjectSource/GameService.c:642 | reading the printed digits gives the number back |
| Game.DecimalRoundTrip | ProjectSource/GameService.c:642 | reading the printed score, sign included, gives the score back |
| Game.LedPatterns | ProjectSource/GameService.c:301-566 | the all-off, start, odd-frame and even-frame LED vectors have 13 entries with the stated values |
| Game.NewPlanet | ProjectSource/GameService.c:598-611 | the new target is in 0..3 and differs from a previous target |
| Game.NewPlanetReaches | ProjectSource/GameService.c:598-611 | every planet other than the old target can be drawn |
| Game.NewTargetLeds | ProjectSource/GameService.c:598-620 | LED[new] is set, LED[old] is cleared, every other LED is kept, and one shift update is posted |
| Game.ScoreDelta | ProjectSource/GameService.c:633-645 | the score changes by exactly the delta, with no clamping, while it fits in 16 bits |
| Game.DifficultyLevels | ProjectSource/GameService.c:678-684 | the black-hole probability is the level; levels 1..99 give the slowest planet switch and only level 100 the fastest |
| Game.InitLevel | ProjectSource/GameService.c:124-131 | the power-up level is within 1..100 |
| Game.InitLevelInverted | ProjectSource/GameService.c:124-131 | the power-up level reads the pot inverted: 0 gives 100, 1023 gives 1, and it never rises with the reading |
| Game.InitKeepsInvariant | ProjectSource/GameService.c:104-164 | the power-up variables satisfy the game invariant |
| Game.Waiting2CoinsResets | ProjectSource/GameService.c:214-285 | every event in Waiting2Coins resets score, flags, countdown and target; only a coin moves on, to Waiting1Coins |
| Game.FirstCoin | ProjectSource/GameService.c:247-271 | the first coin sets the coin cooldown and LED[5], beeps, and arms the coin-delay and user-input timers |
| Game.Waiting2CoinsClears | ProjectSource/GameService.c:230-246 | the countdown timeout blanks all LEDs and shows the insert-coins message |
| Game.SecondCoin | ProjectSource/GameService.c:286-337 | a second coin starts the game iff the coin cooldown is over; timeout 7 clears the cooldown; timeout 10 returns to Waiting2Coins |
| Game.PlanetScoring | ProjectSource/GameService.c:446-462 | hitting the target planet adds 10 and re-rolls the target; any other planet changes nothing |
| Game.AsteroidScoring | ProjectSource/GameService.c:442-479 | an asteroid subtracts 3 only outside its cooldown and starts it; timeout 12 ends it |
| Game.BlackHoleScoring | ProjectSource/GameService.c:480-503 | a black-hole hit subtracts 5 and clears the black hole and LED[4] only while the black hole is on; the user-input timer is re-armed either way |
| Game.Countdown | ProjectSource/GameService.c:393-417 | above 1 the countdown clears LED[6+countdown], always an index in 8..12, and decrements; at 1 it enters GameOver with countdown 6, plays the end tune and stops both game timers |
| Game.StartGameInvariant | ProjectSource/GameService.c:289-322 | starting a game establishes the GameOn invariant: LED[4] iff black hole, and exactly the target's planet LED lit |
| Game.GameOnTimeoutInvariant | ProjectSource/GameService.c:362-445 | every GameOn timeout keeps the invariant |
| Game.PlanetTimerInvariant | ProjectSource/GameService.c:363-366 | the planet timer re-rolls the target and stays in GameOn with the invariant |
| Game.BlackHoleSampleInvariant | ProjectSource/GameService.c:367-392 | black-hole sampling keeps LED[4] equal to the black-hole flag |
| Game.CountdownInvariant | ProjectSource/GameService.c:393-417 | the countdown keeps the invariant |
| Game.GameOnHitInvariant | ProjectSource/GameService.c:446-503 | hits keep the invariant and stay in GameOn |
| Game.Waiting2CoinsInvariant | ProjectSource/GameService.c:214-285 | Waiting2Coins keeps the invariant |
| Game.Waiting1CoinsInvariant | ProjectSource/GameService.c:286-350 | Waiting1Coins keeps the invariant |
| Game.GameStepKeepsInvariant | ProjectSource/GameService.c:205-581 | every dispatch keeps the invariant |
| Game.Steps | ProjectSource/GameService.c:205-581 | any run of events keeps the invariant |
| Game.FrameStep | ProjectSource/GameService.c:525-552 | a GameOver frame shows SCORE! or FINAL! by parity and lights the odd or even LED pattern |
| Game.RestartStep | ProjectSource/GameService.c:553-570 | after the frames the game returns to Waiting2Coins with all LEDs off and score 0 |
| Game.GameOverRun | ProjectSource/GameService.c:519-574 | the GameOver countdown plays its frames down to 0 and then restarts with all LEDs off and score 0 |
| Game.Service.constructor | ProjectSource/GameService.c:104-164 | starts in Waiting2Coins with the reset variables and the pot-derived difficulty, and posts ES_INIT |
| Game.Service.CopyLeds | ProjectSource/GameService.c:301-311 | the LED vector becomes the given pattern |
| Game.Service.GetNewPlanet | ProjectSource/GameService.c:598-620 | the target and LEDs become those of NewTarget |
| Game.Service.Run | ProjectSource/GameService.c:205-581 | copies the next state into the current state, then the new variables, LEDs and posts are those of GameStep |
| Game.Service.Dispatch | ProjectSource/GameService.c:212-578 | the new variables, LEDs and posts are those of GameStep |
| Game.Service.RunWaiting2Coins | ProjectSource/GameService.c:214-285 | as Waiting2CoinsStep |
| Game.Service.RunNewPot | ProjectSource/GameService.c:273-284 | as NewLevel: shows the level and sets the difficulty |
| Game.Service.RunWaiting1Coins | ProjectSource/GameService.c:286-350 | as Waiting1CoinsStep |
| Game.Service.RunStartGame | ProjectSource/GameService.c:289-322 | as StartGame |
| Game.Service.RunGameOnTimeout | ProjectSource/GameService.c:362-445 | as GameOnTimeout |
| Game.Service.RunBlackHoleSample | ProjectSource/GameService.c:367-392 | as BlackHoleSample, which changes only the black-hole flag and LEDs |
| Game.Service.RunGameOnHit | ProjectSource/GameService.c:446-503 | as GameOnHit |
| Game.Service.RunPlanetHit | ProjectSource/GameService.c:446-462 | as PlanetHitStep |
| Game.Service.RunAsteroidHit | ProjectSource/GameService.c:463-479 | as AsteroidHitStep |
| Game.Service.RunBlackHoleHit | ProjectSource/GameService.c:480-503 | as BlackHoleHitStep |
| Game.Service.RunWaiting | ProjectSource/GameService.c:506-518 | as WaitingStep |
| Game.Service.RunGameOver | ProjectSource/GameService.c:519-574 | as GameOverStep |
| Sensors.HallPosts | ProjectSource/EventCheckers.c:138-149 | the posts are in sensor order, at most one per sensor, each with the sensor's event kind and its index as param |
| Sensors.HallPostsIff | ProjectSource/EventCheckers.c:139-147 | sensor i posts iff its reading changed and is now low |
| Sensors.HallFound | ProjectSource/EventCheckers.c:138-151 | the checker reports an event iff some sensor has a falling edge |
| Sensors.HallSteady | ProjectSource/EventCheckers.c:138-149 | unchanged readings post nothing |
| Sensors.HallFirstPoll | ProjectSource/EventCheckers.c:120-149 | on the first poll a real sensor posts iff it read high into the last values and low into the current values; when the two reads agree, only the slot past the end can post |
| Sensors.HallPrefix | ProjectSource/EventCheckers.c:138-149 | the posts depend only on the last values of the scanned sensors |
| Sensors.CoinPosts | ProjectSource/EventCheckers.c:157-174 | polling the beam posts at most once per poll |
| Sensors.CoinPostsBound | ProjectSource/EventCheckers.c:164-170 | falling edges alternate with rising ones, so at most half the polls post |
| Sensors.CoinHeldLow | ProjectSource/EventCheckers.c:161-170 | a beam held low posts exactly once, and only if it was high before |
| Sensors.PotDiffDistance | ProjectSource/EventCheckers.c:189 | for 10-bit readings the wrapped signed difference is the distance, and 'moved' means more than 10 apart |
| Sensors.PotPoll | ProjectSource/EventCheckers.c:177-211 | the first poll only records a baseline; later polls post iff the pot moved by more than 10, and the baseline changes only on a post |
| Sensors.PotPosts | ProjectSource/EventCheckers.c:177-211 | a run of polls posts at most once per poll |
| Sensors.PotWithinBand | ProjectSource/EventCheckers.c:188-189 | readings all within 10 of the baseline never post |
| Sensors.PotPostLevel | ProjectSource/EventCheckers.c:189-203 | a post is ES_NEW_POT with a level in 1..100 that does not decrease as the reading rises |
| Sensors.Checkers.constructor | ProjectSource/EventCheckers.c:112-115 | first-run and first-trigger flags are set, the beam's last value is 1 and the arrays are zero |
| Sensors.Checkers.CheckHallEffect | ProjectSource/EventCheckers.c:118-152 | the first poll stores its own separate reading into the last values; the posts are HallPosts of the current reading against the last values; afterwards both arrays hold the current reading |
| Sensors.Checkers.ReadPins | ProjectSource/EventCheckers.c:121-136 | the six pin reads fill entries 0..5 and the slot past the end is kept |
| Sensors.Checkers.Scan | ProjectSource/EventCheckers.c:138-151 | the loop posts HallPosts of the readings against the last values and overwrites every last value |
| Sensors.Checkers.CheckIRSensor | ProjectSource/EventCheckers.c:157-174 | posts a coin and reports true iff the beam has a falling edge; the last value becomes the reading |
| Sensors.Checkers.CheckPotSensor | ProjectSource/EventCheckers.c:177-211 | the flags, baseline, post and result are those of PotPoll |

## Left out

- Peripheral configuration is not modelled, as it has no behaviour beyond register plumbing. This covers:
  - TRIS/ANSEL pin set-up;
  - SPI, PWM and ADC set-up;
  - clearing the terminal and the debug printing.
- The event framework's internal code (posting, timers, the deferral queue, recall) is not part of this model.
  - Posts and timer arms and stops are recorded as actions.
  - The deferral queue is a bounded FIFO whose capacity is a parameter; the source declares it with 3+1 slots.
  - `Recall` records the whole queue in arrival order. The order in which the framework actually re-posts recalled events cannot be seen from these files.
- `rand()`, the pin reads, the ADC sample and `getFontLine` are external.
  - The first three are parameters.
  - The font is an uninterpreted function.
  - The SPI peripheral is a trace of the 16-bit words sent.
- `Check4Keystroke` in `EventCheckers.c` is a keyboard debugging aid that feeds events in by hand. It is left out.
- `LevelDisplayTime*1.5` is a floating-point multiply. The model arms the countdown timer with 2250, which is that product.
- Three event params are uninitialised locals in the source. The model uses 0 for each, because no receiver reads them:
  - the shift-update post at `GameService.c:431-433`;
  - the coin event from `CheckIRSensor`;
  - the LED service's re-posted row update.
- Game.Decimal: the score text is the full signed decimal. The source prints into a 4-byte buffer, which overflows for scores of 1000 and above or −100 and below; that memory corruption is not modelled.
- Event messages are modelled as string values, not as addresses. Their lifetimes are not captured: the level text is a local array whose address is queued, and the scroll string is kept by address.
- The shadowed and unused statics are left out, since nothing reads them:
  - `TuneCycle` in `BuzzService.c`;
  - the file-level `CurrentVal`/`LastVal` in `EventCheckers.c`, hidden inside `CheckIRSensor` by its own statics of the same names;
  - the shift service's deferral queue.
- DotMatrix.ShiftLeft: a shift count of 32 or more is undefined behaviour in C, and on the PIC32 the shift instruction would use the count modulo 32. The model resolves every such count as 0, clearing the rows. Only a word of 9..120 or 137..248 characters reaches this, through the centring shift; the game's own words have at most 6.
- Led.Length8: messages are taken to be byte strings with no embedded NUL. `strlen` would stop at an embedded NUL; the model counts every character. Each character is folded to a byte with `% 0x100`, as the `(unsigned char)` cast does for byte-sized characters.
- Slots past the end of an array:
  - Each is an independent value: cell 8 of each display buffer, entry 6 of each hall-effect array, and the event kind read past the end of the kind table.
  - Their aliasing with whatever memory follows the real arrays is not modelled.
  - In particular the 9th display row sent by the refresh is that cell.
- DotMatrix.Engine.QueryRowData reports display 1's row whichever display is asked for. That is what the source does.
- The tune tables' entry 0 is never played, and the tick branch for a count that is already 0 in the tune types cannot be reached. Both are kept as written but have no lemma of their own.
- Game.Service.Run: the branch methods return their posts and `Run` appends them. The source posts as it goes, and the recorded order is the same.
- The buzzer's PWM duty cycle is modelled only as a tone or a mute record, not as register values.
