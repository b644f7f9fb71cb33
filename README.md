# Capacitive touch button firmware, modelled in Dafny

The firmware is a single polling loop on an AVR microcontroller. On every pass it does the following:

1. It reads the capacitive SENSE line.
2. It shifts that raw sample into a 64-entry history and takes a majority vote over the history. This is the noise filter; the vote is the *filtered state*.
3. It drives the PRESS output from the filtered state.
4. It lights LED0 and LED1 together when the filtered state and the LED_CTL input are both true.
5. It drives a buzzer by dividing the loop rate with a phase counter. BUZZ toggles every 3300 enabled passes and is forced low on a pass that is not enabled.

The project has five modules:

- `SenseFilter` (`filter.dfy`) holds the history as a value. It defines the shift (`Shifted`), the vote's sum (`Sum`) and its threshold test (`Majority`), and feeding many samples (`Feed`). Its lemmas say that the history is a fixed-capacity FIFO and that the vote is a majority test.
- `Buzzer` (`buzzer.dfy`) holds the phase counter and the BUZZ pin as a value. `BuzzStep` is one call of the buzzer routine. Its lemmas count the toggles over a run.
- `ControlLoop` (`loop.dfy`) defines the whole loop state and one pass over it (`Iteration`). `Run` is a finite run of passes. The module also states the invariant every pass keeps and the multi-pass properties of the filter.
- `Firmware` (`touch_button.dfy`) is the firmware's global state as a class, `TouchButton`. The sample array is an `array<byte>`; the filtered state, the counter and the output pins are fields. There is one method per C routine, and each is proved against the functions above. `Step` is one pass of the loop; `RunFor` is the loop cut to a given list of inputs.
- `ShiftAsWritten` (`shift_as_written.dfy`) models the shift loop exactly as written. As written, that loop writes one byte past the end of the sample array (see Findings).

The inputs of one pass are logical booleans: touched, LED enabled, buzzer enabled. The pull-ups and the inversion set up at start-up make the pins read that way. Output pins are boolean fields.

Integer widths follow the C declarations:

- Samples and the filtered state are `byte`, 0 to 255.
- The vote's accumulator and the buzzer counter are `uint16`.
- Both increments are written with an explicit wrap-around at 2^16. The proofs show that the wrap never happens: the sum of 64 bytes stays below 2^16, and the counter stays below 3300.

## Model

| member | source | states |
|---|---|---|
| `SenseFilter.Sample` | trunk/Software/st/st/st/main.c:89 | the stored sample is 0 or 1, and is 1 exactly when SENSE reads touched |
| `SenseFilter.Shifted` | trunk/Software/st/st/st/main.c:85-91 | after a filter pass the history still has 64 entries, slot 0 holds the new sample, and slot i (1..63) holds the old slot i-1; the old slot 63 is dropped |
| `SenseFilter.ShiftedKeepsBits` | trunk/Software/st/st/st/main.c:87-89 | shifting a 0/1 sample into a history of 0/1 entries keeps every entry 0 or 1 |
| `SenseFilter.Sum` | trunk/Software/st/st/st/main.c:96-98 | the accumulated sum of n bytes is at most 255·n, so for 64 entries the 16-bit accumulator cannot overflow |
| `SenseFilter.SumOfBits` | trunk/Software/st/st/st/main.c:96-98 | on 0/1 entries the accumulated sum is the number of set entries, at most the length, and set plus clear entries make up the whole history |
| `SenseFilter.MajorityCountsOnes` | trunk/Software/st/st/st/main.c:94-105 | the vote is 1 iff at least 32 of the 64 samples are set (a 32/32 tie is pressed), and 0 iff more than 32 are clear; the sum never exceeds 64 |
| `SenseFilter.FeedWindow` | trunk/Software/st/st/st/main.c:85-91 | after any number of passes the history is the new samples, newest first, followed by the earlier history, cut to 64 entries (FIFO of fixed capacity) |
| `SenseFilter.RecentWindow` | trunk/Software/st/st/st/main.c:87-89 | after 64 or more passes the history is exactly the 64 most recent samples, newest first |
| `SenseFilter.RecentVote` | trunk/Software/st/st/st/main.c:94-105 | after 64 or more samples the vote is 1 iff the 64 most recent samples add up to at least 32 |
| `SenseFilter.FeedForgets` | trunk/Software/st/st/st/main.c:87-89 | two histories fed the same 64 or more samples become equal, so older samples no longer have any influence |
| `Buzzer.BuzzStep` | trunk/Software/st/st/st/main.c:136-150 | disabled: BUZZ is cleared and the counter keeps its value; enabled with counter below 3300: the counter advances modulo 3300, and BUZZ flips exactly when the counter wraps to 0 |
| `Buzzer.BuzzStepKeepsPhase` | trunk/Software/st/st/st/main.c:139-142 | a counter below 3300 stays below 3300, and its 16-bit increment never wraps |
| `Buzzer.EnabledStep` | trunk/Software/st/st/st/main.c:138-143 | one enabled pass from a counter below 3300 either wraps the counter to 0 and flips BUZZ, or advances the counter by one and leaves BUZZ alone |
| `Buzzer.EnabledPeriods` | trunk/Software/st/st/st/main.c:138-143 | over k enabled passes from counter c, c + k equals 3300 times the number of BUZZ toggles plus the final counter, which stays below 3300 |
| `Buzzer.EnabledParity` | trunk/Software/st/st/st/main.c:138-143 | after k enabled passes BUZZ is inverted iff it toggled an odd number of times |
| `Buzzer.EnabledRun` | trunk/Software/st/st/st/main.c:138-148 | k enabled passes from counter c toggle BUZZ exactly (c+k)/3300 times and leave the counter at (c+k) mod 3300; BUZZ ends inverted iff that count is odd |
| `Buzzer.TwoHalfPeriods` | trunk/Software/st/st/st/main.c:138-143 | 6600 enabled passes from a zero counter toggle BUZZ exactly twice and return to the starting state |
| `Buzzer.PhaseSurvivesDisable` | trunk/Software/st/st/st/main.c:145-148 | a disabled pass does not reset the phase: a following enabled run continues counting from the old counter |
| `ControlLoop.InitInv` | trunk/Software/st/st/st/main.c:28-31 | the zero-initialised globals (all-zero history, filtered 0, counter 0, outputs low) satisfy the loop invariant |
| `ControlLoop.IterationKeepsInv` | trunk/Software/st/st/st/main.c:49-61 | one pass keeps the invariant: 64 bits of history, filtered equal to the vote, PRESS equal to filtered, LED0 = LED1 = filtered and LED_CTL, BUZZ low and counter unchanged when not (filtered and BUZZ_CTL), counter below 3300 |
| `ControlLoop.RunKeepsInv` | trunk/Software/st/st/st/main.c:49-62 | every finite run of the loop keeps the invariant |
| `ControlLoop.RunHistory` | trunk/Software/st/st/st/main.c:51-52 | the history after a run is the starting history with the run's SENSE samples shifted in, in order |
| `ControlLoop.RecentMajority` | trunk/Software/st/st/st/main.c:94-105 | the vote over a history fed 64 or more SENSE readings is 1 iff at least 32 of the 64 most recent readings were touched |
| `ControlLoop.FilteredIsRecentMajority` | trunk/Software/st/st/st/main.c:51-52 | after 64 or more passes the filtered state is 1 iff at least 32 of the 64 most recent SENSE readings were touched |
| `ControlLoop.SameHistorySameFilter` | trunk/Software/st/st/st/main.c:51-52 | the history and filtered state a run produces depend only on the starting history and the run's inputs, not on the buzzer or outputs |
| `ControlLoop.RunOutputs` | trunk/Software/st/st/st/main.c:51-58 | after a non-empty run PRESS is the filtered state and both LEDs are filtered and the last LED_CTL |
| `ControlLoop.OldSamplesForgotten` | trunk/Software/st/st/st/main.c:51-58 | after 64 or more passes, runs from any two valid states agree on history, filtered state, PRESS and LEDs |
| `ControlLoop.AlternatingTieIsPressed` | trunk/Software/st/st/st/main.c:100-101 | 64 passes alternating touched/untouched give a 32/32 tie, which reads as pressed, from any valid state |
| `ControlLoop.ReleaseAfterHold` | trunk/Software/st/st/st/main.c:97-103 | from power-up, 40 touched passes and then j untouched ones (j up to 64) leave the filtered state 1 for j up to 32 and 0 from the 33rd untouched pass on |
| `ControlLoop.LedsDarkWithoutEnable` | trunk/Software/st/st/st/main.c:121-131 | with LED_CTL off on every pass both LEDs are dark after every pass, whatever the filtered state |
| `Firmware.TouchButton.constructor` | trunk/Software/st/st/st/main.c:28-31 | a fresh 64-byte zero history, filtered 0, counter 0, outputs low, and the invariant holds |
| `Firmware.TouchButton.RunLPFilt` | trunk/Software/st/st/st/main.c:85-91 | the in-place descending loop leaves the array equal to `Shifted` of its old contents and the new sample |
| `Firmware.TouchButton.Vote` | trunk/Software/st/st/st/main.c:94-105 | the 16-bit accumulating loop returns the vote `Majority` of the array, 1 iff the sum is at least 32 |
| `Firmware.TouchButton.RunButtonFunc` | trunk/Software/st/st/st/main.c:109-117 | PRESS becomes (filtered nonzero), and no other field changes |
| `Firmware.TouchButton.RunLEDFunc` | trunk/Software/st/st/st/main.c:121-131 | LED0 and LED1 both become (filtered and LED_CTL), and no other field changes |
| `Firmware.TouchButton.RunBuzzFunc` | trunk/Software/st/st/st/main.c:136-150 | counter and BUZZ move as one `BuzzStep` enabled by (filtered and BUZZ_CTL), and no other field changes |
| `Firmware.TouchButton.Step` | trunk/Software/st/st/st/main.c:49-61 | one pass in the order filter, vote, button, LEDs, buzzer yields exactly `Iteration` of the old state and keeps the invariant |
| `Firmware.TouchButton.RunFor` | trunk/Software/st/st/st/main.c:49-62 | running the loop body once per input yields exactly `Run` of the old state and keeps the invariant |
| `ShiftAsWritten.RunLPFiltAsWritten` | trunk/Software/st/st/st/main.c:85-91 | the loop as written, from i = 64 down, on the array plus the byte after it, yields `ShiftedAsWritten` of the old memory |
| `ShiftAsWritten.AsWrittenAgreesInside` | trunk/Software/st/st/st/main.c:87-89 | inside the array the as-written loop agrees with `Shifted`, and it also copies the old slot 63 into the byte after the array |
| `ShiftAsWritten.StrayWriteChangesNextByte` | trunk/Software/st/st/st/main.c:87-88 | a concrete memory (slot 63 set, next byte 0) whose next byte is changed by one pass |

## Findings

| source | as written | input that shows it | evidently intended | confidence | as-written member | corrected member |
|---|---|---|---|---|---|---|
| trunk/Software/st/st/st/main.c:87-88 | the shift loop starts at `i = SENSE_BUFF_LENGTH`. Its first pass writes `sense_buff[64]`, one past the end of the 64-byte array declared at line 30. | any pass: with slot 63 set and the byte after the array 0, that byte becomes 1 | start at `SENSE_BUFF_LENGTH - 1`, so slots 63 down to 1 take the previous slot and nothing outside the array is written | not executed; out-of-bounds index read off the loop bounds | `ShiftAsWritten.StrayWriteChangesNextByte` (with `ShiftAsWritten.RunLPFiltAsWritten`) | `Firmware.TouchButton.RunLPFilt` (with `SenseFilter.Shifted`) |

The rest of the model uses the corrected loop. Inside the array the two loops agree (`ShiftAsWritten.AsWrittenAgreesInside`), so the filter's behaviour does not depend on the correction. Only the stray byte does.

The buzzer's phase counter is not reset when the buzzer is disabled. The code does this, and the model keeps it (`Buzzer.PhaseSurvivesDisable`). It may not be intended, but no input makes it wrong, so it is not listed as a finding.

## Left out

- `io_config` (main.c:67-81) is one-time pin-direction, pull-up and inversion setup. The model takes the inputs as already-logical booleans and the outputs as boolean fields.
- The register macros `READ_PIN`/`SET_PIN`/`CLR_PIN`/`TGL_PIN` and `volatile` access are replaced by boolean parameters and fields. The 0/1 value of a stored sample comes from masking pin 0 (`SenseFilter.Sample`).
- The output pins start low in the model. That is the reset value of the port output registers, which is not visible in the source.
- The endless `while(1)` becomes a single pass (`Step`, `Iteration`) and finite runs (`RunFor`, `Run`). Nothing is said about an infinite execution.
- The real-time buzzer frequency depends on how fast the loop runs. Only the pass counts are modelled.
- `buzz_flag` (main.c:29) is declared but never used.
- What the stray write past `sense_buff` overwrites is undefined behaviour in C. The model gives it one extra byte and nothing more.
- The unfiltered variant of the firmware, which reads SENSE directly, is not part of this model.
