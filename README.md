# Hall-effect tachometer: a Dafny model

This project models `tach.c`, a bare-metal AVR program that measures how fast a shaft turns. A Hall-effect sensor gives one pulse per revolution on the INT0 pin. The program never enables the interrupt. It spins on the pin's flag (INTF0 in EIFR) instead. On one edge it starts Timer/Counter1, which ticks every 51.2 µs. On the next edge it stops the timer, reads TCNT1 and zeroes it. It then divides `TIMER_TO_TACH` (60 · 10000000 / 512 = 1171875 ticks per minute) by the count and writes the result to an LCD. Then it clears the flag and repeats.

The model has two modules:

- `TachConvert` (`convert.dfy`) covers the constant and the division. `TicksToRpm` is the division as the C code writes it. It is only defined for a nonzero count. `Convert` is the same division with a count of 0 turned into an explicit `DivideByZero` reading. Lemmas bound the rate, show that it never increases as the period grows, and show that its decimal text fits the 10-byte buffer.
- `TachLoop` (`loop.dfy`) covers the measurement loop. The class `Meter` holds the hardware state as fields:
  - `timerOn` stands for TCCR1B.
  - `count` is a 16-bit wrapping TCNT1.
  - `edgeFlag` stands for INTF0.
  - `phase` records where the loop body stands.
  - `tachTimer` and `tachometer` are the loop's two locals.

  Ghost fields record the sensor's edges, which edge each spin-wait consumed, the unwrapped length of every measurement, and every value sent to the display. `Edge` and `Tick` are the environment's steps. `StartTiming`, `StopTimer`, `Capture` and `Report` are the loop body's statements, in source order. Each busy-wait becomes the precondition "the flag is set" on the step that follows it. Three client methods run the machine from power-up through one or several measurements.

Truncating division matters in practice. A period of 23437 ticks reads 50 RPM. A period of 23438 ticks reads 49, not a rounded 50. A period of 11719 ticks reads 99, not 100 (`TachConvert.TruncationExamples`).

## Model

| member | source | states |
|---|---|---|
| `TachConvert.TimerToTachValue` | tach.c:52 | The conversion constant is exactly 1171875. The product 600000000 that it is computed from fits in a 32-bit `unsigned long`. |
| `TachConvert.TicksToRpm` | tach.c:94 | For a nonzero count, the rate is the floor of 1171875 / ticks: `rate·ticks ≤ 1171875 < (rate+1)·ticks`. |
| `TachConvert.Convert` | tach.c:94 | The result is `DivideByZero` exactly when the count is 0. Otherwise it is the floor quotient, and that quotient lies in [17, 1171875]. |
| `TachConvert.RateBounds` | tach.c:94 | For every count in 1..65535 the rate lies in [17, 1171875], so it fits a 32-bit `unsigned long`. |
| `TachConvert.RateNonIncreasing` | tach.c:94 | A longer period never gives a higher rate: `0 < a ≤ b` implies `rate(b) ≤ rate(a)`. |
| `TachConvert.Digits` | tach.c:95 | The digit count d of the decimal text that `ltoa` writes satisfies 10^(d-1) ≤ n < 10^d, or is 1 when n < 10. |
| `TachConvert.RateFitsBuffer` | tach.c:94-95 | The rate of any nonzero count has 2 to 7 digits. With the terminating NUL it fits `tempStr[10]` (declared at tach.c:59). |
| `TachConvert.TruncationExamples` | tach.c:94 | Sample values: 23437 gives 50, 23438 gives 49, 11719 gives 99, 1 gives 1171875 and 65535 gives 17. |
| `TachLoop.Meter.constructor` | tach.c:70-72 | The loop starts with the timer off and TCNT1 at 0. The edge flag holds whatever was pending, and the display has received nothing. |
| `TachLoop.Meter.Edge` | tach.c:67 | A sensor edge sets the flag at any point of the loop and changes nothing else. |
| `TachLoop.Meter.Tick` | tach.c:43-45 | TCNT1 goes up by one modulo 65536 only while the timer is on. Otherwise nothing changes. |
| `TachLoop.Meter.StartTiming` | tach.c:78-82 | This step needs a pending flag. It turns the timer on from a zero count and clears the flag. The edge it consumes is later than every edge consumed before. |
| `TachLoop.Meter.StopTimer` | tach.c:87-89 | This step needs a flag set again after the start cleared it, so the stop edge is a new edge. It switches the timer off and keeps the count. |
| `TachLoop.Meter.Capture` | tach.c:90-91 | This step runs only after the timer is off. `tachTimer` gets the count, which is the number of elapsed ticks mod 65536. TCNT1 goes back to 0, as at start-up. |
| `TachLoop.Meter.Report` | tach.c:94-98 | The display receives exactly one more value, `Convert(tachTimer)`, which is `DivideByZero` exactly when the elapsed ticks are a multiple of 65536. The flag is cleared and the loop waits for a fresh edge. |
| `TachLoop.MeasureTicks` | tach.c:70-91 | With N ticks between the two edges, the captured count is N mod 65536. |
| `TachLoop.MeasureAndShow` | tach.c:70-98 | One iteration shows `Convert(N mod 65536)`. The result is `DivideByZero` exactly when 65536 divides N. It is `Rpm(1171875 / N)` for 0 < N < 65536. |
| `TachLoop.WrappedPeriodCapturesZero` | tach.c:89-94 | A period of 65536 ticks captures the count 0, for which the division at line 94 is undefined. |
| `TachLoop.RunCycles` | tach.c:74-99 | k iterations show exactly k values. The i-th value is the conversion of the i-th period mod 65536. |

These facts hold at every step. `Meter.Valid` states them, and every step above keeps it:

- Every spin-wait exit consumes a strictly later edge than the previous one, so no two measurements share an edge.
- Every value sent to the display is `Convert` of its own period mod 65536.
- The timer is off and TCNT1 is 0 whenever the loop waits for a starting edge.

## Findings

| source | as written | input that shows it | evidently intended | confidence | as-written member | corrected member |
|---|---|---|---|---|---|---|
| tach.c:94 | `TIMER_TO_TACH / (unsigned long)tachTimer` with no guard on `tachTimer` | 65536 ticks (about 3.36 s, a shaft slower than 18 RPM) between two edges: TCNT1 wraps to 0 and the code divides by 0 | report an explicit "no rate" reading instead of dividing | not executed | `TachLoop.WrappedPeriodCapturesZero` | `TachConvert.Convert` |

`TachConvert.TicksToRpm` is the division exactly as written. Its precondition `ticks > 0` is the condition the C code needs and never checks. The loop (`Meter.Report`) uses `Convert` instead.

## Left out

- Register set-up of DDRD, EICRA and TCCR1A (tach.c:66-70) is left out. It configures the pin and the counter mode and carries no logic. The falling-edge choice is reflected only in `Meter.Edge`.
- The prescaler reset through GTCCR/PSRSYNC (tach.c:81) is modelled only as "the first tick after start is a whole tick". Each `Tick` is one full 51.2 µs period.
- The LCD driver (`hd44780_init`, `hd44780_clearLine`, `hd44780_putstr`, tach.c:62 and tach.c:96-97) is not part of this model. The display is a ghost sequence of readings.
- The text `ltoa` produces (tach.c:95) is not modelled. Only its length is bounded (`Digits`, `RateFitsBuffer`).
- Real time is left out: the CPU clock, the speed of the spin loops, and how the edge flag is set asynchronously. Edges and ticks are discrete environment steps that may come between any two loop steps. The source comments disagree on the clock (20 MHz at tach.c:23, 26 MHz at tach.c:44). Only the constant at tach.c:52 enters the model.
- The C code leaves the value of a division by 0 to the target's runtime library. The model does not guess that value. It records the outcome as `DivideByZero`.
- The `while(1)` loop never ends. `RunCycles` drives any finite number of its iterations.
