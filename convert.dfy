/** The period-to-RPM conversion of the tachometer: one shaft revolution
    per sensor pulse, a timer tick of 51.2 microseconds, and the value
    handed to the display as a decimal string in a 10-byte buffer. */
module TachConvert {

  /** Width of the Timer/Counter1 register TCNT1: it counts modulo 2^16. */
  const CounterModulus: nat := 0x1_0000

  /** A value the 16-bit counter register can hold (`unsigned int` on the target). */
  type Count = x: nat | x < 0x1_0000

  /** The `unsigned long` of the target is 32 bits wide. */
  const ULongModulus: nat := 0x1_0000_0000

  /** TIMER_TO_TACH: ticks per minute at one tick per 51.2 microseconds,
      computed in 32-bit unsigned arithmetic as 60 * 10000000 / 512. */
  const TimerToTach: nat := 60 * 10000000 / 512

  /** Size of the character buffer that receives the decimal text. */
  const TextBufferSize: nat := 10

  /** The constant is exactly 1171875, and neither it nor the intermediate
      product 600000000 overflows a 32-bit unsigned long. */
  lemma TimerToTachValue()
    ensures TimerToTach == 1171875
    ensures 60 * 10000000 < ULongModulus
    ensures TimerToTach * 512 == 60 * 10000000
  {
  }

  /** The division of the measurement loop, `TIMER_TO_TACH / ticks`, as the
      C code writes it: defined only for a nonzero count. The result is the
      floor of the exact quotient. */
  function TicksToRpm(ticks: Count): (rate: nat)
    requires ticks > 0
    ensures rate * ticks <= TimerToTach < (rate + 1) * ticks
  {
    TimerToTach / ticks
  }

  /** What one measurement shows: a rate, or the degenerate interval whose
      captured count is 0, for which the C division has no defined value. */
  datatype Reading = Rpm(value: nat) | DivideByZero

  /** The conversion with the zero count made an explicit outcome. */
  function Convert(ticks: Count): (r: Reading)
    ensures r.DivideByZero? <==> ticks == 0
    ensures r.Rpm? ==> r.value * ticks <= TimerToTach < (r.value + 1) * ticks
    ensures r.Rpm? ==> 17 <= r.value <= TimerToTach
  {
    if ticks == 0 then DivideByZero
    else
      RateBounds(ticks);
      Rpm(TicksToRpm(ticks))
  }

  /** For every nonzero 16-bit count the rate lies in [17, 1171875]: the
      slowest measurable shaft reads 17 RPM and one tick reads the constant. */
  lemma RateBounds(ticks: Count)
    requires ticks > 0
    ensures 17 <= TicksToRpm(ticks) <= TimerToTach
    ensures TicksToRpm(ticks) < ULongModulus
  {
    var r := TicksToRpm(ticks);
    MulMonotone(ticks, 65535, r + 1);
    MulMonotone(1, ticks, r);
  }

  /** A longer period never shows a higher rate. */
  lemma RateNonIncreasing(a: Count, b: Count)
    requires 0 < a <= b
    ensures TicksToRpm(b) <= TicksToRpm(a)
  {
    var ra, rb := TicksToRpm(a), TicksToRpm(b);
    MulMonotone(a, b, rb);
    MulLessCancel(rb, ra + 1, a);
  }

  lemma MulMonotone(x: nat, y: nat, k: nat)
    requires x <= y
    ensures x * k <= y * k
  {
  }

  lemma MulLessCancel(x: nat, y: nat, k: nat)
    requires x * k < y * k
    ensures x < y
  {
    if y <= x {
      MulMonotone(y, x, k);
    }
  }

  /** 10 to the power n. */
  function Pow10(n: nat): (p: nat)
    ensures p >= 1
  {
    if n == 0 then 1 else 10 * Pow10(n - 1)
  }

  lemma {:induction false} Pow10Monotone(m: nat, n: nat)
    requires m <= n
    ensures Pow10(m) <= Pow10(n)
    decreases n
  {
    if m < n {
      Pow10Monotone(m, n - 1);
    }
  }

  lemma Pow10Inverse(m: nat, n: nat)
    requires Pow10(m) < Pow10(n)
    ensures m < n
  {
    if n <= m {
      Pow10Monotone(n, m);
    }
  }

  /** Number of characters the decimal text of a non-negative n occupies
      (no sign, no leading zeros): the unique d >= 1 with
      10^(d-1) <= n < 10^d, or 1 for n == 0. */
  function Digits(n: nat): (d: nat)
    ensures 1 <= d
    ensures n < Pow10(d)
    ensures d > 1 ==> Pow10(d - 1) <= n
  {
    if n < 10 then 1 else 1 + Digits(n / 10)
  }

  /** The rate of a nonzero count prints as 2 to 7 decimal digits; with the
      terminating NUL it fits in the 10-byte text buffer. */
  lemma RateFitsBuffer(ticks: Count)
    requires ticks > 0
    ensures 2 <= Digits(TicksToRpm(ticks)) <= 7
    ensures Digits(TicksToRpm(ticks)) + 1 <= TextBufferSize
  {
    var r := TicksToRpm(ticks);
    RateBounds(ticks);
    var d := Digits(r);
    assert Pow10(1) == 10;
    assert Pow10(7) == 10000000;
    if d > 1 {
      Pow10Inverse(d - 1, 7);
    }
  }

  /** Sample periods and the values truncating division gives them:
      23437 ticks shows 50 RPM, while 23438 ticks (a period just over 1.2 s)
      shows 49 and 11719 ticks shows 99, not the rounded 50 and 100. */
  lemma TruncationExamples()
    ensures TicksToRpm(23437) == 50
    ensures TicksToRpm(23438) == 49
    ensures TicksToRpm(11719) == 99
    ensures TicksToRpm(1) == 1171875
    ensures TicksToRpm(65535) == 17
  {
  }
}
