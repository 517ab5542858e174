/** The measurement loop of the tachometer's `main`: Timer/Counter1 and the
    INT0 edge flag as the fields of one object, the environment's two
    actions (a sensor edge, a timer tick) as methods, and one method per
    group of statements the loop body executes between its two spin-waits. */
module TachLoop {
  import opened TachConvert

  /** Where the loop body stands. */
  datatype Phase =
    | AwaitStartEdge  // spinning on INTF0 before the timer is started
    | AwaitStopEdge   // timer running, spinning on INTF0 for the next edge
    | Stopped         // timer switched off, count not yet read
    | Captured        // count read into tachTimer and TCNT1 zeroed

  class Meter {
    /** TCCR1B: true for TIMER_ON (clock / 1024), false for TIMER_OFF. */
    var timerOn: bool
    /** TCNT1, the 16-bit counter. */
    var count: Count
    /** INTF0 in EIFR, set by a falling edge on the INT0 pin. */
    var edgeFlag: bool
    var phase: Phase
    /** The local `tachTimer`: the count read after the timer stops. */
    var tachTimer: Count
    /** The local `tachometer`: the value computed from tachTimer. */
    var tachometer: Reading

    /** Ticks counted since the timer was last started, without wrap-around. */
    ghost var elapsed: nat
    /** Number of edges the sensor has produced so far. */
    ghost var edges: nat
    /** The value of `edges` when software last cleared the flag. */
    ghost var lastClear: nat
    /** For each exit from a spin-wait, the number of the edge it observed. */
    ghost var observed: seq<nat>
    /** The unwrapped length in ticks of every completed measurement. */
    ghost var periods: seq<nat>
    /** Every value handed to the display, in order. */
    ghost var emitted: seq<Reading>

    /** The invariant the loop keeps between steps. */
    ghost predicate Valid()
      reads this
    {
      // a pending flag stands for an edge that software has not yet cleared
      && lastClear <= edges
      && (edgeFlag ==> lastClear < edges)
      // every spin-wait exit observed a later edge than the one before it
      && (forall i, j :: 0 <= i < j < |observed| ==> observed[i] < observed[j])
      && (forall i :: 0 <= i < |observed| ==>
            observed[i] <= if phase.Stopped? || phase.Captured? then edges else lastClear)
      // every displayed value is the conversion of its wrapped period
      && (forall i :: 0 <= i < |emitted| ==> i < |periods| && emitted[i] == Convert(periods[i] % CounterModulus))
      && match phase
         case AwaitStartEdge =>
           && !timerOn && count == 0
           && |periods| == |emitted| && |observed| == 2 * |emitted|
         case AwaitStopEdge =>
           && timerOn && count == elapsed % CounterModulus
           && |periods| == |emitted| && |observed| == 2 * |emitted| + 1
         case Stopped =>
           && !timerOn && count == elapsed % CounterModulus
           && |periods| == |emitted| && |observed| == 2 * |emitted| + 2
         case Captured =>
           && !timerOn && count == 0 && tachTimer == elapsed % CounterModulus
           && |periods| == |emitted| + 1 && periods[|emitted|] == elapsed
           && |observed| == 2 * |emitted| + 2
    }

    /** Power-up and the timer set-up before the loop: the counter is off
        and zero. The code never writes INTF0 before the loop, so whether an
        edge is already pending is a parameter. */
    constructor (pendingEdge: bool)
      ensures Valid()
      ensures phase == AwaitStartEdge && !timerOn && count == 0
      ensures edgeFlag == pendingEdge
      ensures observed == [] && periods == [] && emitted == []
    {
      timerOn := false;
      count := 0;
      edgeFlag := pendingEdge;
      phase := AwaitStartEdge;
      tachTimer := 0;
      tachometer := DivideByZero;
      elapsed := 0;
      edges := if pendingEdge then 1 else 0;
      lastClear := 0;
      observed := [];
      periods := [];
      emitted := [];
    }

    /** Environment: a falling edge on the sensor line sets INTF0, at any
        point of the loop. */
    method Edge()
      requires Valid()
      modifies this
      ensures Valid()
      ensures edgeFlag && edges == old(edges) + 1
      ensures timerOn == old(timerOn) && count == old(count) && phase == old(phase)
      ensures tachTimer == old(tachTimer) && tachometer == old(tachometer)
      ensures elapsed == old(elapsed) && lastClear == old(lastClear)
      ensures observed == old(observed) && periods == old(periods) && emitted == old(emitted)
    {
      edgeFlag := true;
      edges := edges + 1;
    }

    /** Environment: one period of the prescaled clock. TCNT1 advances,
        wrapping at 2^16, only while the timer is on. */
    method Tick()
      requires Valid()
      modifies this
      ensures Valid()
      ensures timerOn == old(timerOn) && phase == old(phase) && edgeFlag == old(edgeFlag)
      ensures old(timerOn) ==> count == (old(count) + 1) % CounterModulus && elapsed == old(elapsed) + 1
      ensures !old(timerOn) ==> count == old(count) && elapsed == old(elapsed)
      ensures tachTimer == old(tachTimer) && tachometer == old(tachometer)
      ensures edges == old(edges) && lastClear == old(lastClear)
      ensures observed == old(observed) && periods == old(periods) && emitted == old(emitted)
    {
      if timerOn {
        count := (count + 1) % CounterModulus;
        elapsed := elapsed + 1;
      }
    }

    /** Leaving the first spin-wait on a pending flag: switch the timer on
        from a zero count (the prescaler reset makes the first tick a whole
        one) and clear the flag, so the edge that started the measurement
        cannot also end it. */
    method StartTiming()
      requires Valid()
      requires phase == AwaitStartEdge && edgeFlag
      modifies this
      ensures Valid()
      ensures phase == AwaitStopEdge
      ensures timerOn && !edgeFlag && count == 0 && elapsed == 0
      ensures lastClear == edges == old(edges)
      ensures observed == old(observed) + [old(edges)]
      ensures forall i :: 0 <= i < |old(observed)| ==> old(observed)[i] < old(edges)
      ensures tachTimer == old(tachTimer) && tachometer == old(tachometer)
      ensures periods == old(periods) && emitted == old(emitted)
    {
      timerOn := true;
      elapsed := 0;
      edgeFlag := false;
      observed := observed + [edges];
      lastClear := edges;
      phase := AwaitStopEdge;
    }

    /** Leaving the second spin-wait on a pending flag: switch the timer
        off. The flag is left set. */
    method StopTimer()
      requires Valid()
      requires phase == AwaitStopEdge && edgeFlag
      modifies this
      ensures Valid()
      ensures phase == Stopped
      ensures !timerOn && edgeFlag && count == old(count)
      ensures observed == old(observed) + [old(edges)]
      ensures forall i :: 0 <= i < |old(observed)| ==> old(observed)[i] < old(edges)
      ensures edges == old(edges) && lastClear == old(lastClear) && elapsed == old(elapsed)
      ensures tachTimer == old(tachTimer) && tachometer == old(tachometer)
      ensures periods == old(periods) && emitted == old(emitted)
    {
      timerOn := false;
      observed := observed + [edges];
      phase := Stopped;
    }

    /** Read TCNT1 into tachTimer and zero it. The timer is off whenever this
        runs, so the value read is stable, and the next measurement starts
        from zero as the first one did. */
    method Capture()
      requires Valid()
      requires phase == Stopped
      modifies this
      ensures Valid()
      ensures phase == Captured
      ensures !timerOn && count == 0
      ensures tachTimer == old(count) == elapsed % CounterModulus
      ensures periods == old(periods) + [elapsed]
      ensures edgeFlag == old(edgeFlag) && edges == old(edges) && lastClear == old(lastClear)
      ensures elapsed == old(elapsed) && tachometer == old(tachometer)
      ensures observed == old(observed) && emitted == old(emitted)
    {
      tachTimer := count;
      count := 0;
      periods := periods + [elapsed];
      phase := Captured;
    }

    /** Convert tachTimer, hand the value to the display, and clear the
        flag of the edge that ended the measurement (and of any edge that
        arrived since), so the next iteration waits for a fresh edge. */
    method Report()
      requires Valid()
      requires phase == Captured
      modifies this
      ensures Valid()
      ensures phase == AwaitStartEdge
      ensures tachometer == Convert(tachTimer)
      ensures tachometer.DivideByZero? <==> elapsed % CounterModulus == 0
      ensures emitted == old(emitted) + [tachometer]
      ensures !edgeFlag && lastClear == edges == old(edges)
      ensures !timerOn && count == 0 && tachTimer == old(tachTimer) && elapsed == old(elapsed)
      ensures observed == old(observed) && periods == old(periods)
    {
      tachometer := Convert(tachTimer);
      emitted := emitted + [tachometer];
      edgeFlag := false;
      lastClear := edges;
      phase := AwaitStartEdge;
    }
  }

  /** One measurement from power-up with n ticks between the two edges:
      the count read back is n modulo 2^16. */
  method MeasureTicks(n: nat, pendingEdge: bool) returns (captured: Count)
    ensures captured == n % CounterModulus
  {
    var m := new Meter(pendingEdge);
    m.Edge();
    m.StartTiming();
    var i := 0;
    while i < n
      invariant 0 <= i <= n
      invariant m.Valid() && m.phase == AwaitStopEdge && m.timerOn
      invariant m.elapsed == i
    {
      m.Tick();
      i := i + 1;
    }
    m.Edge();
    m.StopTimer();
    m.Capture();
    captured := m.tachTimer;
  }

  /** A whole iteration of the loop from power-up, with n ticks between the
      edges: it shows exactly one value, and that value is the rate of the
      wrapped count, or DivideByZero exactly when n is a multiple of 2^16. */
  method MeasureAndShow(n: nat, pendingEdge: bool) returns (shown: Reading)
    ensures shown == Convert(n % CounterModulus)
    ensures shown.DivideByZero? <==> n % CounterModulus == 0
    ensures 0 < n < CounterModulus ==> shown == Rpm(TicksToRpm(n))
  {
    var m := new Meter(pendingEdge);
    m.Edge();
    m.StartTiming();
    var i := 0;
    while i < n
      invariant 0 <= i <= n
      invariant m.Valid() && m.phase == AwaitStopEdge && m.timerOn
      invariant m.elapsed == i && m.emitted == []
    {
      m.Tick();
      i := i + 1;
    }
    m.Edge();
    m.StopTimer();
    m.Capture();
    m.Report();
    assert m.emitted == [m.tachometer];
    shown := m.tachometer;
  }

  /** A period of 65536 ticks (about 3.36 s, a shaft below 18 RPM) wraps
      TCNT1 back to 0, so the count the loop divides by is 0: the input
      TicksToRpm, the division as written, is not defined for. */
  method WrappedPeriodCapturesZero() returns (captured: Count)
    ensures captured == 0
  {
    captured := MeasureTicks(CounterModulus, false);
  }

  /** Several iterations of the loop from power-up, the k-th with
      periods[k] ticks between its two edges: each iteration shows exactly
      one value, the conversion of its own wrapped count. */
  method RunCycles(periods: seq<nat>, pendingEdge: bool) returns (shown: seq<Reading>)
    ensures |shown| == |periods|
    ensures forall k :: 0 <= k < |periods| ==> shown[k] == Convert(periods[k] % CounterModulus)
  {
    var m := new Meter(pendingEdge);
    shown := [];
    var k := 0;
    while k < |periods|
      invariant 0 <= k <= |periods|
      invariant m.Valid() && m.phase == AwaitStartEdge
      invariant m.emitted == shown && m.periods == periods[..k]
    {
      m.Edge();
      m.StartTiming();
      var i := 0;
      while i < periods[k]
        invariant 0 <= i <= periods[k]
        invariant m.Valid() && m.phase == AwaitStopEdge && m.timerOn
        invariant m.elapsed == i && m.emitted == shown && m.periods == periods[..k]
      {
        m.Tick();
        i := i + 1;
      }
      m.Edge();
      m.StopTimer();
      m.Capture();
      m.Report();
      shown := shown + [m.tachometer];
      k := k + 1;
    }
  }
}
