/** The interrupt countdown and CPU-load accounting done after every instruction. */
module CpuTiming {

  /** T-states between two vertical interrupts: 20 ms at 3.5 MHz. */
  const INTERRUPT_TIME: nat := 70000

  /** The counters one instruction updates: T-states left until the next interrupt,
      T-states spent outside HALT, all T-states, the last load ratio and the number
      of interrupts in the current measuring window. */
  datatype Meter = Meter(remaining: int, loadTstates: nat, totalTstates: nat, load: real, rangeCounter: nat)

  /** Busy time never exceeds total time, so the ratio is a proportion. */
  predicate Balanced(m: Meter)
  {
    m.loadTstates <= m.totalTstates && 0.0 <= m.load <= 1.0
  }

  /** The countdown as the constructor starts it and every interrupt re-arms it. */
  predicate Armed(m: Meter)
  {
    0 < m.remaining <= INTERRUPT_TIME
  }

  /** Charges one instruction of `cost` T-states; a HALT counts towards the total only. */
  function Consume(m: Meter, cost: nat, halted: bool): Meter
  {
    m.(remaining := m.remaining - cost,
       loadTstates := if halted then m.loadTstates else m.loadTstates + cost,
       totalTstates := m.totalTstates + cost)
  }

  /** The countdown starts over after an interrupt. */
  function Rearm(m: Meter): Meter
  {
    m.(remaining := INTERRUPT_TIME)
  }

  /** One more interrupt in the measuring window; once `range` interrupts are counted and
      some time has passed, the load becomes busy/total and the window starts over. */
  function CloseWindow(m: Meter, range: nat): (r: Meter)
    ensures r.remaining == m.remaining
    ensures r.rangeCounter == 0 || (r.rangeCounter == m.rangeCounter + 1 && r.loadTstates == m.loadTstates
                                    && r.totalTstates == m.totalTstates && r.load == m.load)
    ensures r.rangeCounter == 0 <==> m.rangeCounter + 1 >= range && m.totalTstates > 0
    ensures r.rangeCounter == 0 ==>
      r.loadTstates == 0 && r.totalTstates == 0 && r.load * m.totalTstates as real == m.loadTstates as real
  {
    var counter := m.rangeCounter + 1;
    if counter >= range && m.totalTstates > 0 then
      Meter(m.remaining, 0, 0, m.loadTstates as real / m.totalTstates as real, 0)
    else
      m.(rangeCounter := counter)
  }

  /** The accounting of one instruction whose interrupt, if one is due, is delivered
      without error; the flag says whether the countdown ran out. */
  function Tick(m: Meter, cost: nat, halted: bool, range: nat): (Meter, bool)
  {
    var c := Consume(m, cost, halted);
    if c.remaining <= 0 then (CloseWindow(Rearm(c), range), true) else (c, false)
  }

  lemma RatioBounds(a: nat, b: nat)
    requires a <= b && b > 0
    ensures 0.0 <= a as real / b as real <= 1.0
  {
    var q := a as real / b as real;
    assert q * b as real == a as real;
  }

  /** An interrupt is signalled exactly when the instruction uses up the countdown. */
  lemma TickFires(m: Meter, cost: nat, halted: bool, range: nat)
    ensures Tick(m, cost, halted, range).1 <==> cost >= m.remaining
  {
  }

  /** One instruction keeps busy time within total time and the load within [0, 1],
      leaves a positive countdown, and keeps an armed countdown armed. */
  lemma TickInvariants(m: Meter, cost: nat, halted: bool, range: nat)
    requires Balanced(m)
    ensures var r := Tick(m, cost, halted, range).0;
      Balanced(r) && r.remaining > 0 && (Armed(m) ==> Armed(r))
  {
    var c := Consume(m, cost, halted);
    if c.remaining <= 0 {
      var w := Rearm(c);
      if w.rangeCounter + 1 >= range && w.totalTstates > 0 {
        RatioBounds(w.loadTstates, w.totalTstates);
      }
    }
  }

  /** A run of instructions, each a cost and whether it was a HALT; the count is the
      number of interrupts signalled. */
  function Run(m: Meter, steps: seq<(nat, bool)>, range: nat): (Meter, nat)
    decreases |steps|
  {
    if steps == [] then (m, 0)
    else
      var t := Tick(m, steps[0].0, steps[0].1, range);
      var rest := Run(t.0, steps[1..], range);
      (rest.0, rest.1 + (if t.1 then 1 else 0))
  }

  function TotalCost(steps: seq<(nat, bool)>): nat
  {
    if steps == [] then 0 else steps[0].0 + TotalCost(steps[1..])
  }

  function BusyCost(steps: seq<(nat, bool)>): nat
  {
    if steps == [] then 0 else (if steps[0].1 then 0 else steps[0].0) + BusyCost(steps[1..])
  }

  /** Over any run, the load stays a proportion and a countdown started by the
      constructor stays within (0, INTERRUPT_TIME]. */
  lemma {:induction false} RunInvariants(m: Meter, steps: seq<(nat, bool)>, range: nat)
    requires Balanced(m)
    ensures Balanced(Run(m, steps, range).0)
    ensures Armed(m) ==> Armed(Run(m, steps, range).0)
    decreases |steps|
  {
    if steps != [] {
      TickInvariants(m, steps[0].0, steps[0].1, range);
      RunInvariants(Tick(m, steps[0].0, steps[0].1, range).0, steps[1..], range);
    }
  }

  /** Between interrupts the countdown drops by exactly the T-states spent, the totals grow
      by the same amounts, and the T-states spent stay below the countdown it started from. */
  lemma {:induction false} QuietRun(m: Meter, steps: seq<(nat, bool)>, range: nat)
    requires Run(m, steps, range).1 == 0
    ensures Run(m, steps, range).0 == m.(remaining := m.remaining - TotalCost(steps),
                                         loadTstates := m.loadTstates + BusyCost(steps),
                                         totalTstates := m.totalTstates + TotalCost(steps))
    ensures steps != [] ==> TotalCost(steps) < m.remaining
    decreases |steps|
  {
    if steps != [] {
      var t := Tick(m, steps[0].0, steps[0].1, range);
      assert !t.1;
      QuietRun(t.0, steps[1..], range);
    }
  }
}
