/** The event-driven simpleNeuron Max object, as values.

    A `State` holds everything the object's record holds that the handlers
    read or write, plus the host's view of the three clocks and of the bang
    outlet. Each handler of the object is one function from the state before
    the call to the state after it; their contracts and the lemmas below
    state what the handlers promise. */
module Neuron {

  /** Whether a Max clock has an entry waiting to fire, and after what delay. */
  datatype Slot = Idle | Pending(delay: real)

  /** One of the object's clocks: its slot, and how many times `clock_fdelay`
      has been called on it since the object was made. A new call replaces
      the pending entry; the count lets a contract say how often it happened. */
  datatype Clock = Clock(slot: Slot, requests: nat)

  const Unarmed: Clock := Clock(Idle, 0)

  /** `clock_fdelay(clock, delay)`: the slot now waits `delay` milliseconds. */
  function Schedule(c: Clock, delay: real): Clock {
    Clock(Pending(delay), c.requests + 1)
  }

  /** The clock has fired: its entry is no longer pending. */
  function Fired(c: Clock): Clock {
    c.(slot := Idle)
  }

  /** The configuration of the neuron: what the setters and the constructor
      write and the update rules only read. */
  datatype Params = Params(
    R: real,           // resistance
    C: real,           // capacitance
    Vth: real,         // voltage threshold
    Wth: real,         // recovery threshold, stored but never read
    Wr: real,          // recovery reset threshold, stored but never read
    a: real,           // FitzHugh-Nagumo constants
    b: real,
    tau: real,
    stepSize: real,    // FitzHugh-Nagumo Euler step
    absRef: real,      // refractory period, ms
    leakPeriod: real,  // leak tick period, ms
    bangDelay: real)   // delay before a spike is sent, ms

  /** The whole object. `refractory`, `mode` and `bangFlag` are the C record's
      `long` fields and keep their integer type: the code compares them with
      constants, and `mode` takes whatever integer the `mode` message carries. */
  datatype State = State(
    refractory: int,
    mode: int,
    bangFlag: int,
    V: real,
    W: real,
    I: real,
    p: Params,
    resetClock: Clock,  // m_clock1, runs DelayedReset
    leakClock: Clock,   // m_clock2, runs Leak
    bangClock: Clock,   // m_clock3, runs DelayedBang
    spikes: nat)        // bangs sent through the outlet

  /** Euler sub-steps that one input performs in FitzHugh-Nagumo mode. */
  const FhSubSteps: nat := 20
  /** Voltage above which a FitzHugh-Nagumo excursion counts as a spike. */
  const FhSpikeLevel: real := 1.9
  /** Recovery level below which the spike latch is released. */
  const FhLatchRelease: real := 1.0

  /** What every handler keeps true: the two flags are 0 or 1, and while the
      neuron is refractory its release is pending on the reset clock. */
  ghost predicate Consistent(s: State) {
    (s.refractory == 0 || s.refractory == 1) &&
    (s.bangFlag == 0 || s.bangFlag == 1) &&
    (s.refractory == 1 ==> s.resetClock.slot.Pending?)
  }

  /** The divisions `Float` performs in the state's mode are by nonzero values. */
  predicate DivisorsNonzero(s: State) {
    s.refractory == 0 ==>
      (s.mode == 0 ==> s.p.C != 0.0) &&
      (s.mode == 1 ==> s.p.C != 0.0 && s.p.R * s.p.C != 0.0) &&
      (s.mode == 2 ==> s.p.tau != 0.0)
  }

  /** A freshly made object, with its default configuration. `I` is not set by
      the constructor; it is written before every read, so zero stands for it. */
  function Initial(): (s: State)
    ensures Consistent(s) && DivisorsNonzero(s)
    ensures s.refractory == 0 && s.bangFlag == 0 && s.mode == 0
    ensures s.resetClock == s.leakClock == s.bangClock == Unarmed && s.spikes == 0
  {
    State(
      refractory := 0, mode := 0, bangFlag := 0,
      V := 0.0, W := 0.0, I := 0.0,
      p := Params(
        R := 100.0, C := 1.0, Vth := 5.0, Wth := 1.5, Wr := 1.3,
        a := -0.7, b := 0.8, tau := 12.5, stepSize := 0.3,
        absRef := 100.0, leakPeriod := 100.0, bangDelay := 10.0),
      resetClock := Unarmed, leakClock := Unarmed, bangClock := Unarmed,
      spikes := 0)
  }

  // ---------------------------------------------------------------------
  // FitzHugh-Nagumo integration

  /** One explicit Euler step of the FitzHugh-Nagumo equations under input
      current `i`. The voltage is advanced first and the recovery variable is
      then advanced from the NEW voltage. */
  function EulerStep(v: real, w: real, i: real, p: Params): (real, real)
    requires p.tau != 0.0
  {
    var v' := v + p.stepSize * (v - v * v * v / 3.0 - w + i);
    (v', w + p.stepSize * (v' - p.a - p.b * w) / p.tau)
  }

  /** `n` Euler steps in a row, from (v, w). */
  function EulerSteps(n: nat, v: real, w: real, i: real, p: Params): (real, real)
    requires p.tau != 0.0
  {
    if n == 0 then (v, w)
    else
      var vw := EulerSteps(n - 1, v, w, i, p);
      EulerStep(vw.0, vw.1, i, p)
  }

  /** One pass of the FitzHugh-Nagumo loop body: an Euler step, then the
      spike request if the new voltage is above the spike level while the
      latch is clear. */
  function FhStep(s: State): (t: State)
    requires s.p.tau != 0.0
    ensures t == s.(V := t.V, W := t.W, bangFlag := t.bangFlag, bangClock := t.bangClock)
    ensures (t.bangFlag == s.bangFlag && t.bangClock == s.bangClock) ||
            (s.bangFlag == 0 && t.bangFlag == 1 && t.V > FhSpikeLevel &&
             t.bangClock == Schedule(s.bangClock, s.p.bangDelay))
    ensures t.V > FhSpikeLevel ==> t.bangFlag != 0
  {
    var vw := EulerStep(s.V, s.W, s.I, s.p);
    var moved := s.(V := vw.0, W := vw.1);
    if moved.V > FhSpikeLevel && moved.bangFlag == 0 then
      moved.(bangClock := Schedule(moved.bangClock, moved.p.bangDelay), bangFlag := 1)
    else
      moved
  }

  /** The first `n` passes of the FitzHugh-Nagumo loop. Only V, W, the latch
      and the bang clock move; the bang clock is asked for at most once, and
      only if the latch was clear; the loop never clears the latch; and a loop
      that ends above the spike level ends latched. */
  function FhLoop(s: State, n: nat): (t: State)
    requires s.p.tau != 0.0
    ensures t == s.(V := t.V, W := t.W, bangFlag := t.bangFlag, bangClock := t.bangClock)
    ensures (t.bangFlag == s.bangFlag && t.bangClock == s.bangClock) ||
            (s.bangFlag == 0 && t.bangFlag == 1 &&
             t.bangClock == Schedule(s.bangClock, s.p.bangDelay))
    ensures n > 0 && t.V > FhSpikeLevel ==> t.bangFlag != 0
  {
    if n == 0 then s else FhStep(FhLoop(s, n - 1))
  }

  // ---------------------------------------------------------------------
  // The `float` handler

  /** The mode branch of `simpleFloat`, taken when the neuron is not refractory. */
  function Integrate(s: State): (t: State)
    requires s.refractory == 0 && DivisorsNonzero(s)
    ensures t == s.(V := t.V, W := t.W, bangFlag := t.bangFlag, bangClock := t.bangClock,
                    leakClock := t.leakClock)
    ensures s.mode != 2 ==> t.W == s.W && t.bangFlag == s.bangFlag && t.bangClock == s.bangClock
    ensures s.mode != 1 ==> t.leakClock == s.leakClock
    ensures s.mode == 0 ==> t.V == s.V + s.I / s.p.C
    ensures s.mode == 1 ==> t.V == s.V + s.I / s.p.C - s.V / (s.p.R * s.p.C) &&
                            t.leakClock == Schedule(s.leakClock, s.p.leakPeriod)
    ensures s.mode == 2 ==> t == FhLoop(s, FhSubSteps)
    ensures s.mode != 0 && s.mode != 1 && s.mode != 2 ==> t.V == s.V
  {
    if s.mode == 0 then
      s.(V := s.V + s.I / s.p.C)
    else if s.mode == 1 then
      s.(V := s.V + s.I / s.p.C - s.V / (s.p.R * s.p.C),
         leakClock := Schedule(s.leakClock, s.p.leakPeriod))
    else if s.mode == 2 then
      FhLoop(s, FhSubSteps)
    else
      s
  }

  /** The check after the mode branch: the latch in FitzHugh-Nagumo mode,
      the threshold in every other mode. */
  function Gate(s: State): (t: State)
    ensures t == s.(refractory := t.refractory, bangFlag := t.bangFlag, bangClock := t.bangClock,
                    resetClock := t.resetClock)
    // every mode but 2: the strict threshold starts the refractory period
    ensures s.mode != 2 && s.V > s.p.Vth ==>
              t == s.(refractory := 1, bangClock := Schedule(s.bangClock, s.p.bangDelay),
                      resetClock := Schedule(s.resetClock, s.p.absRef))
    ensures s.mode != 2 && !(s.V > s.p.Vth) ==> t == s
    // mode 2: only the latch and the bang clock move
    ensures s.mode == 2 ==> t.refractory == s.refractory && t.resetClock == s.resetClock
    ensures s.mode == 2 && s.V > FhSpikeLevel && s.bangFlag == 0 ==>
              t.bangFlag == 1 && t.bangClock == Schedule(s.bangClock, s.p.bangDelay)
    ensures s.mode == 2 && !(s.V > FhSpikeLevel && s.bangFlag == 0) ==>
              t.bangClock == s.bangClock &&
              t.bangFlag == (if s.W < FhLatchRelease && s.bangFlag == 1 then 0 else s.bangFlag)
  {
    if s.mode == 2 then
      if s.V > FhSpikeLevel && s.bangFlag == 0 then
        s.(bangClock := Schedule(s.bangClock, s.p.bangDelay), bangFlag := 1)
      else if s.W < FhLatchRelease && s.bangFlag == 1 then
        s.(bangFlag := 0)
      else
        s
    else if s.V > s.p.Vth then
      s.(bangClock := Schedule(s.bangClock, s.p.bangDelay),
         refractory := 1,
         resetClock := Schedule(s.resetClock, s.p.absRef))
    else
      s
  }

  /** A `float` message carrying input current `input`. */
  function Float(s: State, input: real): (t: State)
    requires DivisorsNonzero(s)
    // the input is stored whatever happens; nothing configures itself
    ensures t.I == input && t.p == s.p && t.mode == s.mode && t.spikes == s.spikes
    ensures DivisorsNonzero(t) && (Consistent(s) ==> Consistent(t))
    // refractory: nothing else changes and no clock is asked for
    ensures s.refractory != 0 ==> t == s.(I := input)
    // one call asks for at most one spike
    ensures t.bangClock.requests <= s.bangClock.requests + 1
    // integrate-and-fire
    ensures s.refractory == 0 && s.mode == 0 ==>
              t.V == s.V + input / s.p.C && t.W == s.W && t.leakClock == s.leakClock
    // leaky integrate-and-fire: the leak tick is asked for every time
    ensures s.refractory == 0 && s.mode == 1 ==>
              t.V == s.V + input / s.p.C - s.V / (s.p.R * s.p.C) && t.W == s.W &&
              t.leakClock == Schedule(s.leakClock, s.p.leakPeriod)
    // any other mode but FitzHugh-Nagumo leaves the voltage alone
    ensures s.refractory == 0 && s.mode != 0 && s.mode != 1 && s.mode != 2 ==>
              t.V == s.V && t.W == s.W && t.leakClock == s.leakClock
    // the strict threshold of every mode but FitzHugh-Nagumo
    ensures s.refractory == 0 && s.mode != 2 ==>
              t.bangFlag == s.bangFlag && (t.refractory == 1 <==> t.V > s.p.Vth)
    ensures s.refractory == 0 && s.mode != 2 && t.V > s.p.Vth ==>
              t.bangClock == Schedule(s.bangClock, s.p.bangDelay) &&
              t.resetClock == Schedule(s.resetClock, s.p.absRef)
    ensures s.refractory == 0 && s.mode != 2 && !(t.V > s.p.Vth) ==>
              t.refractory == 0 && t.bangClock == s.bangClock && t.resetClock == s.resetClock
    // FitzHugh-Nagumo never becomes refractory and never touches the other clocks
    ensures s.mode == 2 ==>
              t.refractory == s.refractory && t.resetClock == s.resetClock &&
              t.leakClock == s.leakClock
    // the spike latch
    ensures s.refractory == 0 && s.mode == 2 && s.bangFlag != 0 ==> t.bangClock == s.bangClock
    ensures s.refractory == 0 && s.mode == 2 && s.bangFlag == 0 ==>
              t.bangClock == s.bangClock || t.bangClock == Schedule(s.bangClock, s.p.bangDelay)
    ensures s.refractory == 0 && s.mode == 2 && s.bangFlag == 1 ==>
              (t.bangFlag == 0 <==> t.W < FhLatchRelease)
    ensures s.bangFlag == 0 && t.bangFlag != 0 ==> t.refractory == 0 && t.mode == 2
  {
    var s1 := s.(I := input);
    if s1.refractory != 0 then s1 else Gate(Integrate(s1))
  }

  // ---------------------------------------------------------------------
  // Clock callbacks

  /** The reset clock fires: the refractory period is over and V, W go to 0. */
  function DelayedReset(s: State): (t: State)
    ensures t.refractory == 0 && t.V == 0.0 && t.W == 0.0
    ensures t.mode == s.mode && t.bangFlag == s.bangFlag && t.p == s.p && t.I == s.I
    ensures t.leakClock == s.leakClock && t.bangClock == s.bangClock && t.spikes == s.spikes
    ensures t.resetClock == Fired(s.resetClock)
    ensures Consistent(s) ==> Consistent(t)
  {
    s.(refractory := 0, V := 0.0, W := 0.0, resetClock := Fired(s.resetClock))
  }

  /** The voltage after the decay step of a leak tick, before the clamp. */
  function LeakDecay(s: State): real
    requires 0.0 < s.V < s.p.Vth ==> s.p.R * s.p.C != 0.0
  {
    if 0.0 < s.V < s.p.Vth then s.V - s.V / (s.p.R * s.p.C) else s.V
  }

  /** The leak clock fires: decay inside the open window (0, Vth), then
      either another tick is asked for or the voltage is clamped to 0. */
  function Leak(s: State): (t: State)
    requires 0.0 < s.V < s.p.Vth ==> s.p.R * s.p.C != 0.0
    // only V and the leak clock move
    ensures t == s.(V := t.V, leakClock := t.leakClock)
    ensures Consistent(s) ==> Consistent(t)
    // never negative: positive and ticking, or exactly 0 and stopped
    ensures t.V >= 0.0
    ensures t.V > 0.0 ==> t.leakClock == Schedule(s.leakClock, s.p.leakPeriod)
    ensures t.V == 0.0 ==> t.leakClock == Fired(s.leakClock)
    // decay happens only inside the window; outside it V is kept or clamped
    ensures !(0.0 < s.V < s.p.Vth) ==> t.V == if s.V > 0.0 then s.V else 0.0
    ensures 0.0 < s.V < s.p.Vth ==>
              t.V == if s.V - s.V / (s.p.R * s.p.C) > 0.0 then s.V - s.V / (s.p.R * s.p.C) else 0.0
    ensures 0.0 < s.V < s.p.Vth && s.p.R * s.p.C >= 1.0 ==> 0.0 <= t.V < s.V
  {
    var v := LeakDecay(s);
    if v > 0.0 then
      s.(V := v, leakClock := Schedule(s.leakClock, s.p.leakPeriod))
    else
      s.(V := 0.0, leakClock := Fired(s.leakClock))
  }

  /** The bang clock fires: one bang goes out of the outlet. */
  function DelayedBang(s: State): (t: State)
    ensures t.spikes == s.spikes + 1
    ensures t == s.(spikes := t.spikes, bangClock := Fired(s.bangClock))
    ensures Consistent(s) ==> Consistent(t)
  {
    s.(spikes := s.spikes + 1, bangClock := Fired(s.bangClock))
  }

  // ---------------------------------------------------------------------
  // Configuration messages

  /** `mode m`: switch model and zero V and W; refractoriness and the latch stay. */
  function SetMode(s: State, m: int): (t: State)
    ensures t.mode == m && t.V == 0.0 && t.W == 0.0
    ensures t.refractory == s.refractory && t.bangFlag == s.bangFlag
    ensures t == s.(mode := m, V := t.V, W := t.W)
    ensures Consistent(s) ==> Consistent(t)
  {
    s.(mode := m, V := 0.0, W := 0.0)
  }

  /** `R r`: replace the resistance, nothing else. */
  function SetR(s: State, r: real): (t: State)
    ensures t.p.R == r && t.p == s.p.(R := r) && t == s.(p := t.p)
    ensures Consistent(s) ==> Consistent(t)
  {
    s.(p := s.p.(R := r))
  }

  /** `C c`: replace the capacitance, nothing else. */
  function SetC(s: State, c: real): (t: State)
    ensures t.p.C == c && t.p == s.p.(C := c) && t == s.(p := t.p)
    ensures Consistent(s) ==> Consistent(t)
  {
    s.(p := s.p.(C := c))
  }

  /** `Vth v`: replace the voltage threshold, nothing else. */
  function SetThresh(s: State, v: real): (t: State)
    ensures t.p.Vth == v && t.p == s.p.(Vth := v) && t == s.(p := t.p)
    ensures Consistent(s) ==> Consistent(t)
  {
    s.(p := s.p.(Vth := v))
  }

  /** `step h`: replace the FitzHugh-Nagumo step size, nothing else. */
  function SetStep(s: State, h: real): (t: State)
    ensures t.p.stepSize == h && t.p == s.p.(stepSize := h) && t == s.(p := t.p)
    ensures Consistent(s) ==> Consistent(t)
  {
    s.(p := s.p.(stepSize := h))
  }
}
