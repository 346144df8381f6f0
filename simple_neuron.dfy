/** The simpleNeuron object itself: the record's fields, updated in place by
    its handlers. Each handler is proved to move the object exactly as the
    matching function of module Neuron moves its value. */
module SimpleNeuronObject {
  import opened Neuron

  /** What the `bang` message prints: V below mode 2 and W from mode 2 up,
      then R, C and the mode. */
  datatype Display = Display(level: real, R: real, C: real, mode: int)

  class SimpleNeuron {
    var resetClock: Clock  // m_clock1
    var leakClock: Clock   // m_clock2
    var bangClock: Clock   // m_clock3
    var spikes: nat        // bangs sent through m_outlet1

    var refractory: int    // l_ref
    var mode: int          // l_mode
    var bangFlag: int      // l_bangFlag

    var bangDelay: real    // d_bangD
    var leakPeriod: real   // d_leakPer
    var absRef: real       // d_absRef
    var R: real
    var C: real
    var I: real
    var V: real
    var W: real
    var Wth: real
    var Wr: real
    var Vth: real
    var a: real
    var b: real
    var tau: real          // d_tao
    var stepSize: real

    /** The object as a value. */
    function Snapshot(): State
      reads this
    {
      State(refractory, mode, bangFlag, V, W, I,
            Params(R, C, Vth, Wth, Wr, a, b, tau, stepSize, absRef, leakPeriod, bangDelay),
            resetClock, leakClock, bangClock, spikes)
    }

    /** simpleNeuron_new: the default configuration, nothing pending. */
    constructor ()
      ensures Snapshot() == Initial()
    {
      resetClock, leakClock, bangClock := Unarmed, Unarmed, Unarmed;
      spikes := 0;
      I := 0.0;
      V := 0.0;
      Vth := 5.0;
      C := 1.0;
      R := 100.0;
      W := 0.0;
      Wth := 1.5;
      Wr := 1.3;
      a := -0.7;
      b := 0.8;
      tau := 12.5;
      stepSize := 0.3;
      bangFlag := 0;
      mode := 0;
      refractory := 0;
      absRef := 100.0;
      leakPeriod := 100.0;
      bangDelay := 10.0;
    }

    /** `bang`: report the state without changing it. */
    function Report(): (d: Display)
      reads this
      ensures d.R == R && d.C == C && d.mode == mode
      ensures mode < 2 ==> d.level == V
      ensures mode >= 2 ==> d.level == W
    {
      Display(if mode < 2 then V else W, R, C, mode)
    }

    /** `R r` */
    method SetR(r: real)
      modifies this
      ensures Snapshot() == Neuron.SetR(old(Snapshot()), r)
    {
      R := r;
    }

    /** `C c` */
    method SetC(c: real)
      modifies this
      ensures Snapshot() == Neuron.SetC(old(Snapshot()), c)
    {
      C := c;
    }

    /** `Vth v` */
    method SetThresh(v: real)
      modifies this
      ensures Snapshot() == Neuron.SetThresh(old(Snapshot()), v)
    {
      Vth := v;
    }

    /** `step h` */
    method SetStep(h: real)
      modifies this
      ensures Snapshot() == Neuron.SetStep(old(Snapshot()), h)
    {
      stepSize := h;
    }

    /** `float input`: one input current. */
    method Float(input: real)
      requires DivisorsNonzero(Snapshot())
      modifies this
      ensures Snapshot() == Neuron.Float(old(Snapshot()), input)
    {
      I := input;
      if refractory == 0 {
        ghost var stored := Snapshot();
        if mode == 0 {
          V := V + I / C;
        } else if mode == 1 {
          V := V + I / C - V / (R * C);
          leakClock := Schedule(leakClock, leakPeriod);
        } else if mode == 2 {
          FitzHughNagumo();
        }
        assert Snapshot() == Integrate(stored);

        Gate();
      }
    }

    /** The check that ends `float`: the spike latch in FitzHugh-Nagumo mode,
        the threshold in every other mode. */
    method Gate()
      modifies this
      ensures Snapshot() == Neuron.Gate(old(Snapshot()))
    {
      if mode == 2 {
        if V > FhSpikeLevel && bangFlag == 0 {
          bangClock := Schedule(bangClock, bangDelay);
          bangFlag := 1;
        } else if W < FhLatchRelease && bangFlag == 1 {
          bangFlag := 0;
        }
      } else if V > Vth {
        bangClock := Schedule(bangClock, bangDelay);
        refractory := 1;
        resetClock := Schedule(resetClock, absRef);
      }
    }

    /** The twenty Euler sub-steps of `float` in FitzHugh-Nagumo mode. */
    method FitzHughNagumo()
      requires tau != 0.0
      modifies this
      ensures Snapshot() == FhLoop(old(Snapshot()), FhSubSteps)
    {
      ghost var entry := Snapshot();
      for i := 0 to FhSubSteps
        invariant Snapshot() == FhLoop(entry, i)
      {
        FhPass();
      }
    }

    /** One pass of the FitzHugh-Nagumo loop: V first, then W from the new V,
        then the spike request while the latch is clear. */
    method FhPass()
      requires tau != 0.0
      modifies this
      ensures Snapshot() == FhStep(old(Snapshot()))
    {
      ghost var s0 := Snapshot();
      var v := V + stepSize * (V - V * V * V / 3.0 - W + I);
      var w := W + stepSize * (v - a - b * W) / tau;
      assert s0.V == V && s0.W == W && s0.I == I && s0.p.tau == tau;
      assert v == EulerStep(s0.V, s0.W, s0.I, s0.p).0;
      assert w == EulerStep(s0.V, s0.W, s0.I, s0.p).1;
      V, W := v, w;
      assert Snapshot() == s0.(V := v, W := w);
      if V > FhSpikeLevel && bangFlag == 0 {
        bangClock := Schedule(bangClock, bangDelay);
        bangFlag := 1;
      }
    }

    /** m_clock1 fires: the refractory period is over. */
    method DelayedReset()
      modifies this
      ensures Snapshot() == Neuron.DelayedReset(old(Snapshot()))
    {
      resetClock := Fired(resetClock);
      refractory := 0;
      V := 0.0;
      W := 0.0;
    }

    /** m_clock2 fires: one leak tick. */
    method Leak()
      requires 0.0 < V < Vth ==> R * C != 0.0
      modifies this
      ensures Snapshot() == Neuron.Leak(old(Snapshot()))
    {
      ghost var s0 := Snapshot();
      var v := V;
      if v > 0.0 && v < Vth {
        v := v - v / (R * C);
      }
      assert v == LeakDecay(s0);

      if v > 0.0 {
        V, leakClock := v, Schedule(leakClock, leakPeriod);
      } else {
        V, leakClock := 0.0, Fired(leakClock);
      }
    }

    /** m_clock3 fires: a bang goes out. */
    method DelayedBang()
      modifies this
      ensures Snapshot() == Neuron.DelayedBang(old(Snapshot()))
    {
      bangClock := Fired(bangClock);
      spikes := spikes + 1;
    }

    /** `mode m` */
    method SetMode(m: int)
      modifies this
      ensures Snapshot() == Neuron.SetMode(old(Snapshot()), m)
    {
      mode := m;
      V := 0.0;
      W := 0.0;
    }
  }
}
