/** Properties of the neuron that relate several calls of its handlers. */
module NeuronProperties {
  import opened Neuron

  // ---------------------------------------------------------------------
  // FitzHugh-Nagumo mode

  /** The latch and the bang clock do not feed back into the dynamics: after
      `n` passes of the loop, (V, W) is the `n`-fold Euler step. */
  lemma {:induction false} FhLoopIsEuler(s: State, n: nat)
    requires s.p.tau != 0.0
    ensures (FhLoop(s, n).V, FhLoop(s, n).W) == EulerSteps(n, s.V, s.W, s.I, s.p)
  {
    if n > 0 {
      FhLoopIsEuler(s, n - 1);
    }
  }

  /** One input in FitzHugh-Nagumo mode moves (V, W) by exactly twenty Euler
      steps under that input, whatever the latch does. */
  lemma FloatIsTwentyEulerSteps(s: State, input: real)
    requires s.refractory == 0 && s.mode == 2 && s.p.tau != 0.0
    ensures (Float(s, input).V, Float(s, input).W) ==
            EulerSteps(FhSubSteps, s.V, s.W, input, s.p)
  {
    FhLoopIsEuler(s.(I := input), FhSubSteps);
  }

  /** The loop asks for a spike only after some pass has left the voltage
      above the spike level. */
  lemma {:induction false} FhRequestNeedsExcursion(s: State, n: nat)
    requires s.p.tau != 0.0
    ensures FhLoop(s, n).bangClock != s.bangClock ==>
              exists k :: 1 <= k <= n && FhLoop(s, k).V > FhSpikeLevel
  {
    if n > 0 && FhLoop(s, n).bangClock != s.bangClock {
      FhRequestNeedsExcursion(s, n - 1);
      if FhLoop(s, n - 1).bangClock == s.bangClock {
        assert FhLoop(s, n).V > FhSpikeLevel;
      }
    }
  }

  /** Once the loop has latched, the latch and the bang clock stay as they
      are for the remaining passes. */
  lemma {:induction false} FhLatchSticks(s: State, k: nat, n: nat)
    requires s.p.tau != 0.0 && k <= n && FhLoop(s, k).bangFlag != 0
    ensures FhLoop(s, n).bangFlag == FhLoop(s, k).bangFlag
    ensures FhLoop(s, n).bangClock == FhLoop(s, k).bangClock
    decreases n - k
  {
    if k < n {
      FhLatchSticks(s, k, n - 1);
    }
  }

  /** Conversely, a pass that leaves the voltage above the spike level while
      the latch was clear on entry asks for the spike, and the loop ends
      latched with exactly that one request. */
  lemma FhExcursionRequests(s: State, k: nat, n: nat)
    requires s.p.tau != 0.0 && s.bangFlag == 0
    requires 1 <= k <= n && FhLoop(s, k).V > FhSpikeLevel
    ensures FhLoop(s, n).bangFlag == 1
    ensures FhLoop(s, n).bangClock == Schedule(s.bangClock, s.p.bangDelay)
  {
    FhLatchSticks(s, k, n);
  }

  /** A FitzHugh-Nagumo input asks for a spike only from one of its twenty
      sub-steps, since the check after the loop can only release the latch;
      and, with the latch clear on entry, it asks for one exactly when some
      sub-step leaves the voltage above the spike level. */
  lemma FloatRequestNeedsExcursion(s: State, input: real)
    requires s.refractory == 0 && s.mode == 2 && s.p.tau != 0.0
    ensures Float(s, input).bangClock == FhLoop(s.(I := input), FhSubSteps).bangClock
    ensures Float(s, input).bangClock != s.bangClock ==>
              exists k :: 1 <= k <= FhSubSteps && FhLoop(s.(I := input), k).V > FhSpikeLevel
    ensures s.bangFlag == 0 &&
            (exists k :: 1 <= k <= FhSubSteps && FhLoop(s.(I := input), k).V > FhSpikeLevel) ==>
              Float(s, input).bangClock == Schedule(s.bangClock, s.p.bangDelay)
  {
    var s1 := s.(I := input);
    FhRequestNeedsExcursion(s1, FhSubSteps);
    if s.bangFlag == 0 && exists k :: 1 <= k <= FhSubSteps && FhLoop(s1, k).V > FhSpikeLevel {
      var k :| 1 <= k <= FhSubSteps && FhLoop(s1, k).V > FhSpikeLevel;
      FhExcursionRequests(s1, k, FhSubSteps);
    }
  }

  /** A latch that one input sets is released by the same input exactly when
      the recovery variable ends the call below the release level; the spike
      is asked for either way, and the next input above the spike level then
      asks for another. */
  lemma LatchReleasedInSameCall(s: State, input: real)
    requires s.refractory == 0 && s.mode == 2 && s.p.tau != 0.0 && s.bangFlag == 0
    requires FhLoop(s.(I := input), FhSubSteps).bangFlag == 1
    ensures Float(s, input).bangFlag == 0 <==> Float(s, input).W < FhLatchRelease
    ensures Float(s, input).bangFlag == 0 <==> FhLoop(s.(I := input), FhSubSteps).W < FhLatchRelease
    ensures Float(s, input).bangClock == Schedule(s.bangClock, s.p.bangDelay)
  {
  }

  // ---------------------------------------------------------------------
  // Integrate-and-fire and refractoriness

  /** `n` inputs of the same current in a row. */
  function Feed(s: State, input: real, n: nat): (t: State)
    requires DivisorsNonzero(s)
    ensures DivisorsNonzero(t) && t.p == s.p && t.mode == s.mode
  {
    if n == 0 then s else Float(Feed(s, input, n - 1), input)
  }

  /** One integrate-and-fire input that stays at or below the threshold adds
      I / C and leaves the neuron in mode 0 and not refractory. */
  lemma IntegrateAndFireStep(s: State, input: real)
    requires s.mode == 0 && s.refractory == 0 && s.p.C != 0.0
    requires s.V + input / s.p.C <= s.p.Vth
    ensures Float(s, input).V == s.V + input / s.p.C
    ensures Float(s, input).refractory == 0 && Float(s, input).mode == 0
    ensures Float(s, input).p == s.p
  {
  }

  /** Below the threshold, integrate-and-fire adds I / C per input and never
      becomes refractory. */
  lemma IntegrateAndFireRamp(s: State, input: real, n: nat)
    requires s.mode == 0 && s.refractory == 0 && s.p.C != 0.0
    requires s.V <= s.p.Vth && s.V + (n as real) * (input / s.p.C) <= s.p.Vth
    ensures Feed(s, input, n).V == s.V + (n as real) * (input / s.p.C)
    ensures Feed(s, input, n).refractory == 0
  {
    RampClosedForm(s.V, input / s.p.C, n);
    FeedRamp(s, input, n);
  }

  /** `v` advanced `n` times by `q`. */
  function Ramp(v: real, q: real, n: nat): real {
    if n == 0 then v else Ramp(v, q, n - 1) + q
  }

  /** `n` advances by `q` add `n * q`. */
  lemma {:induction false} RampClosedForm(v: real, q: real, n: nat)
    ensures Ramp(v, q, n) == v + (n as real) * q
  {
    if n > 0 {
      RampClosedForm(v, q, n - 1);
      assert ((n - 1) as real) * q + q == (n as real) * q;
    }
  }

  /** A ramp that starts and ends at or below `vth` stays at or below it at
      every step in between. */
  lemma RampStaysBelow(v: real, q: real, m: nat, n: nat, vth: real)
    requires m <= n && v <= vth && Ramp(v, q, n) <= vth
    ensures Ramp(v, q, m) <= vth
  {
    RampClosedForm(v, q, m);
    RampClosedForm(v, q, n);
    var km, kn := m as real, n as real;
    if q >= 0.0 {
      assert km * q <= kn * q;
    } else {
      assert km * q <= 0.0;
    }
  }

  /** The voltage after `n` integrate-and-fire inputs that stay at or below
      the threshold is the start advanced `n` times by I / C. */
  lemma {:induction false} FeedRamp(s: State, input: real, n: nat)
    requires s.mode == 0 && s.refractory == 0 && s.p.C != 0.0
    requires s.V <= s.p.Vth && Ramp(s.V, input / s.p.C, n) <= s.p.Vth
    ensures Feed(s, input, n).V == Ramp(s.V, input / s.p.C, n)
    ensures Feed(s, input, n).refractory == 0
  {
    if n > 0 {
      var m: nat := n - 1;
      RampStaysBelow(s.V, input / s.p.C, m, n, s.p.Vth);
      FeedRamp(s, input, m);
      FeedBelowThreshold(s, input, m, n);
    }
  }

  /** Input `n = m + 1` of a run of integrate-and-fire inputs that stays at or
      below the threshold adds I / C to the voltage after input `m`. */
  lemma FeedBelowThreshold(s: State, input: real, m: nat, n: nat)
    requires n == m + 1 && s.mode == 0 && s.p.C != 0.0
    requires Feed(s, input, m).refractory == 0
    requires Feed(s, input, m).V + input / s.p.C <= s.p.Vth
    ensures Feed(s, input, n).V == Feed(s, input, m).V + input / s.p.C
    ensures Feed(s, input, n).refractory == 0
  {
    IntegrateAndFireStep(Feed(s, input, m), input);
  }

  /** A refractory neuron only records the last input it was given. */
  lemma {:induction false} RefractoryFeedIgnored(s: State, input: real, n: nat)
    requires s.refractory != 0
    ensures Feed(s, input, n) == if n == 0 then s else s.(I := input)
  {
    if n > 1 {
      RefractoryFeedIgnored(s, input, n - 1);
    }
  }

  /** With the default configuration, five inputs of 1.0 take V to 5 without a
      spike, the sixth crosses the threshold, asks for a spike and starts the
      refractory period, and further inputs change nothing but I until the
      reset clock fires; after that the voltage is 0 and integrates again. */
  lemma DefaultIntegrateAndFire(n: nat)
    ensures Feed(Initial(), 1.0, 5).V == 5.0 && Feed(Initial(), 1.0, 5).refractory == 0
    ensures Feed(Initial(), 1.0, 6).V == 6.0 && Feed(Initial(), 1.0, 6).refractory == 1
    ensures Feed(Initial(), 1.0, 6).bangClock == Schedule(Unarmed, 10.0)
    ensures Feed(Initial(), 1.0, 6).resetClock == Schedule(Unarmed, 100.0)
    ensures Feed(Feed(Initial(), 1.0, 6), 1.0, n + 1) == Feed(Initial(), 1.0, 6)
    ensures Float(DelayedReset(Feed(Initial(), 1.0, 6 + n)), 1.0).V == 1.0
  {
    var s0 := Initial();
    IntegrateAndFireRamp(s0, 1.0, 5);
    var s6 := Feed(s0, 1.0, 6);
    RefractoryFeedIgnored(s6, 1.0, n + 1);
    RefractoryFeedIgnored(s6, 1.0, n);
    assert Feed(s0, 1.0, 6 + n) == Feed(s6, 1.0, n) by {
      FeedSplit(s0, 1.0, 6, n);
    }
  }

  /** Feeding `m` and then `n` inputs is feeding `m + n`. */
  lemma {:induction false} FeedSplit(s: State, input: real, m: nat, n: nat)
    requires DivisorsNonzero(s)
    ensures Feed(Feed(s, input, m), input, n) == Feed(s, input, m + n)
  {
    if n > 0 {
      FeedSplit(s, input, m, n - 1);
    }
  }

  /** After the refractory period ends, input integrates from zero again. */
  lemma ResetThenIntegrate(s: State, input: real)
    requires s.mode == 0 && s.p.C != 0.0
    ensures Float(DelayedReset(s), input).V == input / s.p.C
  {
  }

  // ---------------------------------------------------------------------
  // The leak loop

  /** `n` leak ticks in a row. */
  function LeakTicks(s: State, n: nat): (t: State)
    requires s.p.R * s.p.C != 0.0
    ensures t.p == s.p
  {
    if n == 0 then s else Leak(LeakTicks(s, n - 1))
  }

  /** With R*C at least 1 and V below the threshold, leak ticks never raise
      the voltage and never take it below 0; from a positive voltage every
      tick lowers it strictly until it reaches 0, after which the loop stops. */
  lemma {:induction false} LeakDecays(s: State, n: nat)
    requires s.p.R * s.p.C >= 1.0 && 0.0 <= s.V < s.p.Vth
    ensures 0.0 <= LeakTicks(s, n).V <= s.V
    ensures n > 0 && s.V > 0.0 ==> LeakTicks(s, n).V < s.V
    ensures LeakTicks(s, n).V > 0.0 ==> LeakTicks(s, n + 1).V < LeakTicks(s, n).V
    ensures LeakTicks(s, n).V == 0.0 ==>
              LeakTicks(s, n + 1).V == 0.0 &&
              LeakTicks(s, n + 1).leakClock == Fired(LeakTicks(s, n).leakClock)
  {
    if n > 0 {
      LeakDecays(s, n - 1);
    }
  }

  /** At or above the threshold the leak tick keeps rescheduling itself
      without lowering the voltage. */
  lemma LeakHoldsFromThreshold(s: State)
    requires s.V >= s.p.Vth && s.V > 0.0
    ensures Leak(s).V == s.V
    ensures Leak(s).leakClock == Schedule(s.leakClock, s.p.leakPeriod)
  {
  }

  // ---------------------------------------------------------------------
  // Configuration

  /** Sending the same `mode` message twice is the same as sending it once. */
  lemma SetModeIdempotent(s: State, m: int)
    ensures SetMode(SetMode(s, m), m) == SetMode(s, m)
  {
  }
}
