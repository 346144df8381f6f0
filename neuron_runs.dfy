/** The neuron driven by its host: messages from the patcher and clock
    callbacks, in any order the host delivers them. A clock callback only
    happens while its clock has an entry pending. */
module NeuronRuns {
  import opened Neuron

  datatype Option<T> = None | Some(value: T)

  /** Whatever the host can deliver to the object. */
  datatype Event =
    | Input(current: real)       // `float`
    | ResetFires                 // m_clock1 runs delayedReset
    | LeakFires                  // m_clock2 runs leak
    | BangFires                  // m_clock3 runs delayedBang
    | ModeMsg(m: int)            // `mode`
    | RMsg(r: real)              // `R`
    | CMsg(c: real)              // `C`
    | VthMsg(v: real)            // `Vth`
    | StepMsg(h: real)           // `step`

  /** The state after `e`, or None when `e` cannot happen in `s` (its clock has
      nothing pending) or would divide by zero. */
  function Step(s: State, e: Event): (r: Option<State>)
    // an input runs the float handler whenever its divisions are defined
    ensures e.Input? ==> (r.Some? <==> DivisorsNonzero(s))
    ensures e.Input? && r.Some? ==> r.value == Float(s, e.current)
    // each clock runs its own callback, and only while it is pending
    ensures e.ResetFires? ==> (r.Some? <==> s.resetClock.slot.Pending?)
    ensures e.ResetFires? && r.Some? ==> r.value == DelayedReset(s)
    ensures e.LeakFires? ==>
              (r.Some? <==> s.leakClock.slot.Pending? && (0.0 < s.V < s.p.Vth ==> s.p.R * s.p.C != 0.0))
    ensures e.LeakFires? && r.Some? ==> r.value == Leak(s)
    ensures e.BangFires? ==> (r.Some? <==> s.bangClock.slot.Pending?)
    ensures e.BangFires? && r.Some? ==> r.value == DelayedBang(s)
    // configuration messages always apply, each with its own setter
    ensures e.ModeMsg? ==> r == Some(SetMode(s, e.m))
    ensures e.RMsg? ==> r == Some(SetR(s, e.r))
    ensures e.CMsg? ==> r == Some(SetC(s, e.c))
    ensures e.VthMsg? ==> r == Some(SetThresh(s, e.v))
    ensures e.StepMsg? ==> r == Some(SetStep(s, e.h))
  {
    match e
    case Input(i) => if DivisorsNonzero(s) then Some(Float(s, i)) else None
    case ResetFires => if s.resetClock.slot.Pending? then Some(DelayedReset(s)) else None
    case LeakFires =>
      if s.leakClock.slot.Pending? && (0.0 < s.V < s.p.Vth ==> s.p.R * s.p.C != 0.0)
      then Some(Leak(s)) else None
    case BangFires => if s.bangClock.slot.Pending? then Some(DelayedBang(s)) else None
    case ModeMsg(m) => Some(SetMode(s, m))
    case RMsg(r) => Some(SetR(s, r))
    case CMsg(c) => Some(SetC(s, c))
    case VthMsg(v) => Some(SetThresh(s, v))
    case StepMsg(h) => Some(SetStep(s, h))
  }

  /** The state after all of `es`, or None if one of them cannot happen. */
  function Run(s: State, es: seq<Event>): Option<State>
    decreases |es|
  {
    if es == [] then Some(s)
    else match Step(s, es[0])
      case None => None
      case Some(t) => Run(t, es[1..])
  }

  /** Bangs sent, and the one still pending, never outnumber the spikes
      asked for. */
  ghost predicate SpikesAccounted(s: State) {
    s.spikes + (if s.bangClock.slot.Pending? then 1 else 0) <= s.bangClock.requests
  }

  /** Every event keeps the object consistent and its bangs accounted for. */
  lemma StepPreserves(s: State, e: Event)
    requires Consistent(s) && SpikesAccounted(s)
    ensures Step(s, e).Some? ==> Consistent(Step(s, e).value) && SpikesAccounted(Step(s, e).value)
  {
  }

  /** From a new object, whatever the host delivers, the object stays
      consistent (flags 0 or 1, a refractory neuron always has its release
      pending) and the outlet never bangs more often than spikes were asked for. */
  lemma {:induction false} RunPreserves(s: State, es: seq<Event>)
    requires Consistent(s) && SpikesAccounted(s)
    ensures Run(s, es).Some? ==> Consistent(Run(s, es).value) && SpikesAccounted(Run(s, es).value)
    decreases |es|
  {
    if es != [] {
      StepPreserves(s, es[0]);
      if Step(s, es[0]).Some? {
        RunPreserves(Step(s, es[0]).value, es[1..]);
      }
    }
  }

  /** The same, from a newly made object. */
  lemma RunFromInitial(es: seq<Event>)
    ensures Run(Initial(), es).Some? ==>
              Consistent(Run(Initial(), es).value) && SpikesAccounted(Run(Initial(), es).value) &&
              Run(Initial(), es).value.spikes <= Run(Initial(), es).value.bangClock.requests
  {
    RunPreserves(Initial(), es);
  }
}
