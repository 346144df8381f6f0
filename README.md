# simpleNeuron, modelled in Dafny

This project models `simpleNeuron`, the event-driven version of a Max external
that simulates one neuron. It is a single object with these parts:

- the membrane voltage `V` and the recovery variable `W`;
- a refractory flag, the FitzHugh-Nagumo spike latch and the model mode;
- a set of parameters.

The object has three models of the neuron:

- mode 0, integrate-and-fire;
- mode 1, leaky integrate-and-fire;
- mode 2, FitzHugh-Nagumo, a two-variable excitable-membrane model integrated by explicit Euler steps.

A `float` message feeds the neuron one input current. Three Max clocks run
three callbacks later:

- `delayedReset` ends the refractory period;
- `leak` is the self-rescheduling decay tick;
- `delayedBang` sends the spike out of the outlet.

The `mode`, `R`, `C`, `Vth` and `step` messages change the configuration.
`bang` prints a short report.

The project has four modules:

- `Neuron` (neuron.dfy) is the object as a value. `State` holds the record's
  fields. It also holds the host's view of each clock: whether an entry is
  pending, with what delay, and how often `clock_fdelay` was called on it.
  Finally it holds the number of bangs sent. Each handler is a function from
  the state before the call to the state after it, and its `ensures` say what
  the handler guarantees.
- `NeuronProperties` (neuron_properties.dfy) holds lemmas that relate several
  calls: the twenty-step Euler composition, the latch, ramps of inputs, the
  refractory period and the leak loop.
- `NeuronRuns` (neuron_runs.dfy) drives the object with any sequence of
  messages and clock firings. It proves the invariants that every such run
  keeps.
- `SimpleNeuronObject` (simple_neuron.dfy) is the object itself. Class
  `SimpleNeuron` has the record's fields. Its methods update them in place
  statement by statement, including the twenty-iteration `for` loop. Each
  method is proved to move the object exactly as the matching `Neuron`
  function moves its value.

Modelling choices:

- A clock that fires has its pending entry consumed. So each callback first
  marks its own clock idle, and `leak` may then arm it again.
- `clock_fdelay` on a pending clock replaces the entry and counts one more
  request.
- The doubles are `real`. Where the code divides, the divisor is required to be
  nonzero: `C`, `R*C` and `tau`, each only in the mode and branch where the
  division happens.
- `l_ref`, `l_mode` and `l_bangFlag` stay integers. `mode` is whatever integer
  the message carries. A mode other than 0, 1 and 2 integrates nothing but is
  still checked against the threshold.
- `d_I` is not set by the constructor. It is written at the top of every
  `float` before it is read, so the model starts it at 0.

Behaviour of the code that may surprise (the model follows the code):

- The code checks the refractory flag in every mode, FitzHugh-Nagumo included.
  `mode` does not clear the flag, so after switching to mode 2 during a
  refractory period, input is ignored until the reset clock fires.
- The leak tick reschedules itself whenever `V > 0`, not only while
  `0 < V < Vth`. At or above the threshold it keeps ticking without lowering
  the voltage (`LeakHoldsFromThreshold`).
- The FitzHugh-Nagumo latch is released by the check after the loop whenever
  `W < 1`. This includes the call that set the latch (`LatchReleasedInSameCall`).
  The next input that is still above 1.9 then asks for another spike.
- The check after the loop can never ask for a spike itself: the last loop pass
  already latched any voltage above 1.9 (`FloatRequestNeedsExcursion`).
- The leak tick does not look at the refractory flag. A tick that fires during
  the refractory period still decays the voltage, or clamps it to 0, and
  reschedules itself as usual. For example, this happens after `Vth` is raised
  above the voltage or after `mode` has set V to 0.
- The leak tick does not look at the mode either. A tick asked for in mode 1
  still fires after a `mode` message has switched to another mode. If
  FitzHugh-Nagumo inputs arrive before it fires, it sets a negative voltage
  (the resting voltage there is about -1.2) to 0. A positive voltage below
  `Vth` is lowered by V/(R*C) and the tick is asked for again.

## Model

| member | source | states |
|---|---|---|
| `Neuron.Initial` | simpleNeuron.c:262-284 | a new object is consistent and can take input in its default mode; it is not refractory, its latch is clear, its mode is 0, no clock has been asked for and no bang has been sent |
| `Neuron.FhStep` | simpleNeuron.c:167-173 | one loop pass moves only V, W, the latch and the bang clock; it either leaves latch and clock alone, or sets a clear latch and asks for one spike when the new V is above 1.9; it ends latched whenever V is above 1.9 |
| `Neuron.FhLoop` | simpleNeuron.c:165-174 | over any number of passes, only V, W, the latch and the bang clock move; the bang clock is asked for at most once, only if the latch was clear on entry, and the loop never clears the latch; a loop of at least one pass that ends above 1.9 ends latched |
| `Neuron.Integrate` | simpleNeuron.c:156-175 | the mode branch of an input to a neuron that is not refractory: mode 0 adds I/C to V; mode 1 adds I/C - V/(R*C) and asks for the leak tick; mode 2 is exactly twenty loop passes; any other mode keeps V; only V, W, the latch, the bang clock and the leak clock can move, W and the latch only in mode 2 and the leak clock only in mode 1 |
| `Neuron.Gate` | simpleNeuron.c:177-191 | the check after the mode branch: in every mode but 2, a voltage strictly above Vth starts the refractory period and asks for the bang and reset clocks, and any other voltage changes nothing; in mode 2, a voltage above 1.9 with the latch clear sets the latch and asks for the spike, and otherwise the latch is released exactly when it is set and W is below 1, with no clock asked for; nothing but the refractory flag, the latch, the bang clock and the reset clock moves |
| `Neuron.Float` | simpleNeuron.c:149-193 | stores I, then runs `Integrate` and `Gate` unless the neuron is refractory; while refractory nothing else changes and no clock is asked for; mode 0 gives V + I/C; mode 1 gives V + I/C - V/(R*C) and asks for the leak tick; other modes than 0-2 keep V and W; in every mode but 2 the neuron becomes refractory exactly when the new V is strictly above Vth, in which case the bang and reset clocks are asked for, and otherwise neither is; mode 2 never becomes refractory, asks for at most one spike and none when latched on entry, and releases a latch held on entry exactly when W ends below 1; parameters, mode and bangs sent never change; consistency is kept |
| `Neuron.DelayedReset` | simpleNeuron.c:195-201 | the refractory flag, V and W become 0; mode, latch, parameters, I, the other clocks and the bangs sent are unchanged; consistency is kept |
| `Neuron.Leak` | simpleNeuron.c:203-215 | only V and the leak clock move; V ends non-negative, either positive with the tick asked for again or exactly 0 with the clock stopped; inside the window 0 < V < Vth the voltage becomes V - V/(R*C) when that is positive and 0 otherwise, the decay step being `Neuron.LeakDecay` (lines 205-209); outside the window it is kept or clamped to 0; inside it with R*C at least 1 it ends in [0, V) |
| `Neuron.DelayedBang` | simpleNeuron.c:217-221 | one more bang is sent and the bang clock is no longer pending; nothing else changes |
| `Neuron.SetMode` | simpleNeuron.c:223-230 | the mode becomes m and V, W become 0; the refractory flag, the latch and everything else are kept |
| `Neuron.SetR` | simpleNeuron.c:125-129 | replaces R and nothing else |
| `Neuron.SetC` | simpleNeuron.c:131-135 | replaces C and nothing else |
| `Neuron.SetThresh` | simpleNeuron.c:137-141 | replaces Vth and nothing else |
| `Neuron.SetStep` | simpleNeuron.c:143-147 | replaces the FitzHugh-Nagumo step size and nothing else |
| `NeuronProperties.FhLoopIsEuler` | simpleNeuron.c:165-168 | after n loop passes, (V, W) is `EulerSteps`, the n-fold composition of `EulerStep`, the explicit Euler step that updates V first and then W from the new V; the latch does not feed back into the dynamics |
| `NeuronProperties.FloatIsTwentyEulerSteps` | simpleNeuron.c:163-175 | one FitzHugh-Nagumo input moves (V, W) by exactly twenty Euler steps under that input |
| `NeuronProperties.FhRequestNeedsExcursion` | simpleNeuron.c:169-173 | the loop asks for a spike only if some pass left V above 1.9 |
| `NeuronProperties.FhLatchSticks` | simpleNeuron.c:169-173 | once a pass has set the latch, the remaining passes change neither the latch nor the bang clock |
| `NeuronProperties.FhExcursionRequests` | simpleNeuron.c:165-174 | with the latch clear on entry, a pass that leaves V above 1.9 asks for the spike: the loop ends latched, with exactly one request on the bang clock |
| `NeuronProperties.FloatRequestNeedsExcursion` | simpleNeuron.c:165-184 | the bang clock after a FitzHugh-Nagumo input is the one the loop left, so the check after the loop never asks for a spike; any spike asked for follows a sub-step above 1.9; with the latch clear on entry, a sub-step above 1.9 does ask for the spike |
| `NeuronProperties.LatchReleasedInSameCall` | simpleNeuron.c:177-185 | a latch set during the loop is released by the same input exactly when W ends below 1, and the spike is asked for either way |
| `NeuronProperties.Feed` | simpleNeuron.c:149-193 | repeated inputs keep the parameters, the mode and the divisions defined |
| `NeuronProperties.IntegrateAndFireStep` | simpleNeuron.c:154-191 | in mode 0, one input that keeps V at or below Vth adds I/C to V, leaves the neuron in mode 0, not refractory, with its parameters |
| `NeuronProperties.FeedBelowThreshold` | simpleNeuron.c:154-191 | in mode 0, the next of a run of equal inputs that stays at or below Vth adds I/C to the voltage the run had reached, and the neuron stays not refractory |
| `NeuronProperties.FeedRamp` | simpleNeuron.c:154-191 | in mode 0, while the ramp stays at or below Vth, n equal inputs advance V n times by I/C and never make the neuron refractory |
| `NeuronProperties.IntegrateAndFireRamp` | simpleNeuron.c:154-191 | in mode 0, while the ramp stays at or below Vth, n equal inputs add n*I/C to V and never make the neuron refractory |
| `NeuronProperties.RefractoryFeedIgnored` | simpleNeuron.c:151-154 | any number of inputs to a refractory neuron change only the stored input |
| `NeuronProperties.DefaultIntegrateAndFire` | simpleNeuron.c:149-201 | with the defaults, five inputs of 1.0 give V = 5 with no spike; the sixth gives V = 6, the neuron turns refractory and asks for the spike after 10 ms and the reset after 100 ms; later inputs change nothing; after the reset one input gives V = 1 |
| `NeuronProperties.FeedSplit` | simpleNeuron.c:149-193 | m inputs followed by n more of the same current are m + n inputs |
| `NeuronProperties.ResetThenIntegrate` | simpleNeuron.c:195-201 | after the refractory period ends, an input in mode 0 integrates from V = 0 |
| `NeuronProperties.LeakTicks` | simpleNeuron.c:203-215 | a run of leak ticks keeps the parameters |
| `NeuronProperties.LeakDecays` | simpleNeuron.c:203-215 | with R*C at least 1 and 0 <= V < Vth, leak ticks keep V in [0, V0]; from a positive voltage each tick lowers it strictly; once V is 0 it stays 0 and the clock stops |
| `NeuronProperties.LeakHoldsFromThreshold` | simpleNeuron.c:205-212 | at or above Vth a positive voltage is not lowered and the tick is asked for again |
| `NeuronProperties.SetModeIdempotent` | simpleNeuron.c:223-230 | sending the same `mode` twice equals sending it once |
| `NeuronRuns.Step` | simpleNeuron.c:82-88 | the message dispatch of lines 82-88 and the clock callbacks bound at lines 245-247: an input runs the float handler exactly when its divisions are defined; each clock firing runs its own callback (reset clock `delayedReset`, leak clock `leak`, bang clock `delayedBang`), and only while that clock has an entry pending; each configuration message always runs its own setter |
| `NeuronRuns.StepPreserves` | simpleNeuron.c:149-230 | every message or clock firing keeps the object consistent and never lets the bangs sent, plus the one pending, exceed the spikes asked for |
| `NeuronRuns.RunPreserves` | simpleNeuron.c:149-230 | the same for any sequence of messages and firings |
| `NeuronRuns.RunFromInitial` | simpleNeuron.c:234-287 | from a new object, every run is consistent and sends no more bangs than it asked for |
| `SimpleNeuronObject.SimpleNeuron.constructor` | simpleNeuron.c:264-284 | the new object is the default state |
| `SimpleNeuronObject.SimpleNeuron.Report` | simpleNeuron.c:113-123 | reports V in every mode below 2 and W in every mode from 2 up, together with R, C and the mode |
| `SimpleNeuronObject.SimpleNeuron.SetR` | simpleNeuron.c:125-129 | updates the object as `Neuron.SetR` |
| `SimpleNeuronObject.SimpleNeuron.SetC` | simpleNeuron.c:131-135 | updates the object as `Neuron.SetC` |
| `SimpleNeuronObject.SimpleNeuron.SetThresh` | simpleNeuron.c:137-141 | updates the object as `Neuron.SetThresh` |
| `SimpleNeuronObject.SimpleNeuron.SetStep` | simpleNeuron.c:143-147 | updates the object as `Neuron.SetStep` |
| `SimpleNeuronObject.SimpleNeuron.Float` | simpleNeuron.c:149-193 | updates the object in place as `Neuron.Float` |
| `SimpleNeuronObject.SimpleNeuron.Gate` | simpleNeuron.c:177-191 | the check after the mode branch, in place |
| `SimpleNeuronObject.SimpleNeuron.FitzHughNagumo` | simpleNeuron.c:165-174 | the twenty-pass loop leaves the object as `Neuron.FhLoop` after twenty passes |
| `SimpleNeuronObject.SimpleNeuron.FhPass` | simpleNeuron.c:167-173 | one loop pass, in place, as `Neuron.FhStep` |
| `SimpleNeuronObject.SimpleNeuron.DelayedReset` | simpleNeuron.c:195-201 | updates the object as `Neuron.DelayedReset` |
| `SimpleNeuronObject.SimpleNeuron.Leak` | simpleNeuron.c:203-215 | updates the object as `Neuron.Leak` |
| `SimpleNeuronObject.SimpleNeuron.DelayedBang` | simpleNeuron.c:217-221 | updates the object as `Neuron.DelayedBang` |
| `SimpleNeuronObject.SimpleNeuron.SetMode` | simpleNeuron.c:223-230 | updates the object as `Neuron.SetMode` |

## Left out

- Host registration and glue (`main`, `class_new`, `class_addmethod`, `simpleNeuron_assist`) and all `post`/`object_post` logging, which includes the argument dump in `simpleNeuron_new`: these are host I/O. `SimpleNeuron.Report` returns the values that `bang` prints, without the formatting.
- Allocation and freeing: the double `object_alloc`, the null dereference when allocation fails, and `simpleNeuron_free` freeing only two of the three clocks. The model has no heap of host objects.
- Real clock timing: a clock is only idle or pending with a delay. When it fires is the host's choice; `NeuronRuns` lets any pending clock fire at any point.
- IEEE double behaviour: rounding, and the infinities and NaNs that follow from `C = 0`, `R*C = 0` or `tau = 0`. Values are real numbers, and those divisors are preconditions where they are used.
- Argument decoding with `atom_getfloat`/`atom_getlong`: the setters take the already decoded value. Reading an argument that is missing is not modelled.
- `Wth` and `Wr` are stored and initialised but never read.
- The audio-rate variant `simpleNeuron~` is not part of this model.
- `NeuronProperties.LeakDecays`: shows a strict decrease at each tick but not that the voltage reaches exactly 0. With real numbers and R*C > 1 the voltage only tends to 0. In doubles the outcome depends on R*C. For 1 < R*C < 2, at the smallest subnormal `V/(R*C)` rounds up to V itself. The decay then gives exactly 0, the clamp sets V to 0 and the tick stops. For R*C >= 2, the default 100 included, `V/(R*C)` rounds to 0 once V is tiny (at exactly 2 the tie rounds to even, that is to 0). From then on V stays positive and the leak tick reschedules itself forever. Floating-point rounding is not modelled, so neither ending is shown.
