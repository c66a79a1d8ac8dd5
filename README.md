# LX tempo engine and boolean parameter, in Dafny

This project models two classes of the LX lighting library:

- `Tempo`, the musical clock. It holds a BPM value with its derived beat period, a beat counter, a one-frame `triggered` flag, a tap accumulator (first tap, last tap, tap count) and an ordered list of listeners.
  - `loop` counts the beats that the oscillator fires.
  - `trigger` re-syncs the beat.
  - `tap()` averages a run of human taps into a tempo.
  - `tap(false)` follows an external clock from the single interval since the previous tap.
  - `beat`, `half` and `measure` say where the current frame falls in a 4/4 measure.
- `BooleanParameter`, a parameter whose stored value is always exactly 0 or 1.

Layout:

- `tap_tempo.dfy`, module `TapTempo`. The constants (`MINUTE` = 60000 ms, BPM bounds 20 and 240, default 120, a staleness gap of 2000 ms), the BPM clamp, and the tap arithmetic as pure functions. It also holds lemmas about sequences of taps, replayed by `Replay`; `EvenTimes` builds evenly spaced tap times for those lemmas.
- `listeners.dfy`, module `Listeners`. The listener list as a sequence: append, and remove the first occurrence.
- `tempo.dfy`, module `Lx`. Class `Click`, the abstract oscillator. Class `Tempo<L>`, whose methods update its fields in place and are proved against the functions of `TapTempo` and `Listeners`. Three client methods replay short scenarios on a fresh `Tempo`.
- `boolean_parameter.dfy`, module `Parameter`. Class `BooleanParameter`.

Modelling decisions:

- **Clock.** `System.currentTimeMillis()` becomes a parameter `now: int` of `Tap` and `TapWithSmoothing`. Java's overload `tap(boolean)` is named `TapWithSmoothing`.
- **BPM storage.** The BPM parameter is assumed to clamp stored values to `[MIN_BPM, MAX_BPM]`, the bounds given at construction (`TapTempo.Clamp`). Its change notification is modelled by `SetBpm` calling `OnParameterChanged`, which re-derives the period. `OnParameterChanged` is modelled only for `bpm`, the one parameter `Tempo` registers.
- **The invariant `Tempo.Valid()`.** It states that the BPM is in bounds, that `period == MINUTE / bpm`, and that the oscillator's phase is in `[0, 1)`.
- **Oscillator.** `Click` is abstract.
  - `Fire` makes it read as fired with phase 0. This follows the documented contract of `ramp()` ("on the beat the value will be 0").
  - `Loop`, the superclass `loop`, may leave it fired or not, at any phase in `[0, 1)`. This is written as a nondeterministic assignment, because the oscillator's arithmetic is not part of this model.
- **Zero beat period.** `tap(false)` divides by `lastTap - firstTap`, and `tap()` can divide by a zero average when four taps share a millisecond. Java evaluates `60000 / 0.0` as +Infinity, which the clamp pins to 240. The model has an explicit guard that stores `MAX_BPM` for a zero period (`BpmForPeriod`, `SetBpmForPeriod`) instead of a precondition. `SameMillisecondPinsToMax` states the outcome for `tap(false)`, and `SameMillisecondRunPinsToMax` for `tap()`.
- **First `tap(false)`.** The model follows the code, with no precondition. `lastTap` starts at 0, so the first call measures the interval from 0, which is the clock value itself. For any clock reading of 3000 ms or more, this pins the tempo to 20 BPM (`FirstExternalTapPinsToMin`). Treating that call as a no-op would be a different behaviour from the code, so it is not modelled.
- **Doc comment versus code.** The doc comment of `tap()` says three taps are needed to compute a tempo. The code averages only when `tapCount > 3`, that is from the fourth tap of a run. The model follows the code; `ShortRunKeepsBpm` and `EvenRunBpm` state both sides of that threshold.
- **`BooleanParameter`.** The inherited `setValue(v)` is assumed to store `updateValue(v)`, and is modelled as `SetValue`. `updateValue` uses no state, so it is a static function. The field `label` is named `name`, because `label` is a Dafny keyword.

## Model

| member | source | states |
|---|---|---|
| `TapTempo.Clamp` | src/heronarts/lx/Tempo.java:47-50 | the stored BPM is in [20, 240]; it equals the request exactly when the request is in range, and otherwise is the bound on the request's side |
| `TapTempo.ClampIdempotent` | src/heronarts/lx/Tempo.java:47-50 | storing an already stored BPM leaves it unchanged |
| `TapTempo.ClampMonotone` | src/heronarts/lx/Tempo.java:47-50 | a larger request never stores a smaller BPM |
| `TapTempo.PeriodBounds` | src/heronarts/lx/Tempo.java:72-76 | every storable BPM gives a period of 250 to 3000 ms with `period * bpm == 60000`, so the oscillator never sees a zero or negative period |
| `TapTempo.BpmForPeriod` | src/heronarts/lx/Tempo.java:200-201 | the BPM set from a beat period is `clamp(60000 / period)`: always in bounds; a zero period gives 240 (Java's +Infinity, clamped); a negative period gives 20; a positive period whose tempo is above 240 or below 20 gives that bound; otherwise the BPM whose beat lasts exactly that period |
| `TapTempo.SmoothTap` | src/heronarts/lx/Tempo.java:193-198 | after `tap()`, `lastTap == now`; a tap more than 2000 ms after the previous one restarts the run (`firstTap == now`, `tapCount == 1`); any other tap keeps `firstTap` and adds one to `tapCount` |
| `TapTempo.StaleTapForgetsHistory` | src/heronarts/lx/Tempo.java:193-196 | after a stale tap the accumulator is the same whatever run came before it |
| `TapTempo.AverageInterval` | src/heronarts/lx/Tempo.java:200 | the beat period of a run: `tapCount - 1` such intervals span exactly from the first to the last tap, and it is zero exactly when both taps share a millisecond |
| `TapTempo.SmoothedBpm` | src/heronarts/lx/Tempo.java:199-202 | with three taps or fewer in the run the BPM is unchanged; from the fourth tap it is the BPM stored for the average interval (so in bounds and pinned to a bound outside them), and when that tempo is in range `tapCount - 1` beats at it span the run exactly |
| `TapTempo.SameMillisecondRunPinsToMax` | src/heronarts/lx/Tempo.java:199-202 | a `tap()` run of four or more taps whose first and last share a millisecond averages to a zero period and stores 240 |
| `TapTempo.FastRunPinsToMax` | src/heronarts/lx/Tempo.java:199-202 | a `tap()` run averaging less than 250 ms per beat stores 240 |
| `TapTempo.ShortPeriodPinsToMax` | src/heronarts/lx/Tempo.java:200-201 | any positive beat period under 250 ms stores 240 |
| `TapTempo.ExternalTap` | src/heronarts/lx/Tempo.java:215-216 | after `tap(false)` the previous `lastTap` is the first tap, `now` is the last, and `tapCount` is untouched |
| `TapTempo.ExternalBpm` | src/heronarts/lx/Tempo.java:218-219 | `tap(false)` stores the BPM for the single interval since the previous tap (`BpmForPeriod` of it, so pinned to a bound when out of range); when that tempo is in range its beat lasts exactly the interval |
| `TapTempo.SameMillisecondPinsToMax` | src/heronarts/lx/Tempo.java:215-219 | two taps in one millisecond make a zero interval and pin the tempo to 240 |
| `TapTempo.FirstExternalTapPinsToMin` | src/heronarts/lx/Tempo.java:212-219 | the first `tap(false)` measures from the initial `lastTap` of 0, so any clock reading of 3000 ms or more pins the tempo to 20 |
| `TapTempo.Replay` | src/heronarts/lx/Tempo.java:191-204 | after replaying a sequence of taps, the last tap time is the time of the final tap |
| `TapTempo.EvenRunTaps` | src/heronarts/lx/Tempo.java:193-198 | `k` taps at most 2000 ms apart, the first of them stale, leave the accumulator spanning exactly that run: first tap, last tap, count `k` |
| `TapTempo.EvenRunAverage` | src/heronarts/lx/Tempo.java:200 | the average interval of an evenly spaced run is its spacing |
| `TapTempo.EvenRunBpm` | src/heronarts/lx/Tempo.java:199-202 | four or more evenly spaced taps set the tempo whose beat is the spacing, however long the run |
| `TapTempo.RunCountBound` | src/heronarts/lx/Tempo.java:193-198 | a run started by a stale tap holds between one tap and as many taps as were made |
| `TapTempo.ShortRunKeepsBpm` | src/heronarts/lx/Tempo.java:184-202 | a run of three taps or fewer, however spaced, never changes the tempo, although the doc comment says three taps suffice |
| `TapTempo.FourTapsHalfSecondApart` | src/heronarts/lx/Tempo.java:191-204 | four fresh taps 500 ms apart give exactly 120 BPM |
| `Listeners.IndexOf` | src/heronarts/lx/Tempo.java:83-86 | the position of the first occurrence of a listener, or -1 exactly when it is absent |
| `Listeners.Added` | src/heronarts/lx/Tempo.java:78-81 | `addListener` keeps the list and puts the new listener at the end |
| `Listeners.RemoveFirst` | src/heronarts/lx/Tempo.java:83-86 | `removeListener` leaves a list without the listener unchanged; otherwise it deletes exactly its first occurrence, keeping the others in order |
| `Listeners.RemoveUndoesAdd` | src/heronarts/lx/Tempo.java:78-86 | removing a listener that was just added, and not held before, restores the list |
| `Listeners.RemoveKeepsLaterCopy` | src/heronarts/lx/Tempo.java:78-86 | removing a listener that was added twice keeps the later copy at the end |
| `Lx.Click.constructor` | src/heronarts/lx/Tempo.java:56 | the oscillator starts unfired at phase 0 |
| `Lx.Click.Fire` | src/heronarts/lx/Tempo.java:180 | a forced beat reads as fired with phase 0 |
| `Lx.Click.Loop` | src/heronarts/lx/Tempo.java:227 | a frame leaves the phase in [0, 1) and may or may not fire |
| `Lx.Tempo.constructor` | src/heronarts/lx/Tempo.java:45-69 | a new tempo runs at 120 BPM with a 500 ms period, no listeners, all tap fields 0, beat count 0 and not triggered |
| `Lx.Tempo.OnParameterChanged` | src/heronarts/lx/Tempo.java:71-76 | the period becomes `60000 / bpm`, which lies between 250 and 3000 ms |
| `Lx.Tempo.AddListener` | src/heronarts/lx/Tempo.java:78-81 | appends the listener at the end; changes no other field |
| `Lx.Tempo.RemoveListener` | src/heronarts/lx/Tempo.java:83-86 | deletes the first occurrence only; changes no other field |
| `Lx.Tempo.Beat` | src/heronarts/lx/Tempo.java:94-96 | on a beat exactly when the oscillator fired this frame |
| `Lx.Tempo.Half` | src/heronarts/lx/Tempo.java:103-105 | a half-note beat is always a beat |
| `Lx.Tempo.Measure` | src/heronarts/lx/Tempo.java:112-114 | a measure beat is always a half-note beat and a beat |
| `Lx.MeasureCountIsHalfCount` | src/heronarts/lx/Tempo.java:103-114 | a beat count that starts a measure (a multiple of four) also starts a half (a multiple of two) |
| `Lx.Tempo.Ramp` | src/heronarts/lx/Tempo.java:122-124 | the beat phase is in [0, 1) |
| `Lx.Tempo.Bpm` | src/heronarts/lx/Tempo.java:140-142 | the tempo is in [20, 240] and `bpm * period == 60000` |
| `Lx.Tempo.SetBpm` | src/heronarts/lx/Tempo.java:159-162 | stores the clamped value and re-derives the period; only `bpm` and `period` change |
| `Lx.Tempo.AdjustBpm` | src/heronarts/lx/Tempo.java:170-173 | has the effect of `setBpm(bpm + amount)`; only `bpm` and `period` change |
| `Lx.Tempo.SetBpmForPeriod` | src/heronarts/lx/Tempo.java:218-219 | `setBpm(60000 / beatPeriod)`, with the zero period guarded as 240 |
| `Lx.Tempo.Trigger` | src/heronarts/lx/Tempo.java:178-182 | beat count 0, `triggered` set, oscillator fired so `beat()` reads true and `ramp()` reads 0; BPM, taps and listeners untouched |
| `Lx.Tempo.Tap` | src/heronarts/lx/Tempo.java:191-204 | the accumulator moves as `SmoothTap` says, the BPM as `SmoothedBpm` says, and every tap ends triggered with beat count 0; listeners untouched |
| `Lx.Tempo.TapWithSmoothing` | src/heronarts/lx/Tempo.java:212-223 | with smoothing, as `Tap`; without, the accumulator moves as `ExternalTap` says, the BPM follows the single interval since the previous tap, and `tapCount`, `beatCount`, `triggered` and the oscillator are untouched |
| `Lx.Tempo.Loop` | src/heronarts/lx/Tempo.java:226-232 | the beat count goes up by exactly one when the oscillator fired and no trigger preceded the frame, and is otherwise unchanged; `triggered` is false afterwards on every branch |
| `Lx.FourTapsSetTempo` | src/heronarts/lx/Tempo.java:191-204 | a fresh tempo tapped four times 500 ms apart runs at 120 BPM with a 500 ms period |
| `Lx.TriggeredBeatNotCounted` | src/heronarts/lx/Tempo.java:178-232 | right after a trigger `measure()` reads true, and the following frame does not count the forced beat, so the count stays 0 |
| `Lx.StaleTapKeepsTempo` | src/heronarts/lx/Tempo.java:193-202 | a tap after more than 2000 ms of silence restarts the run at one tap and leaves the tempo as it was |
| `Parameter.BooleanParameter.Off` | src/heronarts/lx/parameter/BooleanParameter.java:21-23 | the label-only constructor starts off, with value 0 |
| `Parameter.BooleanParameter.constructor` | src/heronarts/lx/parameter/BooleanParameter.java:25-27 | starts with value 1 when `on` and 0 otherwise, so `isOn()` equals `on` |
| `Parameter.BooleanParameter.UpdateValue` | src/heronarts/lx/parameter/BooleanParameter.java:39-41 | the stored value is always 0 or 1, and is 1 exactly when the requested value is positive |
| `Parameter.BooleanParameter.UpdateValueIdempotent` | src/heronarts/lx/parameter/BooleanParameter.java:39-41 | applying `updateValue` twice gives the same result as once |
| `Parameter.BooleanParameter.IsOn` | src/heronarts/lx/parameter/BooleanParameter.java:29-31 | on exactly when the stored value is 1 |
| `Parameter.BooleanParameter.SetValue` | src/heronarts/lx/parameter/BooleanParameter.java:34 | the inherited `setValue` stores `updateValue` of its argument |
| `Parameter.BooleanParameter.SetOn` | src/heronarts/lx/parameter/BooleanParameter.java:33-36 | after `setOn(b)`, `isOn()` returns `b`, and the value is 1 or 0 accordingly |
| `Parameter.BooleanParameter.GetNormalized` | src/heronarts/lx/parameter/BooleanParameter.java:43-45 | the normalised value is 0 or 1, is 1 exactly when `isOn()`, and equals the stored value |
| `Parameter.BooleanParameter.SetNormalized` | src/heronarts/lx/parameter/BooleanParameter.java:51-54 | leaves the parameter on exactly when the normalised input is at least 0.5 |
| `Parameter.NormalizedRoundTrip` | src/heronarts/lx/parameter/BooleanParameter.java:43-54 | writing back what `getNormalized()` reads leaves the stored value unchanged |
| `Parameter.SetOnReadBack` | src/heronarts/lx/parameter/BooleanParameter.java:29-45 | starting from the opposite state, `setOn(b)` is read back as `b` by `isOn()` and as 1 or 0 by `getNormalized()` |

## Left out

- Listener dispatch (`onBeat`, `onHalf`, `onMeasure`). No dispatch code appears in the modelled files, so only the list's add and remove are modelled.
- The oscillator's arithmetic (the `Click` modulator). How it wraps its phase by the period is not part of this model. `Click.Loop` may fire or not at any phase, and `Tempo.Loop` is proved for every outcome.
- `LXComponent.loop`, `addParameter`, `addModulator(...).start()`. Their effect on the tempo is reduced to one oscillator frame per `loop`.
- The internals of `BasicParameter`, `MutableParameter` and the boolean parameter's superclasses. BPM storage is modelled as a clamp to the constructor's bounds. `setValue` of `BooleanParameter` is modelled as storing `updateValue(v)`. The period parameter is a plain field.
- `rampf`, `bpmf` and `getNormalizedf`. These are float narrowings only, and the model uses exact reals, not floating point.
- 64-bit overflow of the `long` tap times, and 32-bit overflow of `tapCount` and `beatCount`. These are unbounded integers here. Reaching 2^31 takes decades of uninterrupted running: about 17 years of beats at 240 BPM, about 14 years of taps at five per second. A wrapped Java `beatCount` would keep its residue modulo 4, because 2^32 is a multiple of 4, so `half` and `measure` would be unaffected.
- The fluent `return this` of `addListener`, `removeListener`, `setBpm`, `adjustBpm`, `setOn` and `setNormalized`. These methods return nothing in the model.
- Threading. Calls are single-threaded and sequential.
- `LXVector`. It is a plain data holder outside the tempo core.
