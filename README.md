# raf-perf, modelled in Dafny

`RafPerf` turns the host's once-per-refresh animation-frame callback into `"tick"`
events throttled to `options.fps`. When a frame fires it carries the overshoot past
whole frame durations forward (`deltaTime % frameDuration`), so the tick rate does not
drift. While sampling is enabled it collects the tick deltas in a window. When that
window closes it publishes a `"perf"` ratio, `frameDuration / average(samples)`. Hiding
the page freezes the loop; showing it again resets the loop and restarts it. Consumers
subscribe with `on(type, cb)` and unsubscribe through the function `on` returns.

The model has six modules:

- `Wrappers`: the `Option` type (`null`/`undefined` as `None`).
- `Config`: the options record, its defaults and the shallow `Object.assign` merge of the constructor.
- `Timing`: `fpsToMs`; JavaScript's `%` over reals (`Remainder`); the grid of frame
  boundaries on which drift compensation keeps the reference time (`GridFloor`, `GridStep`).
- `Sampling`: the sum, average and ratio over a sampling window, and the window-closing condition.
- `Listeners`: a channel's handlers as an insertion-ordered set without duplicates
  (`Set.add`, `Set.delete`), and the calls `forEach` makes.
- `Loop`: the class `RafPerf`. Its fields are the source's instance fields:
  `isVisible`, `running`, `prevTime`, `startTime`, `perfStartTime`, `frameDuration`,
  `performance`, `perfSamples` and `events`.
  - Two logs record what the loop publishes: `emitted` holds every `emit` call and
    `delivered` every handler invocation.
  - The ghost flag `pending` stands for the outstanding `requestAnimationFrame` request (`requestID`).
  - The ghost `origin` is the start time of the current run. The ghost `ticks` holds
    the interval `now - startTime` of every frame that fired since then. `Advanced`
    appends that interval to `ticks`; `Sampled` publishes the same value as the
    frame's `"tick"` payload. No invariant ties `ticks` to the `"tick"` entries of
    `emitted`, which also hold the emissions of earlier runs.
  - With these, `Valid()` states two things. The reference time never drifts off the
    grid `origin + k * frameDuration`. The intervals in `ticks` add up to the time
    between `origin` and the last firing frame.

The class invariant `Valid()` has four parts:
- `ClockValid()`: frame duration, grid, telescoping payloads.
- The sampler:
  - `SamplerValid()`: the window holds positive samples, never more than `samplesCount`
    between frames, and is empty while sampling is off.
  - The window is empty while the loop is stopped.
  - While running with sampling on, the samples add up to `startTime - perfStartTime`:
    the time from the window's start to the last firing frame. `Sampled` relies on this
    to state that a closing window covers `now - perfStartTime`.
- The frame-request discipline (`pending`).
- `Subscribed()`: no handler is subscribed twice to a channel.

Every public method preserves `Valid()`; the helpers `Advance`, `Publish` and `RecordSample` state the parts they keep. `Reset` only needs the options and the subscriptions to be sound.

What a firing frame does is stated by two predicates:
- `Advanced`: the clock's share (drift update, interval restart, tick payload).
- `Sampled`: the sampler's and the emitter's share, in three cases:
  - sampling off;
  - window stays open;
  - window closes, in which case the ratio is published before the tick.

`Tick` ensures both predicates for every frame that passes the strict gate
`now - prevTime > frameDuration`. For any other frame it ensures that nothing but the
frame request changes.

Two behaviours of the code that are easy to miss:
- `reset()` leaves `perfStartTime` as it is (index.js:61-73); only `start()` and a
  closing window set it.
- The constructor performs no validation of `fps` (index.js:38-51); see "Left out".

## Model

| member | source | states |
|---|---|---|
| Timing.FpsToMs | index.js:28-30 | the frame duration is positive and frame duration times fps is exactly 1000 ms |
| Timing.Remainder | index.js:153 | `%` takes the sign of the dividend, is smaller than the divisor in magnitude, and differs from the dividend by a whole number of periods (truncating division) |
| Timing.RemainderUnique | index.js:153 | for a non-negative dividend, the remainder is the one value in `[0, f)` that differs from the dividend by whole periods, and the quotient is the number of those periods |
| Timing.GridFloor | index.js:151-154 | the grid point for `t` lies within one frame duration at or before `t`, and not before the origin |
| Timing.GridFloorAtOrigin | index.js:84-86 | the reference time set by `start` is the grid point of its own start |
| Timing.GridStep | index.js:151-154 | drift update: from the grid point of the previous interval, `now - (now - prevTime) % frameDuration` is exactly the grid point for `now`, so overshoot never accumulates |
| Config.Resolve | index.js:38-51 | each top-level option the caller gives replaces the default wholesale; each absent one takes the default (60 fps; sampling on, 200 samples, 4000 ms) |
| Sampling.Sum | index.js:133 | the `reduce` sum, added left to right; `SumAppend` states that pushing a sample adds exactly that sample |
| Sampling.SumAppend | index.js:122-133 | pushing a sample adds exactly that sample to the sum |
| Sampling.Average | index.js:132-134 | the mean times the number of samples is the sum |
| Sampling.WindowCloses | index.js:125-128 | the window-closing rule evaluated after the push: a truthy `sampleDuration` exceeded, or more than `samplesCount` samples; `CountOnlyWindow` states its count boundary |
| Sampling.AveragePositive | index.js:132-134 | the average of a non-empty window of positive deltas is positive, so the ratio's division is defined |
| Sampling.SumPositive | index.js:133 | the `reduce` sum of a non-empty window of positive deltas is positive |
| Sampling.Ratio | index.js:132-135 | the ratio is positive and ratio times average delta equals the frame duration |
| Sampling.SteadyRatio | index.js:132-135 | a window whose every delta equals the frame duration yields ratio exactly 1 |
| Sampling.RatioIsRate | index.js:132-135 | ratio times the window's total time equals frame duration times the sample count |
| Sampling.RatioMeaning | index.js:132-138 | ratio above 1 iff frames came faster than the target on average, below 1 iff slower |
| Sampling.CountOnlyWindow | index.js:125-128 | with `sampleDuration` falsy, the window closes exactly when it reaches `samplesCount + 1` samples |
| Sampling.PushPositive | index.js:122 | pushing a positive delta keeps every sample positive |
| Listeners.Add | index.js:188-189 | `Set.add`: the result holds exactly the old handlers and `cb`; old handlers keep their order; no duplicates arise |
| Listeners.AddIdempotent | index.js:189 | subscribing the same handler twice is the same as once |
| Listeners.Remove | index.js:190 | `Set.delete`: the result holds exactly the old handlers other than `cb`; no duplicates arise; deleting an absent handler changes nothing |
| Listeners.RemoveKeepsOrder | index.js:190 | over a set holding `cb`, deleting it takes out its one occurrence and leaves every other handler in insertion order |
| Listeners.RemoveIdempotent | index.js:190 | calling the unsubscribe function twice is the same as once |
| Listeners.RemoveAfterAdd | index.js:187-190 | unsubscribing a newly added handler restores the previous handler list |
| Listeners.Deliveries | index.js:193-195 | `forEach` calls every handler once, in insertion order, with the emitted type and payload |
| Listeners.DeliveredOnce | index.js:193-195 | over a duplicate-free set no handler is called twice by one `emit` |
| Loop.RafPerf.constructor | index.js:38-59 | merged options, no subscriptions, the reset state, no frame requested |
| Loop.RafPerf.Reset | index.js:61-73 | visible, stopped, no timestamps, no ratio, empty window, the frame request cancelled, frame duration recomputed from the unchanged options; `perfStartTime` and the subscriptions untouched |
| Loop.RafPerf.Start | index.js:78-97 | a no-op while running; otherwise running, all three reference times equal to `now`, and exactly one frame requested |
| Loop.RafPerf.Handlers | index.js:194 | the handlers of a channel, none when the channel has no set (`this.events[type]?.`); while the subscriptions are sound, no handler occurs twice |
| Loop.RafPerf.Emit | index.js:193-195 | one entry appended to the emission log, and the handlers of that type alone called in order |
| Loop.RafPerf.Tick | index.js:105-166 | stopped or hidden: nothing changes and no frame is requested. Otherwise the next frame is always requested. A frame at or below one frame duration past `prevTime` changes nothing else. A firing frame satisfies `Advanced` and `Sampled`. With count-only closing, the window closes iff it held `samplesCount` samples before |
| Loop.RafPerf.Fire | index.js:119-163 | a firing frame preserves the invariant and satisfies `Advanced` (drift update, interval restart, payload `now - startTime`) and `Sampled` |
| Loop.RafPerf.Advance | index.js:151-154 | `prevTime` becomes `now - deltaTime % frameDuration` and lies in `(now - frameDuration, now]` on the grid; `startTime` becomes `now`; the payload is appended to the tick history |
| Loop.RafPerf.RecordSample | index.js:120-148 | one sample pushed. If the window closes: ratio over the window published on `"perf"`, window emptied, restarted at `now`. Otherwise the window keeps the new sample and nothing is published |
| Loop.RafPerf.Publish | index.js:120-162 | `Sampled`: sampling off leaves the window empty and publishes only the tick; an open window grows by one sample; a closing window publishes the ratio before the tick |
| Loop.RafPerf.Stop | index.js:171-179 | the same end state as `Reset` |
| Loop.RafPerf.On | index.js:187-189 | the subscription map changes only at `channel`, whose set is created on first use and gains `cb`; no other channel appears, disappears or changes |
| Loop.RafPerf.Unsubscribe | index.js:190 | deletes `cb` from the channel's set when it exists, answering whether it was there; when the set does not exist the map is unchanged and the answer is `None`; no other channel appears, disappears or changes |
| Loop.RafPerf.OnVisibilityChange | index.js:197-204 | hidden: only `isVisible` changes. Visible: reset, then started afresh at `now` (running, fresh timestamps, empty window, no ratio, one frame requested) |

## Left out

- The clock (`RafPerf.now`, index.js:24-26) is the `now` parameter of `Start`, `Tick` and `OnVisibilityChange`, and `document.hidden` is the `hidden` parameter.
- `requestAnimationFrame` and `cancelAnimationFrame` are the ghost flag `pending`. `Tick` models the host delivering the requested frame, so that request is spent.
- Registering and unregistering the visibility listener with the document (index.js:89-93, 172-176) is not modelled. Neither is the binding of `tick` and `onVisibilityChange` (index.js:57-58).
- Loop.RafPerf.OnVisibilityChange: can be called in any state. In the source the document calls it only while the listener is registered, that is from the first `start()` until `stop()`. After `stop()` a visibility change does nothing there, whereas the model's `OnVisibilityChange` would reset and restart the loop.
- Handlers are identities. The model logs their invocations; it does not run closures. So their exceptions, which would abort `emit` and the rest of `tick`, are not modelled. Neither are handlers that call back into the instance during `emit`.
- `emit(type, ...args)` carries one real payload, the only arity the class uses.
- Loop.RafPerf.On, Loop.RafPerf.Emit, Loop.RafPerf.Unsubscribe: `this.events` is a plain object (index.js:53), so a type named after an inherited property (`"constructor"`, `"toString"`, `"__proto__"`, …) finds a truthy non-`Set` value. For such a type, `on` skips the `||=` and throws a `TypeError` at `.add` (index.js:188-189). `emit` throws at `.forEach` (index.js:194). Since `on` throws before its `return` (index.js:190), the source never hands out an unsubscribe function for such a type; the model's `Unsubscribe` accepts it. The model's map has no inherited entries, so it subscribes, emits and deletes for those names as for any other.
- Loop.RafPerf.Fire: the tick is published before `prevTime` and `startTime` are updated, not after. Handlers cannot read the instance in this model, so the end state and the logs are the same.
- Loop.RafPerf.Unsubscribe: the closure `on` returns is a method taking the same type and handler, not a first-class function value.
- Times and durations are exact reals: no floating-point rounding, no `NaN` and no `Infinity`.
- Loop.RafPerf.constructor: requires a positive `fps`, a precondition the model adds (as does `Timing.FpsToMs`); the source accepts any number. With `fps` of `0` the frame duration is infinite and no frame ever fires. With a negative `fps` the frame duration is negative, so every frame fires (index.js:119) and every published ratio is negative (index.js:135). Neither case is modelled.
- `samplesCount` is a natural number and a falsy `sampleDuration` is `0`. Negative or fractional counts and a `NaN` duration are not modelled.
- A caller-given `performances` object replaces the default one wholesale, as in the source. The model's record is always complete, so a partial object whose missing fields would read as `undefined` is not represented.
- index.d.ts, demo.js and web_modules/es-module-shims/wasm.js are not part of this model.
