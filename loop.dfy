/**
 * The throttled frame loop. The host's clock reading and `document.hidden` are
 * parameters; a requested animation frame is the ghost flag `pending`; every `emit`
 * is appended to `emitted` and every handler invocation to `delivered`.
 */
module Loop {
  import opened Wrappers
  import opened Config
  import opened Timing
  import opened Sampling
  import opened Listeners

  const TickEvent: string := "tick"
  const PerfEvent: string := "perf"

  /** One `emit(type, value)` call. */
  datatype Emission = Emission(channel: string, payload: real)

  class RafPerf {
    const options: Options

    var isVisible: bool
    var running: bool
    var prevTime: Option<real>
    var startTime: Option<real>
    var perfStartTime: Option<real>
    var frameDuration: real
    var performance: Option<real>
    var perfSamples: seq<real>
    var events: map<string, seq<HandlerId>>

    var emitted: seq<Emission>
    var delivered: seq<Call>

    /** An animation frame has been requested and not yet delivered or cancelled. */
    ghost var pending: bool
    /** Time at which the current run started. */
    ghost var origin: real
    /** The interval of every frame that fired since `origin`, in firing order. */
    ghost var ticks: seq<real>

    /**
     * The clock: while running, all three reference times are set, the reference
     * time sits on the grid of whole frame durations started at `origin` (drift
     * compensation), and the tick payloads telescope to the time between `origin`
     * and the last tick.
     */
    ghost predicate ClockValid()
      reads this`running, this`prevTime, this`startTime
      reads this`frameDuration, this`origin, this`ticks
    {
      options.fps > 0.0 &&
      frameDuration == FpsToMs(options.fps) &&
      (running ==> prevTime.Some? && startTime.Some?) &&
      (running ==> origin <= startTime.value &&
                   prevTime.value == GridFloor(origin, startTime.value, frameDuration)) &&
      (running ==> startTime.value == origin + Sum(ticks))
    }

    ghost predicate Valid()
      reads this`isVisible, this`running, this`prevTime, this`startTime, this`perfStartTime
      reads this`frameDuration, this`performance, this`perfSamples, this`events
      reads this`pending, this`origin, this`ticks
    {
      ClockValid() &&
      (running ==> perfStartTime.Some?) &&
      // one frame request is outstanding exactly while the loop drives itself
      (!running ==> !pending) &&
      (running && isVisible ==> pending) &&
      // the sampling window, whose samples add up to the time since it started
      SamplerValid() &&
      (!running ==> perfSamples == []) &&
      (running && options.performances.enabled ==>
         Sum(perfSamples) == startTime.value - perfStartTime.value) &&
      Subscribed()
    }

    /** Every channel's handlers form a set: no handler occurs twice. */
    ghost predicate Subscribed()
      reads this`events
    {
      forall t :: t in events ==> NoDup(events[t])
    }

    /**
     * The window never holds more than `samplesCount` samples between frames, only
     * ever holds positive durations, and stays empty while sampling is off; a
     * published ratio is positive.
     */
    ghost predicate SamplerValid()
      reads this`perfSamples, this`performance
    {
      (!options.performances.enabled ==> perfSamples == []) &&
      |perfSamples| <= options.performances.samplesCount &&
      AllPositive(perfSamples) &&
      (performance.Some? ==> performance.value > 0.0)
    }

    /** Handlers currently subscribed to `channel`, in subscription order. */
    function Handlers(channel: string): (hs: seq<HandlerId>)
      reads this`events
      ensures Subscribed() ==> NoDup(hs)
    {
      if channel in events then events[channel] else []
    }

    /** Merges `user` over the defaults, subscribes nobody and resets. */
    constructor (user: UserOptions)
      requires Resolve(user).fps > 0.0
      ensures Valid()
      ensures options == Resolve(user)
      ensures !running && isVisible && prevTime == None && startTime == None
      ensures perfStartTime == None && performance == None && perfSamples == []
      ensures frameDuration == FpsToMs(options.fps)
      ensures events == map[] && emitted == [] && delivered == [] && !pending
    {
      options := Resolve(user);
      events := map[];
      emitted, delivered := [], [];
      isVisible, running := true, false;
      prevTime, startTime, perfStartTime := None, None, None;
      frameDuration := FpsToMs(Resolve(user).fps);
      performance := None;
      perfSamples := [];
      pending := false;
      origin, ticks := 0.0, [];
    }

    /**
     * Back to the idle state: visible, not running, no timestamps, no ratio, an
     * empty window and no outstanding frame. The options, the sampling window's
     * start time and the subscriptions are left as they are.
     */
    method Reset()
      requires options.fps > 0.0 && Subscribed()
      modifies this`isVisible, this`running, this`prevTime, this`startTime, this`frameDuration
      modifies this`performance, this`perfSamples, this`pending
      ensures Valid()
      ensures !running && isVisible && prevTime == None && startTime == None
      ensures performance == None && perfSamples == [] && !pending
      ensures frameDuration == FpsToMs(options.fps)
      ensures perfStartTime == old(perfStartTime)
      ensures events == old(events) && emitted == old(emitted) && delivered == old(delivered)
    {
      isVisible := true;
      running := false;
      prevTime := None;
      startTime := None;
      frameDuration := FpsToMs(options.fps);
      performance := None;
      perfSamples := [];
      pending := false;
    }

    /**
     * Starts the loop at time `now`: a no-op when it already runs; otherwise all
     * three reference times become `now` and exactly one frame is requested.
     */
    method Start(now: real)
      requires Valid()
      modifies this`running, this`prevTime, this`startTime, this`perfStartTime, this`pending
      modifies this`origin, this`ticks
      ensures Valid()
      ensures old(running) ==>
        prevTime == old(prevTime) && startTime == old(startTime) &&
        perfStartTime == old(perfStartTime) && pending == old(pending)
      ensures !old(running) ==> !old(pending) && pending
      ensures !old(running) ==>
        running && prevTime == Some(now) && startTime == Some(now) && perfStartTime == Some(now)
      ensures running && isVisible == old(isVisible)
      ensures frameDuration == old(frameDuration) && performance == old(performance)
      ensures perfSamples == old(perfSamples)
      ensures events == old(events) && emitted == old(emitted) && delivered == old(delivered)
    {
      if running {
        return;
      }
      running := true;
      prevTime := Some(now);
      startTime := prevTime;
      perfStartTime := prevTime;
      pending := true;
      origin, ticks := now, [];
      GridFloorAtOrigin(now, frameDuration);
    }

    /**
     * Stops the loop: besides unregistering the visibility listener, which is not
     * part of this model, exactly `Reset`.
     */
    method Stop()
      requires Valid()
      modifies this`isVisible, this`running, this`prevTime, this`startTime, this`frameDuration
      modifies this`performance, this`perfSamples, this`pending
      ensures Valid()
      ensures !running && !pending && isVisible
      ensures prevTime == None && startTime == None && performance == None && perfSamples == []
      ensures frameDuration == FpsToMs(options.fps)
      ensures perfStartTime == old(perfStartTime)
      ensures events == old(events) && emitted == old(emitted) && delivered == old(delivered)
    {
      Reset();
    }

    /**
     * Subscribes `cb` to `channel`, creating the channel's set on first use; a
     * handler already subscribed stays where it is. Other channels are untouched.
     */
    method On(channel: string, cb: HandlerId)
      requires Valid()
      modifies this`events
      ensures Valid()
      ensures events == old(events)[channel := Add(old(Handlers(channel)), cb)]
    {
      events := events[channel := Add(Handlers(channel), cb)];
    }

    /**
     * The function `on` hands back: deletes `cb` from the set of `channel` when that
     * set exists, answering whether `cb` was in it, and `None` when it does not.
     */
    method Unsubscribe(channel: string, cb: HandlerId) returns (deleted: Option<bool>)
      requires Valid()
      modifies this`events
      ensures Valid()
      ensures deleted == (if channel in old(events) then Some(cb in old(events)[channel]) else None)
      ensures events == if channel in old(events)
                        then old(events)[channel := Remove(old(events)[channel], cb)]
                        else old(events)
    {
      if channel in events {
        deleted := Some(cb in events[channel]);
        events := events[channel := Remove(events[channel], cb)];
      } else {
        deleted := None;
      }
    }

    /**
     * Calls every handler of `channel` once, in subscription order, with `payload`.
     */
    method Emit(channel: string, payload: real)
      modifies this`emitted, this`delivered
      ensures emitted == old(emitted) + [Emission(channel, payload)]
      ensures delivered == old(delivered) + Deliveries(Handlers(channel), channel, payload)
    {
      emitted := emitted + [Emission(channel, payload)];
      var hs := Handlers(channel);
      var calls := delivered;
      var i := 0;
      while i < |hs|
        invariant 0 <= i <= |hs|
        invariant calls == old(delivered) + Deliveries(hs[..i], channel, payload)
      {
        assert hs[..i + 1][..i] == hs[..i];
        calls := calls + [Call(hs[i], channel, payload)];
        i := i + 1;
      }
      assert hs[..|hs|] == hs;
      delivered := calls;
    }

    /** The frame delivered at `now` passes the throttle. */
    ghost predicate Fires(now: real)
      reads this
    {
      running && isVisible && prevTime.Some? && startTime.Some? &&
      now - prevTime.value > frameDuration
    }

    /** A firing frame at `now` closes the sampling window. */
    ghost predicate Closes(now: real)
      reads this
    {
      Fires(now) && options.performances.enabled && perfStartTime.Some? &&
      WindowCloses(options.performances, now - perfStartTime.value, |perfSamples| + 1)
    }

    /**
     * The sampler's share of a firing frame at `time`: pushes the frame's delta
     * and, when the window closes, computes and publishes the ratio, then empties
     * the window and restarts it at `time`.
     */
    method RecordSample(time: real, frameDeltaTime: real)
      requires options.performances.enabled && SamplerValid()
      requires frameDuration > 0.0 && frameDeltaTime > 0.0 && perfStartTime.Some?
      modifies this`perfSamples, this`perfStartTime, this`performance, this`emitted, this`delivered
      ensures SamplerValid()
      ensures AllPositive(old(perfSamples) + [frameDeltaTime])
      ensures WindowCloses(options.performances, time - old(perfStartTime).value, |old(perfSamples)| + 1) ==>
        perfSamples == [] && perfStartTime == Some(time) &&
        performance == Some(Ratio(frameDuration, old(perfSamples) + [frameDeltaTime])) &&
        emitted == old(emitted) + [Emission(PerfEvent, performance.value)] &&
        delivered == old(delivered) + Deliveries(Handlers(PerfEvent), PerfEvent, performance.value)
      ensures !WindowCloses(options.performances, time - old(perfStartTime).value, |old(perfSamples)| + 1) ==>
        perfSamples == old(perfSamples) + [frameDeltaTime] && perfStartTime == old(perfStartTime) &&
        performance == old(performance) && emitted == old(emitted) && delivered == old(delivered)
    {
      var performances := options.performances;
      PushPositive(perfSamples, frameDeltaTime);
      perfSamples := perfSamples + [frameDeltaTime];
      var perfNeedsUpdates := WindowCloses(performances, time - perfStartTime.value, |perfSamples|);
      if perfNeedsUpdates {
        var ratio := Ratio(frameDuration, perfSamples);
        performance := Some(ratio);
        Emit(PerfEvent, ratio);
        perfSamples := [];
        perfStartTime := Some(time);
      }
    }

    /**
     * The clock's share of a firing frame at `now`, against the reference time
     * `prev0`, the interval start `start0` and the payloads `ticks0` before it: the
     * reference time advances by whole frame durations and the overshoot is carried
     * forward (drift compensation), the interval restarts at `now`, and the tick
     * payload is the time since the previous tick.
     */
    ghost predicate Advanced(prev0: real, start0: real, ticks0: seq<real>, now: real)
      reads this`prevTime, this`startTime, this`ticks, this`frameDuration, this`origin
    {
      frameDuration > 0.0 && origin <= now &&
      prevTime == Some(now - Remainder(now - prev0, frameDuration)) &&
      startTime == Some(now) &&
      now - frameDuration < prevTime.value <= now &&
      prevTime.value == GridFloor(origin, now, frameDuration) &&
      ticks == ticks0 + [now - start0]
    }

    /**
     * The sampler's and the emitter's share of a firing frame at `now` whose tick
     * carries `payload`, against the window `samples0` started at `perfStart0`, the
     * ratio `performance0` and the logs `emitted0` and `delivered0` before it.
     */
    ghost predicate Sampled(samples0: seq<real>, perfStart0: real, performance0: Option<real>,
                            emitted0: seq<Emission>, delivered0: seq<Call>, payload: real, now: real)
      reads this`perfSamples, this`perfStartTime, this`performance, this`emitted, this`delivered
      reads this`events, this`frameDuration
    {
      var window := samples0 + [payload];
      if !options.performances.enabled then
        // sampling off: the window stays empty and only the tick is published
        perfSamples == [] && perfStartTime == Some(perfStart0) && performance == performance0 &&
        emitted == emitted0 + [Emission(TickEvent, payload)] &&
        delivered == delivered0 + Deliveries(Handlers(TickEvent), TickEvent, payload)
      else if !WindowCloses(options.performances, now - perfStart0, |window|) then
        // the window stays open with one more sample; only the tick is published
        perfSamples == window && perfStartTime == Some(perfStart0) &&
        performance == performance0 &&
        emitted == emitted0 + [Emission(TickEvent, payload)] &&
        delivered == delivered0 + Deliveries(Handlers(TickEvent), TickEvent, payload)
      else
        // the window closes: the ratio over it is published first, then the tick,
        // and a new window starts empty at `now`
        frameDuration > 0.0 && AllPositive(window) &&
        Sum(window) == now - perfStart0 &&
        performance == Some(Ratio(frameDuration, window)) &&
        perfSamples == [] && perfStartTime == Some(now) &&
        emitted == emitted0 + [Emission(PerfEvent, performance.value), Emission(TickEvent, payload)] &&
        delivered == delivered0 + Deliveries(Handlers(PerfEvent), PerfEvent, performance.value)
                                + Deliveries(Handlers(TickEvent), TickEvent, payload)
    }

    /** What a firing frame at `now` leaves behind, against the state before it. */
    twostate predicate FiredAt(now: real)
      reads this
    {
      old(prevTime).Some? && old(startTime).Some? && old(perfStartTime).Some? &&
      old(now - prevTime.value > frameDuration) &&
      now - old(startTime).value > 0.0 &&
      Advanced(old(prevTime).value, old(startTime).value, old(ticks), now) &&
      Sampled(old(perfSamples), old(perfStartTime).value, old(performance),
              old(emitted), old(delivered), now - old(startTime).value, now)
    }

    /**
     * The animation-frame callback, delivered by the host at time `now`. While the
     * loop is stopped or hidden it does nothing and requests no further frame.
     * Otherwise a frame more than `frameDuration` after the reference time fires
     * (see `FiredAt`), and every such frame, firing or not, requests the next one.
     */
    method Tick(now: real)
      requires Valid()
      modifies this`prevTime, this`startTime, this`ticks, this`perfSamples, this`perfStartTime
      modifies this`performance, this`emitted, this`delivered, this`pending
      ensures Valid()
      ensures pending == (old(running) && old(isVisible))
      ensures running == old(running) && isVisible == old(isVisible)
      ensures frameDuration == old(frameDuration) && events == old(events) && origin == old(origin)
      // a frame that does not pass the throttle changes nothing else
      ensures !old(Fires(now)) ==>
        prevTime == old(prevTime) && startTime == old(startTime) &&
        perfStartTime == old(perfStartTime) && performance == old(performance) &&
        perfSamples == old(perfSamples) && ticks == old(ticks) &&
        emitted == old(emitted) && delivered == old(delivered)
      ensures old(Fires(now)) ==> FiredAt(now)
      // with duration-based closing off, a window closes at exactly samplesCount + 1 samples
      ensures old(Fires(now)) && options.performances.enabled && options.performances.sampleDuration == 0.0 ==>
        (old(Closes(now)) <==> |old(perfSamples)| == options.performances.samplesCount)
    {
      if !running || !isVisible {
        pending := false;
        return;
      }
      if now - prevTime.value > frameDuration {
        Fire(now);
      }
      pending := true;
    }

    /** The firing branch of the frame callback. */
    method Fire(now: real)
      requires Valid() && Fires(now)
      modifies this`prevTime, this`startTime, this`ticks, this`perfSamples, this`perfStartTime
      modifies this`performance, this`emitted, this`delivered
      ensures Valid()
      ensures Advanced(old(prevTime).value, old(startTime).value, old(ticks), now)
      ensures Sampled(old(perfSamples), old(perfStartTime).value, old(performance),
                      old(emitted), old(delivered), now - old(startTime).value, now)
    {
      var frameDeltaTime := now - startTime.value;
      assert frameDeltaTime > 0.0 by {
        assert prevTime.value > startTime.value - frameDuration;
      }
      Publish(now, frameDeltaTime);
      Advance(now);
    }

    /**
     * The clock update of a firing frame: the reference time drops the overshoot
     * past whole frame durations, the interval restarts at `now`.
     */
    method Advance(now: real)
      requires ClockValid() && running
      requires now - prevTime.value > frameDuration
      modifies this`prevTime, this`startTime, this`ticks
      ensures ClockValid() && startTime == Some(now)
      ensures Advanced(old(prevTime).value, old(startTime).value, old(ticks), now)
    {
      var deltaTime := now - prevTime.value;
      var frameDeltaTime := now - startTime.value;
      GridStep(origin, startTime.value, now, frameDuration);
      SumAppend(ticks, frameDeltaTime);
      prevTime, startTime, ticks :=
        Some(now - Remainder(deltaTime, frameDuration)), Some(now), ticks + [frameDeltaTime];
    }

    /**
     * The sampler update of a firing frame at `now` (see `RecordSample`) followed by
     * the tick carrying `payload`.
     */
    method Publish(now: real, payload: real)
      requires SamplerValid() && frameDuration > 0.0 && payload > 0.0 && perfStartTime.Some?
      requires options.performances.enabled ==> Sum(perfSamples) + payload == now - perfStartTime.value
      modifies this`perfSamples, this`perfStartTime, this`performance, this`emitted, this`delivered
      ensures SamplerValid() && perfStartTime.Some?
      ensures options.performances.enabled ==> Sum(perfSamples) == now - perfStartTime.value
      ensures Sampled(old(perfSamples), old(perfStartTime).value, old(performance),
                      old(emitted), old(delivered), payload, now)
    {
      if options.performances.enabled {
        SumAppend(perfSamples, payload);
        RecordSample(now, payload);
      }
      ghost var sampled, sampledCalls := emitted, delivered;
      Emit(TickEvent, payload);
      if sampled != old(emitted) {
        assert emitted == old(emitted) + [Emission(PerfEvent, performance.value), Emission(TickEvent, payload)];
      }
    }

    /**
     * The document's visibility changed; `hidden` is its new `document.hidden`.
     * Becoming hidden only records it, so the next frame stops the loop's frame
     * requests; becoming visible resets and starts the loop afresh at `now`.
     */
    method OnVisibilityChange(hidden: bool, now: real)
      requires Valid()
      modifies this`isVisible, this`running, this`prevTime, this`startTime, this`perfStartTime
      modifies this`frameDuration, this`performance, this`perfSamples, this`pending
      modifies this`origin, this`ticks
      ensures Valid()
      ensures isVisible == !hidden
      ensures hidden ==>
        running == old(running) && prevTime == old(prevTime) && startTime == old(startTime) &&
        perfStartTime == old(perfStartTime) && performance == old(performance) &&
        perfSamples == old(perfSamples) && pending == old(pending)
      ensures !hidden ==>
        running && pending &&
        prevTime == Some(now) && startTime == Some(now) && perfStartTime == Some(now) &&
        performance == None && perfSamples == []
      ensures events == old(events) && emitted == old(emitted) && delivered == old(delivered)
    {
      isVisible := !hidden;
      if isVisible {
        Reset();
        Start(now);
      }
    }
  }
}
