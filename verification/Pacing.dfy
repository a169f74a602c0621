/** producer_sleep: waiting out the radio's interval in slices of at most 100 ms so that a
    shutdown request is noticed soon. */
module Pacing {
  import opened Basics
  import opened Messages

  const SLICE_MS: nat := 100
  const NS_PER_MS: nat := 1_000_000

  class Clock {
    var nowNs: nat

    constructor ()
      ensures nowNs == 0
    {
      nowNs := 0;
    }

    method Nanosleep(sec: nat, nsec: nat)
      requires nsec < 1_000_000_000
      modifies this
      ensures nowNs == old(nowNs) + sec * 1_000_000_000 + nsec
    {
      nowNs := nowNs + sec * 1_000_000_000 + nsec;
    }
  }

  /** When the sleep ends, in ms from its start, if shutdown is requested `request` ms into it:
      at the first multiple of 100 ms that is not before the request, or when the time is up. */
  function WakesAt(totalMs: nat, request: Option<nat>): nat {
    if request.None? then totalMs
    else var noticed := (request.value + 99) / 100 * 100; if noticed < totalMs then noticed else totalMs
  }

  predicate Requested(request: Option<nat>, nowMs: nat) { request.Some? && request.value <= nowMs }

  /** Full length without a request; otherwise fewer than 100 ms after it, and never too long. */
  lemma WakesSoon(totalMs: nat, request: Option<nat>)
    ensures WakesAt(totalMs, request) <= totalMs
    ensures var at := WakesAt(totalMs, request);
            && (at == totalMs || (request.Some? && request.value <= at < request.value + 100 && at % 100 == 0))
            && (request.Some? && request.value + 100 <= totalMs ==> at < request.value + 100)
  {
  }

  method ProducerSleep(clock: Clock, totalMs: nat, request: Option<nat>)
    requires totalMs < UINT32
    modifies clock
    ensures clock.nowNs == old(clock.nowNs) + WakesAt(totalMs, request) * 1_000_000
  {
    var sleptMs := 0;
    while sleptMs < totalMs && !Requested(request, sleptMs)
      invariant 0 <= sleptMs <= WakesAt(totalMs, request)
      invariant sleptMs % SLICE_MS == 0 || sleptMs == totalMs
      invariant clock.nowNs == old(clock.nowNs) + sleptMs * NS_PER_MS
    {
      var sliceMs := if totalMs - sleptMs < SLICE_MS then totalMs - sleptMs else SLICE_MS;
      clock.Nanosleep(sliceMs / 1000, sliceMs % 1000 * NS_PER_MS);
      assert sleptMs + sliceMs < UINT32;
      sleptMs := sleptMs + sliceMs;
    }
  }
}
