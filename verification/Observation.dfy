/** Uncertain server time: what a request envelope says about when its answer was
    read, and which market shocks may have been in force then. */
module Observation {
  import opened Options
  import opened Pence

  // Host and server times in nanoseconds.
  const SECOND := 1_000_000_000
  const STALENESS := 120 * SECOND

  /** When a request started and was answered, on the host's clock, and the server
      time its answer states, if it states one. */
  datatype Meta = Meta(attempted: Option<int>, updated: Option<int>, upstream: Option<int>, usable: bool)

  /** The clock answer: the server time it read and its own envelope. */
  datatype Clock = Clock(realUtc: Option<int>, meta: Meta)

  function ServerBounds(now: int, clock: Clock): Option<(int, int)> {
    if clock.realUtc.None? || clock.meta.attempted.None? || clock.meta.updated.None? || !clock.meta.usable then None
    else
      var attempted, updated := clock.meta.attempted.value, clock.meta.updated.value;
      if attempted > updated || updated > now || now - updated > STALENESS then None
      else Some((clock.realUtc.value + (now - updated), clock.realUtc.value + (now - attempted)))
  }

  function ObservationBounds(now: int, clock: Clock, meta: Meta): Option<(int, int)> {
    var bounds := ServerBounds(now, clock);
    if bounds.None? || meta.updated.None? || meta.updated.value > now then None
    else
      var (lower, upper) := bounds.value;
      if meta.upstream.Some? then
        if meta.upstream.value > upper then None else Some((meta.upstream.value, meta.upstream.value))
      else
        var updated := meta.updated.value;
        var attempted := if meta.attempted.Some? then meta.attempted.value else updated;
        if attempted > updated then None
        else Some((lower + (attempted - now), upper + (updated - now)))
  }

  /** The server's clock runs at `offset` from the host's; the clock was read at some
      host time inside its envelope. */
  ghost predicate ClockTrue(clock: Clock, offset: int) {
    clock.realUtc.Some? && clock.meta.attempted.Some? && clock.meta.updated.Some? ==>
      clock.meta.attempted.value <= clock.realUtc.value - offset <= clock.meta.updated.value
  }

  /** An answer read at server time `at`: where it says so, or somewhere inside its
      own envelope. */
  ghost predicate ReadTrue(meta: Meta, offset: int, at: int) {
    if meta.upstream.Some? then at == meta.upstream.value
    else
      meta.updated.Some? ==>
        (if meta.attempted.Some? then meta.attempted.value else meta.updated.value) <= at - offset <= meta.updated.value
  }

  /** True server time lies within the clock's bounds, and they are as tight as the
      envelope: each end is true for some reading inside it. */
  lemma ServerBoundsExact(now: int, clock: Clock, time: int)
    requires ServerBounds(now, clock).Some?
    ensures var (lower, upper) := ServerBounds(now, clock).value;
            lower <= time <= upper <==> ClockTrue(clock, time - now)
  {
  }

  lemma ObservationSound(now: int, clock: Clock, meta: Meta, offset: int, at: int)
    requires ClockTrue(clock, offset) && ReadTrue(meta, offset, at)
    requires ObservationBounds(now, clock, meta).Some?
    ensures var (from, to) := ObservationBounds(now, clock, meta).value; from <= at <= to
  {
    ServerBoundsExact(now, clock, now + offset);
  }

  // ---------------------------------------------------------------- shocks

  datatype Event = Event(
    id: string, kind: string, port: string, commodity: string, startsAt: Option<int>, expiresAt: int,
    structural: bool)

  datatype Shock = Shock(port: string, commodity: string, startsAt: int, expiresAt: int)

  predicate ValidEvent(event: Event) {
    event.id != "" && event.kind != "" && event.startsAt.Some? && event.startsAt.value < event.expiresAt
  }

  predicate Temporary(event: Event) { !event.structural && event.port != "" && event.commodity != "" }

  function ShockOf(event: Event): Shock
    requires ValidEvent(event)
  {
    Shock(event.port, event.commodity, event.startsAt.value, event.expiresAt)
  }

  predicate Malformed(events: seq<Event>) { exists event <- events :: !ValidEvent(event) }

  /** The temporary, located shocks, or nothing when any event is malformed. */
  function Shocks(events: seq<Event>): Option<seq<Shock>> {
    if events == [] then Some([])
    else
      var front, last := Shocks(events[..|events| - 1]), events[|events| - 1];
      if front.None? || !ValidEvent(last) then None
      else if !Temporary(last) then front
      else Some(front.value + [ShockOf(last)])
  }

  /** One malformed event hides all the others; without one, the temporary located events
      are known, and no others. */
  lemma {:induction false} ShocksExactly(events: seq<Event>)
    ensures Shocks(events).None? <==> Malformed(events)
    ensures Shocks(events).Some? ==>
              && (forall event <- events | Temporary(event) ::
                    ValidEvent(event) && ShockOf(event) in Shocks(events).value)
              && forall shock <- Shocks(events).value ::
                   exists event <- events :: Temporary(event) && ValidEvent(event) && ShockOf(event) == shock
    decreases |events|
  {
    if events != [] {
      var front, last := events[..|events| - 1], events[|events| - 1];
      ShocksExactly(front);
      assert events == front + [last];
    }
  }

  method DecodeMarketShocks(events: seq<Event>) returns (shocks: Option<seq<Shock>>)
    ensures shocks == Shocks(events)
  {
    var found: seq<Shock> := [];
    for i := 0 to |events|
      invariant Shocks(events[..i]) == Some(found)
    {
      assert events[..i + 1][..i] == events[..i];
      var event := events[i];
      if event.id == "" || event.kind == "" || event.startsAt.None? || event.expiresAt <= event.startsAt.value {
        MalformedStays(events, i);
        return None;
      }
      if event.structural || event.port == "" || event.commodity == "" {
        continue;
      }
      found := found + [Shock(event.port, event.commodity, event.startsAt.value, event.expiresAt)];
    }
    assert events[..|events|] == events;
    shocks := Some(found);
  }

  lemma {:induction false} MalformedStays(events: seq<Event>, i: nat)
    requires i < |events| && !ValidEvent(events[i])
    ensures Shocks(events) == None
    decreases |events|
  {
    if i < |events| - 1 {
      MalformedStays(events[..|events| - 1], i);
    }
  }

  predicate InForce(shock: Shock, port: string, commodity: string, at: int) {
    shock.port == port && shock.commodity == commodity && shock.startsAt <= at < shock.expiresAt
  }

  /** An event on record says that a temporary shock is in force. */
  predicate Strikes(event: Event, port: string, commodity: string, at: int) {
    ValidEvent(event) && Temporary(event) && InForce(ShockOf(event), port, commodity, at)
  }

  predicate Struck(events: seq<Event>, port: string, commodity: string, at: int) {
    exists event <- events :: Strikes(event, port, commodity, at)
  }

  predicate Overlaps(shock: Shock, port: string, commodity: string, from: int, to: int) {
    shock.port == port && shock.commodity == commodity && shock.startsAt <= to && from < shock.expiresAt
  }

  /** The first shock that may have been in force within the interval. */
  function Overlapping(shocks: seq<Shock>, port: string, commodity: string, from: Option<int>, to: int):
      (found: Option<Shock>)
    ensures found.Some? ==>
              from.Some? && found.value in shocks && Overlaps(found.value, port, commodity, from.value, to)
  {
    if from.None? || to < from.value || shocks == [] then None
    else if Overlaps(shocks[0], port, commodity, from.value, to) then Some(shocks[0])
    else Overlapping(shocks[1..], port, commodity, from, to)
  }

  /** Without an overlap, no shock was in force at any time within the interval. */
  lemma {:induction false} NoShockWithin(shocks: seq<Shock>, port: string, commodity: string, from: int, to: int,
        at: int, i: nat)
    requires Overlapping(shocks, port, commodity, Some(from), to).None? && from <= at <= to && i < |shocks|
    ensures !InForce(shocks[i], port, commodity, at)
    decreases |shocks|
  {
    if i > 0 {
      NoShockWithin(shocks[1..], port, commodity, from, to, at, i - 1);
    }
  }

  method MarketShockOverlapping(shocks: seq<Shock>, port: string, commodity: string, from: Option<int>, to: int)
      returns (found: Option<Shock>)
    ensures found == Overlapping(shocks, port, commodity, from, to)
  {
    if from.None? || to < from.value {
      return None;
    }
    for i := 0 to |shocks|
      invariant Overlapping(shocks, port, commodity, from, to) == Overlapping(shocks[i..], port, commodity, from, to)
    {
      assert shocks[i..][1..] == shocks[i + 1..];
      if shocks[i].port == port && shocks[i].commodity == commodity && to >= shocks[i].startsAt
         && from.value < shocks[i].expiresAt {
        return Some(shocks[i]);
      }
    }
    found := None;
  }

  /** A book read while a known shock was in force is seen to overlap it. */
  lemma ShockedReadIsSeen(now: int, clock: Clock, meta: Meta, offset: int, at: int, shocks: seq<Shock>, i: nat,
        port: string, commodity: string)
    requires ClockTrue(clock, offset) && ReadTrue(meta, offset, at) && ObservationBounds(now, clock, meta).Some?
    requires i < |shocks| && InForce(shocks[i], port, commodity, at)
    ensures var (from, to) := ObservationBounds(now, clock, meta).value;
            Overlapping(shocks, port, commodity, Some(from), to).Some?
  {
    ObservationSound(now, clock, meta, offset, at);
    var (from, to) := ObservationBounds(now, clock, meta).value;
    if Overlapping(shocks, port, commodity, Some(from), to).None? {
      NoShockWithin(shocks, port, commodity, from, to, at, i);
    }
  }
}
