/** Sealed freight: the order of the outstanding stops, and the check that a ship
    leaving now still meets every acceptance deadline. */
module Freight {
  import opened Options
  import opened Pence
  import opened Ordering

  const SECOND := 1_000_000_000

  /** Ports stand for their identities' places in string order. */
  datatype Obligation = Obligation(contract: string, destination: nat, deadline: Option<int>, settled: bool)

  predicate Earlier(left: Obligation, right: Obligation) {
    if left.deadline.None? && right.deadline.Some? then true
    else if right.deadline.None? && left.deadline.Some? then false
    else if left.deadline.Some? && left.deadline.value != right.deadline.value then
      left.deadline.value < right.deadline.value
    else left.destination < right.destination
  }

  // The library's stable sort by `Earlier`: nothing moves before what it does not precede.
  function NotAfter(left: Obligation, right: Obligation): bool { !Earlier(right, left) }

  lemma NotAfterTotal()
    ensures TotalPreorder(NotAfter)
  {
  }

  function Pending(obligations: seq<Obligation>): seq<Obligation> {
    if obligations == [] then []
    else
      var last := obligations[|obligations| - 1];
      Pending(obligations[..|obligations| - 1]) + if last.settled then [] else [last]
  }

  function Destinations(stops: seq<Obligation>): set<nat> { set stop <- stops :: stop.destination }

  /** The first of each destination. */
  function Firsts(pending: seq<Obligation>): seq<Obligation> {
    if pending == [] then []
    else
      var last, front := pending[|pending| - 1], Firsts(pending[..|pending| - 1]);
      if last.destination in Destinations(front) then front else front + [last]
  }

  function Stops(obligations: seq<Obligation>): seq<Obligation> { Firsts(StableSort(Pending(obligations), NotAfter)) }

  method Outstanding(obligations: seq<Obligation>) returns (pending: seq<Obligation>)
    ensures pending == Pending(obligations)
  {
    pending := [];
    for i := 0 to |obligations|
      invariant pending == Pending(obligations[..i])
    {
      assert obligations[..i + 1][..i] == obligations[..i];
      if !obligations[i].settled {
        pending := pending + [obligations[i]];
      }
    }
    assert obligations[..|obligations|] == obligations;
  }

  method FreightStops(obligations: seq<Obligation>) returns (stops: seq<Obligation>)
    ensures stops == Stops(obligations)
  {
    var pending := Outstanding(obligations);
    pending := StableSort(pending, NotAfter);
    var seen: set<nat> := {};
    stops := [];
    for i := 0 to |pending|
      invariant stops == Firsts(pending[..i]) && seen == Destinations(stops)
    {
      assert pending[..i + 1][..i] == pending[..i];
      if pending[i].destination !in seen {
        seen := seen + {pending[i].destination};
        stops := stops + [pending[i]];
      }
    }
    assert pending[..|pending|] == pending;
  }

  // --------------------------------------------------------------- what they are

  /** A deadline at least as tight; an unknown one blocks everything. */
  predicate AtLeastAsTight(left: Option<int>, right: Option<int>) {
    left.Some? ==> right.Some? && left.value <= right.value
  }

  lemma {:induction false} PendingIs(obligations: seq<Obligation>)
    ensures forall o :: o in Pending(obligations) <==> o in obligations && !o.settled
    decreases |obligations|
  {
    if obligations != [] {
      PendingIs(obligations[..|obligations| - 1]);
    }
  }

  lemma SortedPending(obligations: seq<Obligation>)
    ensures var s := StableSort(Pending(obligations), NotAfter);
            && (forall o :: o in s <==> o in obligations && !o.settled)
            && (forall i, j :: 0 <= i < j < |s| ==> AtLeastAsTight(s[i].deadline, s[j].deadline))
  {
    var p, s := Pending(obligations), StableSort(Pending(obligations), NotAfter);
    NotAfterTotal();
    SortSorted(p, NotAfter);
    SortPermutes(p, NotAfter);
    PendingIs(obligations);
    forall o ensures o in s <==> o in obligations && !o.settled {
      assert o in multiset(s) <==> o in multiset(p);
    }
    forall i, j | 0 <= i < j < |s| ensures AtLeastAsTight(s[i].deadline, s[j].deadline) {
      assert NotAfter(s[i], s[j]);
    }
  }

  lemma {:induction false} FirstsMember(s: seq<Obligation>)
    ensures forall stop <- Firsts(s) :: stop in s
    decreases |s|
  {
    if s != [] {
      FirstsMember(s[..|s| - 1]);
    }
  }

  predicate Tightening(s: seq<Obligation>) {
    forall i, j :: 0 <= i < j < |s| ==> AtLeastAsTight(s[i].deadline, s[j].deadline)
  }

  predicate DistinctStops(stops: seq<Obligation>) {
    forall i, j :: 0 <= i < j < |stops| ==> stops[i].destination != stops[j].destination
  }

  lemma {:induction false} FirstsDistinct(s: seq<Obligation>)
    requires Tightening(s)
    ensures DistinctStops(Firsts(s)) && Tightening(Firsts(s))
    decreases |s|
  {
    if s != [] {
      var front, last := s[..|s| - 1], s[|s| - 1];
      var firsts := Firsts(front);
      FirstsDistinct(front);
      FirstsMember(front);
      forall i | 0 <= i < |firsts| ensures AtLeastAsTight(firsts[i].deadline, last.deadline) {
        assert firsts[i] in front;
      }
      forall i | 0 <= i < |firsts| && last.destination !in Destinations(firsts)
        ensures firsts[i].destination != last.destination
      {
        assert firsts[i] in firsts;
      }
    }
  }

  predicate CoveredBy(stops: seq<Obligation>, o: Obligation) {
    exists stop <- stops :: stop.destination == o.destination && AtLeastAsTight(stop.deadline, o.deadline)
  }

  lemma {:induction false} FirstsCover(s: seq<Obligation>, j: nat)
    requires Tightening(s) && j < |s|
    ensures CoveredBy(Firsts(s), s[j])
    decreases |s|
  {
    var front, last := s[..|s| - 1], s[|s| - 1];
    if j < |front| {
      FirstsCover(front, j);
      var stop :| stop in Firsts(front) && stop.destination == s[j].destination
          && AtLeastAsTight(stop.deadline, s[j].deadline);
      assert stop in Firsts(s);
    } else if last.destination in Destinations(Firsts(front)) {
      var stop :| stop in Firsts(front) && stop.destination == last.destination;
      FirstsMember(front);
      assert stop in front;
    } else {
      assert last in Firsts(s);
    }
  }

  /** Each outstanding destination once, at its earliest deadline, tightest first. */
  lemma StopsExact(obligations: seq<Obligation>)
    ensures var stops := Stops(obligations);
            && (forall stop <- stops :: stop in obligations && !stop.settled)
            && DistinctStops(stops) && Tightening(stops)
            && (forall o <- obligations :: !o.settled ==> CoveredBy(stops, o))
  {
    var s := StableSort(Pending(obligations), NotAfter);
    SortedPending(obligations);
    FirstsMember(s);
    FirstsDistinct(s);
    forall o | o in obligations && !o.settled ensures CoveredBy(Firsts(s), o) {
      var j :| 0 <= j < |s| && s[j] == o;
      FirstsCover(s, j);
    }
  }

  // --------------------------------------------------------------- the itinerary

  function IndexOf(stops: seq<Obligation>, destination: nat): (i: nat)
    ensures i <= |stops|
    ensures i < |stops| ==> stops[i].destination == destination
    ensures forall k :: 0 <= k < i ==> stops[k].destination != destination
  {
    if stops == [] || stops[0].destination == destination then 0 else 1 + IndexOf(stops[1..], destination)
  }

  /** The stop at the destination first, the others in their order. */
  function Rotated(stops: seq<Obligation>, destination: nat): seq<Obligation> {
    var i := IndexOf(stops, destination);
    if i == |stops| then stops else [stops[i]] + stops[..i] + stops[i + 1..]
  }

  lemma RotatedPermutes(stops: seq<Obligation>, destination: nat)
    ensures multiset(Rotated(stops, destination)) == multiset(stops) && |Rotated(stops, destination)| == |stops|
  {
    var i := IndexOf(stops, destination);
    if i < |stops| {
      assert stops == stops[..i] + [stops[i]] + stops[i + 1..];
    }
  }

  /** `usable` stands for a fresh route that the hull may sail. */
  datatype Route = Route(distance: int, usable: bool)

  /** The hull's speed and the game's time scale are positive. */
  datatype Voyage = Voyage(routes: map<(nat, nat), Route>, centiknots: int, scale: int, upper: int)

  predicate Sane(v: Voyage) { 0 < v.centiknots && 0 < v.scale }

  predicate Sailable(v: Voyage, from: nat, to: nat) {
    from == to || ((from, to) in v.routes && v.routes[(from, to)].usable && 0 < v.routes[(from, to)].distance)
  }

  function LegDays(v: Voyage, from: nat, to: nat): real
    requires Sane(v) && Sailable(v, from, to)
  {
    if from == to then 0.0
    else
      var knots := v.centiknots as real / 100.0 * 0.8;
      v.routes[(from, to)].distance as real / knots / 24.0
  }

  function Ceil(x: real): int { -((-x).Floor) }

  lemma CeilAbove(x: real)
    ensures Ceil(x) as real - 1.0 < x <= Ceil(x) as real
  {
  }

  function Previous(start: nat, stops: seq<Obligation>, k: nat): nat
    requires k < |stops|
  {
    if k == 0 then start else stops[k - 1].destination
  }

  predicate LegsSailable(v: Voyage, start: nat, stops: seq<Obligation>, k: nat)
    requires k <= |stops|
  {
    forall i :: 0 <= i < k ==> Sailable(v, Previous(start, stops, i), stops[i].destination)
  }

  /** Game days from departure to stop k: the legs, and half a day at each earlier stop. */
  function DaysTo(v: Voyage, start: nat, initial: real, stops: seq<Obligation>, k: nat): real
    requires Sane(v) && k < |stops| && LegsSailable(v, start, stops, k + 1)
  {
    assert Sailable(v, Previous(start, stops, k), stops[k].destination);
    (if k == 0 then initial else DaysTo(v, start, initial, stops, k - 1) + 0.5)
    + LegDays(v, Previous(start, stops, k), stops[k].destination)
  }

  /** The arrival the check allows for: a game day late, rounded up to a second, and
      counted from the latest possible server time. */
  function Arrival(v: Voyage, days: real): int
    requires Sane(v)
  {
    v.upper + Ceil((days + 1.0) * 86_400.0 / v.scale as real) * SECOND
  }

  ghost predicate OnTime(v: Voyage, start: nat, initial: real, stops: seq<Obligation>, k: nat)
    requires Sane(v) && k < |stops| && LegsSailable(v, start, stops, k + 1)
  {
    stops[k].deadline.Some? && Arrival(v, DaysTo(v, start, initial, stops, k)) < stops[k].deadline.value
  }

  ghost predicate OnTimeTo(v: Voyage, start: nat, initial: real, stops: seq<Obligation>, n: nat)
    requires Sane(v) && n <= |stops|
  {
    LegsSailable(v, start, stops, n) && forall k :: 0 <= k < n ==> OnTime(v, start, initial, stops, k)
  }

  ghost predicate Feasible(v: Voyage, start: nat, initial: real, stops: seq<Obligation>)
    requires Sane(v)
  {
    OnTimeTo(v, start, initial, stops, |stops|)
  }

  lemma OnTimeEarlier(v: Voyage, start: nat, initial: real, stops: seq<Obligation>, n: nat)
    requires Sane(v) && n <= |stops| && !OnTimeTo(v, start, initial, stops, n)
    ensures !Feasible(v, start, initial, stops)
  {
  }

  datatype Verdict = Pass | NoRoute | UnknownDeadline(contract: string) | Late(contract: string)

  /** Brings the destination's stop to the front, in place. */
  method Rotate(stops: array<Obligation>, destination: nat) returns (found: bool)
    modifies stops
    ensures stops[..] == Rotated(old(stops[..]), destination)
    ensures found <==> IndexOf(old(stops[..]), destination) < stops.Length
  {
    ghost var was := stops[..];
    for i := 0 to stops.Length
      invariant stops[..] == was && i <= IndexOf(was, destination)
    {
      if stops[i].destination == destination {
        var first := stops[i];
        forall k | 1 <= k <= i {
          stops[k] := stops[k - 1];
        }
        stops[0] := first;
        assert stops[..] == [was[i]] + was[..i] + was[i + 1..];
        return true;
      }
    }
    found := false;
  }

  lemma NextStop(v: Voyage, start: nat, initial: real, stops: seq<Obligation>, i: nat)
    requires Sane(v) && i < |stops| && OnTimeTo(v, start, initial, stops, i)
    ensures OnTimeTo(v, start, initial, stops, i + 1) <==>
              && Sailable(v, Previous(start, stops, i), stops[i].destination)
              && LegsSailable(v, start, stops, i + 1)
              && OnTime(v, start, initial, stops, i)
  {
    assert Sailable(v, Previous(start, stops, i), stops[i].destination) ==> LegsSailable(v, start, stops, i + 1);
  }

  lemma NextLeg(v: Voyage, start: nat, stops: seq<Obligation>, i: nat)
    requires Sane(v) && i < |stops| && LegsSailable(v, start, stops, i)
    requires Sailable(v, Previous(start, stops, i), stops[i].destination)
    ensures LegsSailable(v, start, stops, i + 1)
  {
  }

  lemma NextDays(v: Voyage, start: nat, initial: real, stops: seq<Obligation>, i: nat, days: real)
    requires Sane(v) && i < |stops| && LegsSailable(v, start, stops, i)
    requires Sailable(v, Previous(start, stops, i), stops[i].destination)
    requires days == if i == 0 then initial else DaysTo(v, start, initial, stops, i - 1) + 0.5
    ensures LegsSailable(v, start, stops, i + 1)
    ensures DaysTo(v, start, initial, stops, i) == days + LegDays(v, Previous(start, stops, i), stops[i].destination)
  {
    NextLeg(v, start, stops, i);
  }

  /** One leg and its stop. */
  method CheckStop(v: Voyage, from: nat, days: real, stop: Obligation,
                   ghost start: nat, ghost initial: real, ghost stops: seq<Obligation>, ghost i: nat)
      returns (verdict: Verdict, reached: real)
    requires Sane(v) && i < |stops| && stop == stops[i] && from == Previous(start, stops, i)
    requires OnTimeTo(v, start, initial, stops, i)
    requires days == if i == 0 then initial else DaysTo(v, start, initial, stops, i - 1) + 0.5
    ensures verdict.Pass? <==> OnTimeTo(v, start, initial, stops, i + 1)
    ensures verdict.Pass? ==> reached == DaysTo(v, start, initial, stops, i)
  {
    reached := days;
    NextStop(v, start, initial, stops, i);
    if stop.deadline.None? {
      return UnknownDeadline(stop.contract), days;
    }
    if from != stop.destination {
      if (from, stop.destination) !in v.routes || !v.routes[(from, stop.destination)].usable
         || v.routes[(from, stop.destination)].distance <= 0 {
        return NoRoute, days;
      }
      reached := days + LegDays(v, from, stop.destination);
    }
    NextDays(v, start, initial, stops, i, days);
    verdict := if Arrival(v, reached) >= stop.deadline.value then Late(stop.contract) else Pass;
  }

  method WalkItinerary(v: Voyage, start: nat, initial: real, stops: array<Obligation>) returns (verdict: Verdict)
    requires Sane(v)
    ensures verdict.Pass? <==> Feasible(v, start, initial, stops[..])
  {
    var days, from := initial, start;
    for i := 0 to stops.Length
      invariant from == if i == 0 then start else stops[..][i - 1].destination
      invariant OnTimeTo(v, start, initial, stops[..], i)
      invariant days == if i == 0 then initial else DaysTo(v, start, initial, stops[..], i - 1) + 0.5
    {
      var reached;
      verdict, reached := CheckStop(v, from, days, stops[i], start, initial, stops[..], i);
      if !verdict.Pass? {
        OnTimeEarlier(v, start, initial, stops[..], i + 1);
        return;
      }
      days, from := reached + 0.5, stops[i].destination;
    }
    verdict := Pass;
  }

  /** Where the checked itinerary starts: at the destination when it has a stop or the
      ship is there, otherwise after sailing to it. */
  predicate Begins(v: Voyage, current: nat, destination: nat, stops: seq<Obligation>) {
    IndexOf(stops, destination) < |stops| || Sailable(v, current, destination)
  }

  function StartPort(current: nat, destination: nat, stops: seq<Obligation>): nat {
    if IndexOf(stops, destination) < |stops| then current else destination
  }

  function StartDays(v: Voyage, current: nat, destination: nat, stops: seq<Obligation>): real
    requires Sane(v) && Begins(v, current, destination, stops)
  {
    if IndexOf(stops, destination) < |stops| || current == destination then 0.0
    else LegDays(v, current, destination) + 0.5
  }

  ghost predicate DepartureHolds(v: Voyage, current: nat, destination: nat, stops: seq<Obligation>)
    requires Sane(v)
  {
    && Begins(v, current, destination, stops)
    && Feasible(v, StartPort(current, destination, stops), StartDays(v, current, destination, stops),
                Rotated(stops, destination))
  }

  method FreightDepartureAt(v: Voyage, current: nat, destination: nat, stops: array<Obligation>)
      returns (verdict: Verdict)
    requires Sane(v)
    modifies stops
    ensures stops[..] == Rotated(old(stops[..]), destination)
    ensures verdict.Pass? <==> DepartureHolds(v, current, destination, old(stops[..]))
  {
    ghost var was := stops[..];
    var found := Rotate(stops, destination);
    var days, from := 0.0, current;
    if !found && from != destination {
      if (from, destination) !in v.routes || !v.routes[(from, destination)].usable
         || v.routes[(from, destination)].distance <= 0 {
        return NoRoute;
      }
      days := LegDays(v, from, destination) + 0.5;
      from := destination;
    }
    assert from == StartPort(current, destination, was) && days == StartDays(v, current, destination, was);
    verdict := WalkItinerary(v, from, days, stops);
  }

  /** When the modelled days have passed, without the margin. */
  function Reached(v: Voyage, days: real): real
    requires Sane(v)
  {
    v.upper as real + days * 86_400.0 / v.scale as real * SECOND as real
  }

  lemma ArrivalAfter(v: Voyage, days: real)
    requires Sane(v)
    ensures Reached(v, days) < Arrival(v, days) as real
  {
    var plain, late := days * 86_400.0 / v.scale as real, (days + 1.0) * 86_400.0 / v.scale as real;
    assert late == plain + 86_400.0 / v.scale as real;
    assert 86_400.0 / v.scale as real > 0.0;
    CeilAbove(late);
  }

  /** Stop k of the itinerary reaches the obligation's destination strictly before its
      deadline. */
  ghost predicate MetAt(v: Voyage, start: nat, initial: real, stops: seq<Obligation>, o: Obligation, k: nat)
    requires Sane(v)
  {
    && k < |stops| && LegsSailable(v, start, stops, k + 1)
    && stops[k].destination == o.destination
    && o.deadline.Some?
    && Reached(v, DaysTo(v, start, initial, stops, k)) < o.deadline.value as real
  }

  ghost predicate Met(v: Voyage, start: nat, initial: real, stops: seq<Obligation>, o: Obligation)
    requires Sane(v)
  {
    exists k: nat :: MetAt(v, start, initial, stops, o, k)
  }

  lemma StopMeets(v: Voyage, start: nat, initial: real, stops: seq<Obligation>, k: nat, o: Obligation)
    requires Sane(v) && Feasible(v, start, initial, stops)
    requires k < |stops| && stops[k].destination == o.destination && AtLeastAsTight(stops[k].deadline, o.deadline)
    ensures Met(v, start, initial, stops, o)
  {
    assert OnTime(v, start, initial, stops, k);
    var days := DaysTo(v, start, initial, stops, k);
    ArrivalAfter(v, days);
    assert Arrival(v, days) as real <= o.deadline.value as real;
    assert MetAt(v, start, initial, stops, o, k);
  }

  /** Passing the check means every unsettled obligation is met, not only the stops. */
  lemma DepartureMeetsAll(v: Voyage, current: nat, destination: nat, obligations: seq<Obligation>, o: Obligation)
    requires Sane(v) && DepartureHolds(v, current, destination, Stops(obligations))
    requires o in obligations && !o.settled
    ensures var stops := Stops(obligations);
            Met(v, StartPort(current, destination, stops), StartDays(v, current, destination, stops),
                Rotated(stops, destination), o)
  {
    var stops := Stops(obligations);
    StopsExact(obligations);
    assert CoveredBy(stops, o);
    var k := CoveringStop(stops, destination, o);
    StopMeets(v, StartPort(current, destination, stops), StartDays(v, current, destination, stops),
              Rotated(stops, destination), k, o);
  }

  lemma CoveringStop(stops: seq<Obligation>, destination: nat, o: Obligation) returns (k: nat)
    requires CoveredBy(stops, o)
    ensures k < |Rotated(stops, destination)|
    ensures var stop := Rotated(stops, destination)[k];
            stop.destination == o.destination && AtLeastAsTight(stop.deadline, o.deadline)
  {
    var stop :| stop in stops && stop.destination == o.destination && AtLeastAsTight(stop.deadline, o.deadline);
    var rotated := Rotated(stops, destination);
    RotatedPermutes(stops, destination);
    assert stop in multiset(stops) && stop in multiset(rotated);
    k :| 0 <= k < |rotated| && rotated[k] == stop;
  }

  /** The departure check of a ship with sealed freight. */
  method ValidateFreightDeparture(v: Voyage, clocked: bool, current: nat, destination: nat,
        obligations: seq<Obligation>)
      returns (verdict: Option<Verdict>)
    requires 0 < v.centiknots
    ensures verdict.Some? && verdict.value.Pass? <==>
              (forall o <- obligations :: o.settled)
              || (clocked && 0 < v.scale && DepartureHolds(v, current, destination, Stops(obligations)))
    // Without clock authority nothing outstanding may leave.
    ensures verdict.None? <==> (exists o <- obligations :: !o.settled) && (!clocked || v.scale <= 0)
  {
    NoStops(obligations);
    var stops := FreightStops(obligations);
    if |stops| == 0 {
      return Some(Pass);
    }
    if !clocked || v.scale <= 0 {
      return None;
    }
    var itinerary := new Obligation[|stops|](i requires 0 <= i < |stops| => stops[i]);
    assert itinerary[..] == stops;
    var result := FreightDepartureAt(v, current, destination, itinerary);
    verdict := Some(result);
  }

  lemma NoStops(obligations: seq<Obligation>)
    ensures Stops(obligations) == [] <==> forall o <- obligations :: o.settled
  {
    StopsExact(obligations);
    if Stops(obligations) != [] {
      assert Stops(obligations)[0] in Stops(obligations);
    }
    if exists o <- obligations :: !o.settled {
      var o :| o in obligations && !o.settled;
      assert CoveredBy(Stops(obligations), o);
    }
  }
}
