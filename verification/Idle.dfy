/** Idle hours: only successive coherent observations of an idle ship at one port earn
    game hours. */
module Idle {
  import opened Options
  import opened Pence

  datatype Idleness = Idleness(
    lastHour: int,
    port: string,
    earned: int,
    lastUtc: Option<int>,
    validated: bool,
    regressed: bool)

  const Unseen := Idleness(0, "", 0, None, false, false)

  /** A pass: `coherent` says that ships, contracts and the running clock are all
      current, `previousFresh` that the frame before still is. */
  datatype Frame = Frame(coherent: bool, previousFresh: bool, shipsFresh: bool, hour: int, utc: int)

  datatype View = Absent | Sunk | Present(busy: bool, port: string)

  // The clock is current only with the ships, and its hour is not negative.
  predicate ValidFrame(f: Frame) { f.coherent ==> f.shipsFresh && 0 <= f.hour <= MAX_INT64 }

  /** The ship is busy, or elsewhere than it was last seen. */
  predicate Resets(o: Idleness, v: View) { v.Present? && (v.busy || o.port != v.port) }

  /** What one frame makes of one ship's record. */
  function NextIdle(record: Option<Idleness>, f: Frame, v: View): Option<Idleness> {
    var kept := if record.None? || f.coherent then record
                else Some(record.value.(validated := false, regressed := false));
    if !f.shipsFresh then kept
    else if !v.Present? then None
    else
      var before := if kept.Some? then kept.value else Unseen;
      var seen := if f.previousFresh then before else before.(validated := false);
      var o := if Resets(seen, v) then seen.(earned := 0, validated := false, regressed := false, port := v.port)
               else seen;
      Some(Observe(o, f, v))
  }

  function Observe(o: Idleness, f: Frame, v: View): Idleness
    requires v.Present?
  {
    if v.busy || !f.coherent || v.port == "" then o.(validated := false)
    else if o.lastUtc.Some? && f.utc <= o.lastUtc.value then
      o.(validated := false, regressed := false, lastUtc := Some(f.utc))
    else
      var regressed := f.hour < o.lastHour;
      var delta := if o.validated && !regressed then Min(f.hour - o.lastHour, MAX_INT64 - o.earned) else 0;
      Idleness(f.hour, o.port, o.earned + delta, Some(f.utc), true, regressed)
  }

  // ------------------------------------------------------------------ histories

  /** A ship's record with its history: the previous frame, the game hour at which the
      ship was last busy or changed port, and the upward movement of the hour since,
      between adjacent frames that both validated. */
  datatype Track = Track(record: Option<Idleness>, previous: Option<Frame>, since: int, upward: int)

  const Start := Track(None, None, 0, 0)

  predicate Validated(record: Option<Idleness>) { record.Some? && record.value.validated }

  predicate Restarts(t: Track, f: Frame, v: View) {
    t.record.None? || NextIdle(t.record, f, v).None? || (f.shipsFresh && Resets(t.record.value, v))
  }

  function Advance(t: Track, f: Frame, v: View): Track {
    var next := NextIdle(t.record, f, v);
    if Restarts(t, f, v) then Track(next, Some(f), f.hour, 0)
    else
      var moved := if t.previous.Some? && Validated(t.record) && Validated(next)
                   then Max(0, f.hour - t.previous.value.hour) else 0;
      Track(next, Some(f), t.since, t.upward + moved)
  }

  function Follow(frames: seq<(Frame, View)>): Track {
    if frames == [] then Start
    else
      var last := frames[|frames| - 1];
      Advance(Follow(frames[..|frames| - 1]), last.0, last.1)
  }

  predicate ValidFrames(frames: seq<(Frame, View)>) { forall i :: 0 <= i < |frames| ==> ValidFrame(frames[i].0) }

  predicate Rising(frames: seq<(Frame, View)>) {
    forall i :: 0 < i < |frames| ==> frames[i - 1].0.hour <= frames[i].0.hour
  }

  predicate TrackSound(t: Track) {
    && 0 <= t.upward
    && (t.record.Some? ==> 0 <= t.record.value.earned <= Min(t.upward, MAX_INT64) && 0 <= t.record.value.lastHour)
    && (Validated(t.record) ==>
          && t.previous.Some?
          && t.record.value.lastHour == t.previous.value.hour
          && t.record.value.lastUtc == Some(t.previous.value.utc))
  }

  lemma AdvanceSound(t: Track, f: Frame, v: View)
    requires TrackSound(t) && ValidFrame(f)
    ensures TrackSound(Advance(t, f, v))
  {
  }

  /** Earned hours never exceed the observed upward movement of the game hour between
      adjacent validated frames since the ship was last busy or changed port. */
  lemma {:induction false} EarnedWithinMovement(frames: seq<(Frame, View)>)
    requires ValidFrames(frames)
    ensures TrackSound(Follow(frames))
    decreases |frames|
  {
    if frames != [] {
      EarnedWithinMovement(frames[..|frames| - 1]);
      AdvanceSound(Follow(frames[..|frames| - 1]), frames[|frames| - 1].0, frames[|frames| - 1].1);
    }
  }

  predicate Elapsed(t: Track) {
    t.record.Some? ==> t.previous.Some? && t.record.value.earned <= t.upward <= t.previous.value.hour - t.since
  }

  lemma AdvanceElapsed(t: Track, f: Frame, v: View)
    requires TrackSound(t) && Elapsed(t) && ValidFrame(f) && (t.previous.Some? ==> t.previous.value.hour <= f.hour)
    ensures Elapsed(Advance(t, f, v))
  {
    AdvanceSound(t, f, v);
  }

  /** While the game hour never decreases, they never exceed the hours elapsed there. */
  lemma {:induction false} EarnedWithinElapsed(frames: seq<(Frame, View)>)
    requires ValidFrames(frames) && Rising(frames)
    ensures Elapsed(Follow(frames))
    ensures frames != [] ==> Follow(frames).previous == Some(frames[|frames| - 1].0)
    decreases |frames|
  {
    if frames != [] {
      EarnedWithinElapsed(frames[..|frames| - 1]);
      EarnedWithinMovement(frames[..|frames| - 1]);
      AdvanceElapsed(Follow(frames[..|frames| - 1]), frames[|frames| - 1].0, frames[|frames| - 1].1);
    }
  }

  /** A frame earns only if the one before it was validated and is still fresh, the
      ship stayed idle at its port, server time advanced and the hour did not fall;
      and then it earns exactly the hours between the two, until the count is full. */
  lemma EarnsExactly(t: Track, f: Frame, v: View)
    requires TrackSound(t) && ValidFrame(f) && t.record.Some? && NextIdle(t.record, f, v).Some?
    requires !Restarts(t, f, v)
    ensures
      var before, after := t.record.value, NextIdle(t.record, f, v).value;
      var earns := before.validated && f.coherent && f.previousFresh && v.Present? && !v.busy && v.port != ""
                   && t.previous.Some? && t.previous.value.utc < f.utc && t.previous.value.hour <= f.hour;
      after.earned
      == before.earned + if earns then Min(f.hour - t.previous.value.hour, MAX_INT64 - before.earned) else 0
  {
  }

  /** Gaps, replays and regressions leave the record short of eligibility. */
  lemma GapsEarnNothing(t: Track, f: Frame, v: View)
    requires TrackSound(t) && ValidFrame(f) && t.record.Some? && NextIdle(t.record, f, v).Some?
    requires !f.coherent || !f.previousFresh || (t.record.value.lastUtc.Some? && f.utc <= t.record.value.lastUtc.value)
             || f.hour < t.record.value.lastHour
    ensures NextIdle(t.record, f, v).value.earned <= t.record.value.earned
  {
  }

  /** Eligibility for an idle task of so many hours. */
  predicate ShipIdleFor(record: Option<Idleness>, f: Frame, v: View, hours: int) {
    && f.coherent && v.Present? && !v.busy
    && var o := if record.Some? then record.value else Unseen;
       && o.validated && !o.regressed && hours <= o.earned
       && o.port != "" && o.port == v.port
       && o.lastHour == f.hour && o.lastUtc == Some(f.utc)
  }

  /** So an eligible ship really has been idle at that port for as long. */
  lemma EligibleMeansIdle(frames: seq<(Frame, View)>, f: Frame, v: View, hours: int)
    requires ValidFrames(frames) && Rising(frames)
    requires ShipIdleFor(Follow(frames).record, f, v, hours)
    ensures frames != [] && hours <= f.hour - Follow(frames).since && hours <= Follow(frames).upward
  {
    EarnedWithinElapsed(frames);
    EarnedWithinMovement(frames);
  }

  // ------------------------------------------------------------------ the fleet

  datatype Ship = Ship(id: string, sunk: bool, busy: bool, port: string)

  predicate Distinct(ships: seq<Ship>) { forall i, j :: 0 <= i < j < |ships| ==> ships[i].id != ships[j].id }

  function ViewOf(ships: seq<Ship>, id: string): View {
    if ships == [] then Absent
    else if ships[0].id == id then (if ships[0].sunk then Sunk else Present(ships[0].busy, ships[0].port))
    else ViewOf(ships[1..], id)
  }

  lemma {:induction false} ViewAt(ships: seq<Ship>, i: nat)
    requires i < |ships| && Distinct(ships)
    ensures ViewOf(ships, ships[i].id) == if ships[i].sunk then Sunk else Present(ships[i].busy, ships[i].port)
    decreases |ships|
  {
    if i > 0 {
      assert ships[0].id != ships[i].id;
      ViewAt(ships[1..], i - 1);
    }
  }

  lemma {:induction false} NoView(ships: seq<Ship>, id: string)
    requires forall i :: 0 <= i < |ships| ==> ships[i].id != id
    ensures ViewOf(ships, id).Absent?
    decreases |ships|
  {
    if ships != [] {
      NoView(ships[1..], id);
    }
  }

  function Look(idle: map<string, Idleness>, id: string): Option<Idleness> {
    if id in idle then Some(idle[id]) else None
  }

  class Fleet {
    var idle: map<string, Idleness>

    constructor ()
      ensures idle == map[]
    {
      idle := map[];
    }

    /** An incoherent frame invalidates every record. */
    method Invalidate()
      modifies this
      ensures idle == map id | id in old(idle) :: old(idle)[id].(validated := false, regressed := false)
    {
      var rest := idle.Keys;
      while rest != {}
        invariant rest <= idle.Keys == old(idle).Keys
        invariant forall id <- idle ::
                    idle[id] == if id in rest then old(idle)[id]
                                else old(idle)[id].(validated := false, regressed := false)
        decreases rest
      {
        var id :| id in rest;
        rest := rest - {id};
        idle := idle[id := idle[id].(validated := false, regressed := false)];
      }
    }

    /** One ship, once an incoherent frame has invalidated its record. */
    method RecordShip(f: Frame, ship: Ship, ghost before: Option<Idleness>)
      requires f.shipsFresh
      requires Look(idle, ship.id)
               == if before.Some? && !f.coherent
                  then Some(before.value.(validated := false, regressed := false)) else before
      modifies this
      ensures idle.Keys == if ship.sunk then old(idle).Keys - {ship.id} else old(idle).Keys + {ship.id}
      ensures forall id <- idle :: id != ship.id ==> idle[id] == old(idle)[id]
      ensures Look(idle, ship.id) == NextIdle(before, f, if ship.sunk then Sunk else Present(ship.busy, ship.port))
    {
      if ship.sunk {
        idle := idle - {ship.id};
        return;
      }
      var observed := if ship.id in idle then idle[ship.id] else Unseen;
      if !f.previousFresh {
        observed := observed.(validated := false);
      }
      if ship.busy || observed.port != ship.port {
        observed := observed.(earned := 0, validated := false, regressed := false, port := ship.port);
      }
      if ship.busy || !f.coherent || ship.port == "" {
        idle := idle[ship.id := observed.(validated := false)];
        return;
      }
      if observed.lastUtc.Some? && f.utc <= observed.lastUtc.value {
        idle := idle[ship.id := observed.(validated := false, regressed := false, lastUtc := Some(f.utc))];
        return;
      }
      var regressed := f.hour < observed.lastHour;
      if observed.validated && !regressed {
        observed := observed.(earned := observed.earned + Min(f.hour - observed.lastHour, MAX_INT64 - observed.earned));
      }
      idle := idle[ship.id := Idleness(f.hour, observed.port, observed.earned, Some(f.utc), true, regressed)];
    }

    /** Every listed ship, after an incoherent frame has invalidated the records. */
    method RecordListed(f: Frame, ships: seq<Ship>, ghost was: map<string, Idleness>) returns (seen: set<string>)
      requires ValidFrame(f) && f.shipsFresh && Distinct(ships) && forall ship <- ships :: ship.id != ""
      requires forall id :: Look(idle, id) == var before := Look(was, id);
                 if before.Some? && !f.coherent
                 then Some(before.value.(validated := false, regressed := false)) else before
      modifies this
      ensures forall id :: id in seen <==> exists k :: 0 <= k < |ships| && ships[k].id == id
      ensures forall id <- seen :: Look(idle, id) == NextIdle(Look(was, id), f, ViewOf(ships, id))
    {
      ghost var base := idle;
      seen := {};
      for i := 0 to |ships|
        invariant forall id :: id in seen <==> exists k :: 0 <= k < i && ships[k].id == id
        invariant forall id :: id !in seen ==> Look(idle, id) == Look(base, id)
        invariant forall id <- seen :: Look(idle, id) == NextIdle(Look(was, id), f, ViewOf(ships, id))
      {
        ViewAt(ships, i);
        assert ships[i].id !in seen;
        RecordShip(f, ships[i], Look(was, ships[i].id));
        seen := seen + {ships[i].id};
      }
    }

    /** A pass over the fleet steps each ship's record; without a current list of ships
        none is added or removed. */
    method RecordShipIdle(f: Frame, ships: seq<Ship>)
      requires ValidFrame(f) && Distinct(ships) && forall ship <- ships :: ship.id != ""
      modifies this
      ensures forall id :: Look(idle, id) == NextIdle(Look(old(idle), id), f, ViewOf(ships, id))
    {
      ghost var was := idle;
      if !f.coherent {
        Invalidate();
      }
      if !f.shipsFresh {
        return;
      }
      var seen := RecordListed(f, ships, was);
      Keep(seen);
      forall id | id !in seen ensures NextIdle(Look(was, id), f, ViewOf(ships, id)) == None {
        UnlistedForgotten(was, f, ships, id);
      }
    }

    lemma UnlistedForgotten(was: map<string, Idleness>, f: Frame, ships: seq<Ship>, id: string)
      requires f.shipsFresh && forall k :: 0 <= k < |ships| ==> ships[k].id != id
      ensures NextIdle(Look(was, id), f, ViewOf(ships, id)) == None
    {
      NoView(ships, id);
    }

    /** Forgets the ships that are no longer listed. */
    method Keep(seen: set<string>)
      modifies this
      ensures forall id :: Look(idle, id) == if id in seen then Look(old(idle), id) else None
    {
      var rest := idle.Keys;
      while rest != {}
        invariant rest <= old(idle).Keys
        invariant idle == map id | id in old(idle) && (id in rest || id in seen) :: old(idle)[id]
        decreases rest
      {
        var id :| id in rest;
        rest := rest - {id};
        if id !in seen {
          idle := idle - {id};
        }
      }
    }
  }
}
