/** The controller's lease methods over its mission fields and the intents. Whatever
    they do is a legal run of the lease protocol. */
module LeaseController {
  import opened Options
  import opened Pence
  import opened Runs
  import opened FuturesLease

  datatype Outcome = Unchanged | LeaseStaged | AdmissionStaged | Dropped | Died

  class Manager {
    var ports: map<string, Warehouse>
    var rows: seq<Row>
    var leases: map<string, Holding>
    var change: Option<Change>
    var sending: Sending
    ghost var w: World
    ghost var trace: seq<Step>
    ghost var worlds: seq<World>

    ghost predicate Agrees(v: World)
      reads this
    {
      v.ports == ports && v.rows == rows && v.leases == leases && v.change == change && v.sending == sending
    }

    ghost predicate Valid()
      reads this
    {
      Ran(trace, worlds, w) && Agrees(w)
    }

    /** Whatever the controller has done so far is a legal run. */
    lemma IsRun()
      requires Valid()
      ensures Legal(Start, trace) && After(Start, trace) == w
    {
      RanLegal(trace, worlds, w);
    }

    constructor ()
      ensures Valid() && trace == []
    {
      ports, rows, leases, change, sending := map[], [], map[], None, Detached;
      w, trace, worlds := Start, [], [Start];
    }

    ghost method Note(step: Step)
      requires Ran(trace, worlds, w) && Enabled(w, step) && Agrees(Apply(w, step))
      modifies this`w, this`trace, this`worlds
      ensures Valid() && w == Apply(old(w), step) && trace == old(trace) + [step]
    {
      RunsOn(trace, worlds, w, step);
      w := Apply(w, step);
      trace, worlds := trace + [step], worlds + [w];
    }

    // ------------------------------------------------------------- surroundings

    /** The request reaches the server. */
    method LandChange()
      requires Valid() && Enabled(w, Land)
      modifies this
      ensures Valid() && trace == old(trace) + [Land] && w == Apply(old(w), Land)
    {
      var target: nat := Max(0, change.value.target);
      ports := ports[change.value.port := House(change.value.port).(leased := target)];
      Note(Land);
    }

    /** Somebody else of the company leases more. */
    method RentMore(port: string, tons: nat)
      requires Valid()
      modifies this
      ensures Valid() && trace == old(trace) + [Rent(port, tons)] && w == Apply(old(w), Rent(port, tons))
    {
      var house := House(port);
      ports := ports[port := house.(leased := house.leased + tons)];
      Note(Rent(port, tons));
    }

    method MoveStock(port: string, used: nat, locked: nat, free: nat)
      requires Valid()
      modifies this
      ensures Valid() && trace == old(trace) + [Stock(port, used, locked, free)]
      ensures w == Apply(old(w), Stock(port, used, locked, free))
    {
      ports := ports[port := Warehouse(House(port).leased, used, locked, free)];
      Note(Stock(port, used, locked, free));
    }

    // ------------------------------------------------------------ the controller

    function House(port: string): Warehouse
      reads this
    {
      if port in ports then ports[port] else Warehouse(0, 0, 0, 0)
    }

    method ReceivingReserved(port: string) returns (reserved: nat)
      ensures reserved == Receiving(rows, port)
    {
      reserved := 0;
      for i := 0 to |rows|
        invariant reserved == Receiving(rows[..i], port)
      {
        assert rows[..i + 1][..i] == rows[..i];
        var row := rows[i];
        if row.port != port || !row.side.Bid? || row.status.Cancelled? || row.status.Rejected? {
          continue;
        }
        if !Terminal(row.status) || !row.receipt {
          reserved := reserved + row.lot;
        }
      }
      assert rows[..|rows|] == rows;
    }

    method LeaseFloor(port: string, pending: Option<Change>) returns (floor: int)
      requires Valid()
      ensures floor == FloorPending(w, port, pending)
    {
      var reserved := ReceivingReserved(port);
      var baseline := 0;
      if port in leases {
        baseline := leases[port].baseline + Max(0, House(port).leased - leases[port].target);
      }
      floor := Max(baseline, House(port).used + House(port).locked + reserved);
      if pending.Some? && pending.value.port == port {
        floor := Max(floor, pending.value.target);
      }
    }

    /** The terms are saved first and the request is staged afterwards. */
    method StageLease(step: Step, terms: Change, die: bool) returns (outcome: Outcome)
      requires Valid() && (step.Grow? || step.Release?) && Enabled(w, step) && Apply(w, step).change == Some(terms)
      modifies this
      ensures Valid() && trace == old(trace) + if die then [step] else [step, Attach]
      ensures change == Some(terms) && outcome == if die then Died else LeaseStaged
    {
      change := Some(terms);
      Note(step);
      if die {
        return Died;
      }
      sending := Unsent;
      Note(Attach);
      outcome := LeaseStaged;
    }

    /** Gives up the selected intents; they were never sent. */
    method RejectIntents(selected: set<nat>)
      requires Valid()
      modifies this
      ensures Valid() && trace == old(trace) + [Record(rows)]
      ensures |rows| == |old(rows)| && w == old(w).(rows := rows)
      ensures forall i :: 0 <= i < |rows| ==>
                rows[i] == if i in selected then old(rows)[i].(status := Rejected) else old(rows)[i]
    {
      var kept := rows;
      for i := 0 to |rows|
        invariant |kept| == |rows|
        invariant forall k :: 0 <= k < |rows| ==>
                    kept[k] == if k in selected && k < i then rows[k].(status := Rejected) else rows[k]
      {
        if i in selected {
          kept := kept[i := kept[i].(status := Rejected)];
        }
      }
      rows := kept;
      Note(Record(kept));
    }

    method NeededTons(port: string) returns (needed: int)
      requires Valid()
      ensures needed == Needed(w, port)
    {
      var reserved := ReceivingReserved(port);
      var house := House(port);
      needed := Max(house.used + house.locked, house.leased - house.free) + reserved;
    }

    method BaselineTons(port: string) returns (baseline: int)
      requires Valid()
      ensures baseline == Baseline(w, port)
    {
      baseline := House(port).leased;
      if port in leases {
        baseline := leases[port].baseline + Max(0, House(port).leased - leases[port].target);
      }
    }

    /** Leases exactly what the admission needs, goes on to the admission when it is
        already leased, and gives the admission up when it cannot be. */
    method StageCapacity(port: string, selected: set<nat>, limit: int, rent: int, available: int, die: bool)
        returns (outcome: Outcome)
      requires Valid() && change.None? && sending.Detached?
      modifies this
      ensures Valid() && old(trace) <= trace
      ensures outcome.AdmissionStaged? <==> old(Needed(w, port)) <= old(House(port)).leased
      ensures outcome.LeaseStaged? ==>
                && trace == old(trace) + [Grow(port, limit), Attach]
                && change.Some? && change.value.target == old(Needed(w, port)) && 0 < rent
                && change.value.target - change.value.before <= available
      ensures outcome.Dropped? ==>
                change.None? && forall i :: 0 <= i < |rows| && i in selected ==> rows[i].status.Rejected?
    {
      var leased := House(port).leased;
      var target := NeededTons(port);
      if target <= leased {
        return AdmissionStaged;
      }
      if target > limit || target - leased > available || rent <= 0 {
        RejectIntents(selected);
        return Dropped;
      }
      var baseline := BaselineTons(port);
      outcome := StageLease(Grow(port, limit), Change(port, leased, target, baseline, Some(limit)), die);
    }

    /** Clears terms whose request was retired unsent; otherwise stages the first
        release, in port order, that gives anything back. */
    method ReleaseLease(order: seq<string>, die: bool) returns (outcome: Outcome)
      requires Valid()
      requires forall port :: port in order <==> port in leases
      modifies this
      ensures Valid() && old(trace) <= trace
      ensures outcome.Unchanged? ==> trace == old(trace)
      ensures outcome.Unchanged? && sending.Detached? ==>
                change.None? && forall port <- leases :: House(port).leased <= Floor(w, port)
      ensures outcome.LeaseStaged? ==> change.Some? && change.value.target == Floor(old(w), change.value.port)
    {
      if !sending.Detached? {
        return Unchanged;
      }
      if change.Some? {
        change := None;
        Note(Clear);
        return Dropped;
      }
      for i := 0 to |order|
        invariant Valid() && trace == old(trace) && w == old(w)
        invariant change.None? && sending.Detached? && leases == old(leases)
        invariant forall k :: 0 <= k < i ==> House(order[k]).leased <= Floor(w, order[k])
      {
        var port := order[i];
        var target := LeaseFloor(port, change);
        if target < House(port).leased {
          var baseline := BaselineTons(port);
          outcome := StageLease(Release(port), Change(port, House(port).leased, target, baseline, None), die);
          return;
        }
      }
      outcome := Unchanged;
    }

    method LeasePreflight(available: int, covered: bool) returns (ok: bool)
      requires Valid() && change.Some?
      ensures ok == PreflightPasses(w, change.value, available, covered)
    {
      var c := change.value;
      if House(c.port).leased != c.before {
        return false;
      }
      if c.target < c.before {
        var floor := LeaseFloor(c.port, None);
        return c.target >= floor && c.target >= c.baseline;
      }
      if c.admitted.None? || !covered || c.target - c.before > available {
        return false;
      }
      var needed := NeededTons(c.port);
      ok := needed == c.target && c.target <= c.admitted.value;
    }

    /** First send: only past the preflight. */
    method SendChange(available: int, covered: bool) returns (sent: bool)
      requires Valid() && change.Some? && sending.Unsent?
      modifies this
      ensures Valid()
      ensures sent <==> PreflightPasses(old(w), old(change).value, available, covered)
      ensures trace == old(trace) + [if sent then Send(available, covered) else Unsend]
    {
      sent := LeasePreflight(available, covered);
      if sent {
        sending := Sent;
        Note(Send(available, covered));
      } else {
        sending := Detached;
        Note(Unsend);
      }
    }

    method FinishLease(step: Step)
      requires Valid() && (step.Confirm? || step.Reconcile?) && Enabled(w, step)
      modifies this
      ensures Valid() && trace == old(trace) + [step] && w == Finished(old(w))
    {
      var c := change.value;
      if c.target == c.baseline {
        leases := leases - {c.port};
      } else {
        leases := leases[c.port := Holding(c.baseline, c.target)];
      }
      change, sending := None, Detached;
      Note(step);
    }

    /** A definite refusal leaves every holding as it was; a refused growth also gives
        up its admission. */
    method RefuseLease(selected: set<nat>, authorization: bool)
      requires Valid() && Enabled(w, Refuse)
      modifies this
      ensures Valid() && old(trace) <= trace && leases == old(leases) && change.None? && sending.Detached?
      ensures !authorization && old(change).value.admitted.Some? ==>
                forall i :: 0 <= i < |rows| && i in selected ==> rows[i].status.Rejected?
    {
      if !authorization && change.value.admitted.Some? {
        RejectIntents(selected);
      }
      change, sending := None, Detached;
      Note(Refuse);
    }

    /** Recovery of an ambiguous request from a warehouse read after it. */
    method ReconcileLease() returns (done: bool)
      requires Valid() && change.Some? && sending.Sent?
      modifies this
      ensures Valid()
      ensures done <==> old(House(change.value.port)).leased == old(change).value.target
      ensures if done then w == Finished(old(w)) else trace == old(trace)
    {
      if House(change.value.port).leased != change.value.target {
        return false;
      }
      FinishLease(Reconcile);
      done := true;
    }
  }
}
